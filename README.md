# dataship schema extraction, modelled in Dafny

dataship reads a database's schema and draws its tables, keys and foreign-key
links as a graph. This project models the extraction step, `relate`. It turns
reflected schema metadata into a *snapshot*, which maps each table name to a
descriptor with two fields:

- `primary` lists the names of the primary-key columns, in column order.
- `foreign` maps each constrained column to a one-entry map
  `{referenced table: referenced column}`.

The source has one entry point that dispatches on the argument's type. Here
the three cases are separate members that share the result type `Snapshot`:

- **one table**: `Relate.RelateTable` is an imperative method. It starts from
  an entry with an empty list and an empty map. It then appends each key
  column's name and assigns each foreign key's link, the one-entry map
  `{referenced table: referenced column}` that `Link` builds. It is proved
  against the specification functions `KeyNames`, `ForeignLinks` and
  `TableSnapshot` (the one-entry snapshot `{table name: descriptor}`).
- **whole schema**: `Relate.RelateMetaData` is a pure function. It fails with
  `NotBound` when the metadata has no engine; this check comes first. It fails
  with `NoTablesFound` when there are no tables. Otherwise it merges the
  per-table snapshots left to right in sorted-table order, so a later entry
  overwrites an earlier one. `TableSnapshots` models
  `map(relate, metadata.sorted_tables)` and `Merge` models the dictionary merge
  as a left fold of updates.
- **engine**: `Relate.RelateEngine` takes the output of reflection as a given
  sequence of tables. It builds bound metadata from them and delegates to the
  whole-schema case.

What the database library knows about a table is abstracted into values
(module `Schema`):

- a table is a name, its columns as `(name, primaryKey)` pairs, and its foreign
  keys as `(parent, refTable, refColumn)` triples;
- metadata is a `bound` flag plus the tables in sorted order.

The library iterates a table's foreign keys as a set. The model therefore takes
their order as an arbitrary given sequence. The lemmas say what depends on that
order and what does not.

Files:

- `schema.dfy`: the reflected metadata.
- `relate.dfy`: the extractor and its properties.
- `relate_examples.dfy`: the test suite's literal expectations on a TPC-H style
  schema, as lemmas.

Two behaviours of the code worth noting:

- The engine case of `dataship/relate.py:34-38` does not take a schema-namespace
  filter, even though `dataship/shipit.py:22` passes one.
- Table names are not required to be unique. The metadata's table collection is
  keyed by qualified table key, and the merge at `dataship/relate.py:31` does
  not guard against repeated names. A repeated name overwrites the earlier
  entry, and `RelateMetaDataLastWins` states exactly that.

## Model

| member | source | states |
|---|---|---|
| Relate.KeyNames | dataship/relate.py:16-18 | the primary list never has more names than the table has columns |
| Relate.KeyNamesSelection | dataship/relate.py:16-18 | the k-th primary name is the name of the k-th key column; the key positions strictly increase (column order is kept); every key column is included |
| Relate.KeyNamesMembers | dataship/relate.py:16-18 | a name is in the primary list if and only if some key column has that name (nothing comes from non-key columns) |
| Relate.KeyNamesEmpty | dataship/relate.py:13-18 | the primary list is empty if and only if no column is a key column |
| Relate.KeyNamesAllKeys | dataship/relate.py:16-18 | when every column is a key column, the primary list is all column names in declared order (a composite key keeps its order) |
| Relate.ForeignLinks | dataship/relate.py:19-22 | every value of the foreign map has exactly one entry |
| Relate.ForeignLinksEmpty | dataship/relate.py:12-22 | the foreign map is empty if and only if the table has no foreign keys |
| Relate.ForeignLinksKeys | dataship/relate.py:19-22 | the keys of the foreign map are exactly the parent-column names of the foreign keys |
| Relate.ForeignLinksLastWins | dataship/relate.py:19-22 | the last foreign key on a column determines that column's entry (later assignments overwrite) |
| Relate.ForeignLinksEntry | dataship/relate.py:19-22 | conversely, each entry is the link of the last foreign key on that column |
| Relate.ForeignLinksAgreed | dataship/relate.py:19-22 | when the foreign keys sharing a column agree, each one's link is that column's entry |
| Relate.ForeignLinksOrderIndependent | dataship/relate.py:19-22 | any two iteration orders of the same foreign keys produce the same foreign map, provided no column is constrained in two different ways |
| Relate.ForeignLinksOrderMatters | dataship/relate.py:19-22 | two foreign keys that constrain one column differently give different foreign maps in the two iteration orders |
| Relate.RelateTable | dataship/relate.py:8-23 | the two loops build exactly `TableSnapshot(t)`, the single-table result the whole-schema case merges: its only key is the table name, its primary list is `KeyNames` of the columns and its foreign map is `ForeignLinks` of the foreign keys |
| Relate.Merge | dataship/relate.py:31 | the dictionary merge, a left fold of updates, keeps every key of every merged snapshot |
| Relate.MergeKeys | dataship/relate.py:31 | the keys of the merged snapshot are the union of the keys of the merged snapshots |
| Relate.MergeLastWins | dataship/relate.py:31 | in the merge, the last snapshot that holds a key determines that key's entry |
| Relate.RelateMetaData | dataship/relate.py:26-31 | unbound metadata fails with NotBound whether or not it has tables (the bound check is first); bound metadata without tables fails with NoTablesFound; success happens exactly for bound metadata with tables |
| Relate.RelateMetaDataKeys | dataship/relate.py:31 | on success, the keys of the result are exactly the table names |
| Relate.RelateMetaDataLastWins | dataship/relate.py:31 | on success, each name maps to the descriptor of the last table with that name in sorted order |
| Relate.RelateMetaDataUnique | dataship/relate.py:31 | with distinct table names, the result holds each table's own single-table entry unchanged and nothing else |
| Relate.RelateEngine | dataship/relate.py:34-38 | extracting through an engine never fails with NotBound; it fails with NoTablesFound exactly when reflection found no tables; otherwise it is the merge of the per-table results |
| RelateExamples.CustomerExample | dataship/tests/test_relate.py:15-26 | the customer table extracts to `{customer: {primary: [id], foreign: {nation_id: {nation: id}}}}` |
| RelateExamples.CustomerRelateExample | dataship/tests/test_relate.py:15-26 | running the extracting method on the customer table returns the expected customer dictionary |
| RelateExamples.LineItemExample | dataship/tests/test_relate.py:39-52 | lineitem's composite key is listed as order_id, part_id, supplier_id, line_number, and its three foreign keys are recorded |
| RelateExamples.PartExample | dataship/tests/test_relate.py:69-72 | a table without foreign keys gets an empty foreign map |
| RelateExamples.TpcExample | dataship/tests/test_relate.py:29-96 | extracting the eight-table schema through an engine yields exactly the expected snapshot |

## Left out

- Reflection (`metadata.reflect()` in `dataship/relate.py:37`) is database I/O. `RelateEngine` receives its outcome as a parameter.
- How the database library derives a table's columns, its set of foreign keys and the dependency order of `sorted_tables` is not modelled. These are given sequences.
- The metadata's table dictionary and its sorted list are one sequence in the model. The emptiness guard at `dataship/relate.py:30` therefore tests that sequence.
- Each failure is modelled as an error tag (`NotBound`, `NoTablesFound`). The model does not carry the assertion's message text.
- The guards are Python `assert` statements, and the interpreter drops them under `-O`. The model treats them as always enabled.
- Python dictionaries remember insertion order. Snapshots here are maps compared by content, as the tests compare them.
- The per-call dictionary and list are fresh objects that only `relate` mutates before returning them. They are modelled as values, so aliasing is not a concern.
- The run-time type dispatch of `multipledispatch` is replaced by three named members.
- `dataship/shipit.py` is not part of this model. It handles argument parsing, temporary files, the rendering subprocess and opening a viewer.
- The graph builder (`to_graph`, `write_graph`) is a separate component and is not modelled.
- `setup.py` is packaging metadata only.
- The TPC example tables list their key and foreign-key columns plus a few illustrative non-key columns (`name`, `supplycost`, `quantity`). The real tables' other columns are not given; a column without the key flag cannot affect the result.
