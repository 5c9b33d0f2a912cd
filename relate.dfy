/**
 * Schema extraction: from reflected metadata to a snapshot mapping each table
 * name to its primary-key column names and its foreign-key links.
 *
 * The source dispatches one entry point on the type of its argument (a table,
 * a whole schema, an engine); here the three cases are three named members
 * sharing the result type Snapshot: RelateTable (specified by TableSnapshot),
 * RelateMetaData and RelateEngine.
 */
module Relate {
  import opened Schema

  /** What is recorded about one table (the "primary" and "foreign" fields). */
  datatype Descriptor = Descriptor(primary: seq<string>, foreign: map<string, map<string, string>>)

  /** Table name to descriptor. */
  type Snapshot = map<string, Descriptor>

  /** The two failures of whole-schema extraction. */
  datatype Error = NotBound | NoTablesFound

  datatype Result<T> = Ok(value: T) | Err(error: Error)

  // ---------------------------------------------------------------------------
  // Primary keys: the names of the key columns, in column order.

  /** The names of the primary-key columns of `cols`, in column order. */
  function KeyNames(cols: seq<Column>): (names: seq<string>)
    ensures |names| <= |cols|
  {
    if cols == [] then []
    else
      var last := cols[|cols| - 1];
      KeyNames(cols[..|cols| - 1]) + (if last.primaryKey then [last.name] else [])
  }

  /** The positions of the primary-key columns of `cols`, ascending. */
  ghost function KeyPositions(cols: seq<Column>): (positions: seq<nat>)
  {
    if cols == [] then []
    else KeyPositions(cols[..|cols| - 1]) + (if cols[|cols| - 1].primaryKey then [|cols| - 1] else [])
  }

  /**
   * KeyNames selects exactly the key columns: its k-th name is the name of the
   * k-th key column, the positions strictly increase (column order is kept),
   * and no key column is skipped.
   */
  lemma {:induction false} KeyNamesSelection(cols: seq<Column>)
    ensures |KeyPositions(cols)| == |KeyNames(cols)|
    ensures forall k :: 0 <= k < |KeyPositions(cols)| ==>
      KeyPositions(cols)[k] < |cols| && cols[KeyPositions(cols)[k]].primaryKey &&
      KeyNames(cols)[k] == cols[KeyPositions(cols)[k]].name
    ensures forall k, l :: 0 <= k < l < |KeyPositions(cols)| ==> KeyPositions(cols)[k] < KeyPositions(cols)[l]
    ensures forall i :: 0 <= i < |cols| && cols[i].primaryKey ==> i in KeyPositions(cols)
  {
    if cols != [] {
      var last := |cols| - 1;
      var init := cols[..last];
      KeyNamesSelection(init);
      var pos, names := KeyPositions(cols), KeyNames(cols);
      var pos0, names0 := KeyPositions(init), KeyNames(init);
      assert pos == pos0 + (if cols[last].primaryKey then [last] else []);
      assert names == names0 + (if cols[last].primaryKey then [cols[last].name] else []);
      forall k | 0 <= k < |pos|
        ensures pos[k] < |cols| && cols[pos[k]].primaryKey && names[k] == cols[pos[k]].name
      {
        if k < |pos0| {
          assert pos[k] == pos0[k] && names[k] == names0[k];
          assert init[pos0[k]] == cols[pos0[k]];
        }
      }
      forall i | 0 <= i < |cols| && cols[i].primaryKey ensures i in pos {
        if i < last {
          assert init[i] == cols[i];
        }
      }
    }
  }

  /** A name is listed exactly when some key column carries it. */
  lemma KeyNamesMembers(cols: seq<Column>, x: string)
    ensures x in KeyNames(cols) <==> exists i :: 0 <= i < |cols| && cols[i].primaryKey && cols[i].name == x
  {
    KeyNamesSelection(cols);
    var names, pos := KeyNames(cols), KeyPositions(cols);
    if x in names {
      var k :| 0 <= k < |names| && names[k] == x;
      assert cols[pos[k]].primaryKey && cols[pos[k]].name == x;
    }
    if i :| 0 <= i < |cols| && cols[i].primaryKey && cols[i].name == x {
      var k :| 0 <= k < |pos| && pos[k] == i;
      assert names[k] == x;
    }
  }

  /** The primary list is empty exactly when no column is a key column. */
  lemma {:induction false} KeyNamesEmpty(cols: seq<Column>)
    ensures KeyNames(cols) == [] <==> forall i :: 0 <= i < |cols| ==> !cols[i].primaryKey
  {
    KeyNamesSelection(cols);
    if i :| 0 <= i < |cols| && cols[i].primaryKey {
      assert i in KeyPositions(cols);
    }
    if KeyNames(cols) != [] {
      var p := KeyPositions(cols)[0];
      assert cols[p].primaryKey;
    }
  }

  /** When every column is a key column (a composite key), names come in declared order. */
  lemma {:induction false} KeyNamesAllKeys(cols: seq<Column>)
    requires forall i :: 0 <= i < |cols| ==> cols[i].primaryKey
    ensures |KeyNames(cols)| == |cols|
    ensures forall i :: 0 <= i < |cols| ==> KeyNames(cols)[i] == cols[i].name
  {
    if cols != [] {
      var init := cols[..|cols| - 1];
      KeyNamesAllKeys(init);
    }
  }

  // ---------------------------------------------------------------------------
  // Foreign keys: parent column to {referenced table: referenced column}.

  /** The single-entry map recorded for one foreign key. */
  function Link(fk: ForeignKey): (m: map<string, string>)
  {
    map[fk.refTable := fk.refColumn]
  }

  /** The parent-column names of `fks`. */
  function Parents(fks: seq<ForeignKey>): (parents: set<string>)
  {
    set fk | fk in fks :: fk.parent
  }

  /**
   * The foreign map built by assigning, for each foreign key in turn, its link
   * under its parent column: a later key with the same parent overwrites.
   */
  function ForeignLinks(fks: seq<ForeignKey>): (links: map<string, map<string, string>>)
    ensures forall p :: p in links ==> |links[p]| == 1
  {
    if fks == [] then map[]
    else
      var last := fks[|fks| - 1];
      ForeignLinks(fks[..|fks| - 1])[last.parent := Link(last)]
  }

  /** The foreign map is empty exactly when the table has no foreign keys. */
  lemma ForeignLinksEmpty(fks: seq<ForeignKey>)
    ensures ForeignLinks(fks) == map[] <==> fks == []
  {
    if fks != [] {
      assert fks[|fks| - 1].parent in ForeignLinks(fks);
    }
  }

  /** The keys of the foreign map are exactly the parent columns. */
  lemma {:induction false} ForeignLinksKeys(fks: seq<ForeignKey>)
    ensures ForeignLinks(fks).Keys == Parents(fks)
  {
    if fks != [] {
      var init, last := fks[..|fks| - 1], fks[|fks| - 1];
      ForeignLinksKeys(init);
      assert fks == init + [last];
      assert Parents(fks) == Parents(init) + {last.parent};
    }
  }

  /** The last foreign key with a given parent column decides that column's entry. */
  lemma {:induction false} ForeignLinksLastWins(fks: seq<ForeignKey>, j: nat)
    requires j < |fks|
    requires forall k :: j < k < |fks| ==> fks[k].parent != fks[j].parent
    ensures fks[j].parent in ForeignLinks(fks)
    ensures ForeignLinks(fks)[fks[j].parent] == Link(fks[j])
  {
    if j < |fks| - 1 {
      var init := fks[..|fks| - 1];
      ForeignLinksLastWins(init, j);
    }
  }

  /**
   * Conversely, every entry of the foreign map is the link of the last foreign
   * key with that parent column.
   */
  lemma ForeignLinksEntry(fks: seq<ForeignKey>, p: string)
    requires p in ForeignLinks(fks)
    ensures exists j :: (0 <= j < |fks| && fks[j].parent == p &&
                         (forall k :: j < k < |fks| ==> fks[k].parent != p) &&
                         ForeignLinks(fks)[p] == Link(fks[j]))
  {
    ForeignLinksKeys(fks);
    var j := LastWithParent(fks, p);
    ForeignLinksLastWins(fks, j);
  }

  /** The position of the last foreign key whose parent is `p`. */
  ghost function LastWithParent(fks: seq<ForeignKey>, p: string): (j: nat)
    requires p in Parents(fks)
    ensures j < |fks| && fks[j].parent == p
    ensures forall k :: j < k < |fks| ==> fks[k].parent != p
  {
    var last := fks[|fks| - 1];
    if last.parent == p then |fks| - 1
    else
      var init := fks[..|fks| - 1];
      assert fks == init + [last];
      LastWithParent(init, p)
  }

  /** Foreign keys that share a parent column agree on what it references. */
  ghost predicate ParentsAgree(fks: seq<ForeignKey>)
  {
    forall x, y :: x in fks && y in fks && x.parent == y.parent ==> x == y
  }

  /** When foreign keys sharing a column agree, each one's link is the entry. */
  lemma ForeignLinksAgreed(fks: seq<ForeignKey>, fk: ForeignKey)
    requires fk in fks && ParentsAgree(fks)
    ensures fk.parent in ForeignLinks(fks) && ForeignLinks(fks)[fk.parent] == Link(fk)
  {
    assert fk.parent in Parents(fks);
    var j := LastWithParent(fks, fk.parent);
    ForeignLinksLastWins(fks, j);
    assert fks[j] in fks;
  }

  /**
   * The library iterates its foreign keys as an unordered set. When no two of
   * them constrain the same column differently, every iteration order gives the
   * same foreign map.
   */
  lemma ForeignLinksOrderIndependent(a: seq<ForeignKey>, b: seq<ForeignKey>)
    requires multiset(a) == multiset(b)
    requires ParentsAgree(a)
    ensures ForeignLinks(a) == ForeignLinks(b)
  {
    SameMembers(a, b);
    var la, lb := ForeignLinks(a), ForeignLinks(b);
    ForeignLinksKeys(a);
    ForeignLinksKeys(b);
    assert Parents(a) == Parents(b);
    forall p | p in la ensures la[p] == lb[p] {
      var fk :| fk in a && fk.parent == p;
      ForeignLinksAgreed(a, fk);
      ForeignLinksAgreed(b, fk);
    }
  }

  /** Sequences with the same multiset have the same elements. */
  lemma SameMembers(a: seq<ForeignKey>, b: seq<ForeignKey>)
    requires multiset(a) == multiset(b)
    ensures forall fk :: fk in a <==> fk in b
  {
    forall fk ensures fk in a <==> fk in b {
      assert fk in a <==> fk in multiset(a);
      assert fk in b <==> fk in multiset(b);
    }
  }

  /**
   * When two foreign keys constrain the same column with different references,
   * the iteration order decides which one is kept.
   */
  lemma ForeignLinksOrderMatters(x: ForeignKey, y: ForeignKey)
    requires x.parent == y.parent && Link(x) != Link(y)
    ensures ForeignLinks([x, y]) != ForeignLinks([y, x])
  {
    ForeignLinksLastWins([x, y], 1);
    ForeignLinksLastWins([y, x], 1);
  }

  // ---------------------------------------------------------------------------
  // One table.

  /** The descriptor of one table. */
  function Describe(t: Table): (d: Descriptor)
  {
    Descriptor(KeyNames(t.columns), ForeignLinks(t.foreignKeys))
  }

  /** The result of extracting one table: a snapshot with that table alone. */
  function TableSnapshot(t: Table): (s: Snapshot)
  {
    map[t.name := Describe(t)]
  }

  /**
   * Extraction of one table, as the source does it: start from an entry with
   * empty lists, append each key column's name, then assign each foreign key's
   * link under its parent column.
   */
  method RelateTable(t: Table) returns (result: Snapshot)
    ensures result == TableSnapshot(t)
    ensures result.Keys == {t.name}
    ensures result[t.name].primary == KeyNames(t.columns)
    ensures result[t.name].foreign == ForeignLinks(t.foreignKeys)
  {
    result := map[t.name := Descriptor([], map[])];
    for i := 0 to |t.columns|
      invariant result == map[t.name := Descriptor(KeyNames(t.columns[..i]), map[])]
    {
      var column := t.columns[i];
      assert t.columns[..i + 1][..i] == t.columns[..i];
      assert KeyNames(t.columns[..i + 1]) ==
        KeyNames(t.columns[..i]) + (if column.primaryKey then [column.name] else []);
      if column.primaryKey {
        var entry := result[t.name];
        result := result[t.name := entry.(primary := entry.primary + [column.name])];
      } else {
        assert KeyNames(t.columns[..i + 1]) == KeyNames(t.columns[..i]);
      }
    }
    assert t.columns[..|t.columns|] == t.columns;
    for i := 0 to |t.foreignKeys|
      invariant result == map[t.name := Descriptor(KeyNames(t.columns), ForeignLinks(t.foreignKeys[..i]))]
    {
      var fk := t.foreignKeys[i];
      assert t.foreignKeys[..i + 1][..i] == t.foreignKeys[..i];
      var entry := result[t.name];
      result := result[t.name := entry.(foreign := entry.foreign[fk.parent := map[fk.refTable := fk.refColumn]])];
    }
    assert t.foreignKeys[..|t.foreignKeys|] == t.foreignKeys;
  }

  // ---------------------------------------------------------------------------
  // Merging: left to right, a later snapshot's entry overwrites an earlier one.

  /** The dictionary merge applied to the per-table results: later entries win. */
  function Merge(ds: seq<Snapshot>): (m: Snapshot)
    ensures forall i, k :: 0 <= i < |ds| && k in ds[i] ==> k in m
  {
    if ds == [] then map[]
    else Merge(ds[..|ds| - 1]) + ds[|ds| - 1]
  }

  /** The merged keys are the union of all keys. */
  lemma {:induction false} MergeKeys(ds: seq<Snapshot>)
    ensures Merge(ds).Keys == set i, k | 0 <= i < |ds| && k in ds[i] :: k
  {
    if ds != [] {
      var init := ds[..|ds| - 1];
      MergeKeys(init);
      assert forall i :: 0 <= i < |init| ==> init[i] == ds[i];
    }
  }

  /** The last snapshot holding a key decides the merged entry for it. */
  lemma {:induction false} MergeLastWins(ds: seq<Snapshot>, j: nat, k: string)
    requires j < |ds| && k in ds[j]
    requires forall l :: j < l < |ds| ==> k !in ds[l]
    ensures k in Merge(ds) && Merge(ds)[k] == ds[j][k]
  {
    if j < |ds| - 1 {
      MergeLastWins(ds[..|ds| - 1], j, k);
    }
  }

  /** The per-table results, in table order. */
  function TableSnapshots(ts: seq<Table>): (ds: seq<Snapshot>)
  {
    seq(|ts|, i requires 0 <= i < |ts| => TableSnapshot(ts[i]))
  }

  // ---------------------------------------------------------------------------
  // The whole schema.

  /**
   * Extraction of a whole schema: fails when the metadata is not bound (checked
   * first) or has no tables; otherwise merges the per-table results in sorted
   * table order.
   */
  function RelateMetaData(md: MetaData): (r: Result<Snapshot>)
    ensures !md.bound ==> r == Err(NotBound)
    ensures md.bound && md.sortedTables == [] ==> r == Err(NoTablesFound)
    ensures r.Ok? <==> md.bound && md.sortedTables != []
  {
    if !md.bound then Err(NotBound)
    else if md.sortedTables == [] then Err(NoTablesFound)
    else Ok(Merge(TableSnapshots(md.sortedTables)))
  }

  /** On success, the snapshot's keys are exactly the table names. */
  lemma RelateMetaDataKeys(md: MetaData)
    requires RelateMetaData(md).Ok?
    ensures RelateMetaData(md).value.Keys == TableNames(md.sortedTables)
  {
    var ts := md.sortedTables;
    var ds := TableSnapshots(ts);
    MergeKeys(ds);
    forall n | n in TableNames(ts) ensures n in Merge(ds) {
      var t :| t in ts && t.name == n;
      var i :| 0 <= i < |ts| && ts[i] == t;
      assert n in ds[i];
    }
  }

  /**
   * On success, each name's entry is the descriptor of the last table with that
   * name in sorted order: a repeated name silently overwrites.
   */
  lemma RelateMetaDataLastWins(md: MetaData, j: nat)
    requires RelateMetaData(md).Ok?
    requires j < |md.sortedTables|
    requires forall l :: j < l < |md.sortedTables| ==> md.sortedTables[l].name != md.sortedTables[j].name
    ensures md.sortedTables[j].name in RelateMetaData(md).value
    ensures RelateMetaData(md).value[md.sortedTables[j].name] == Describe(md.sortedTables[j])
  {
    var ts := md.sortedTables;
    MergeLastWins(TableSnapshots(ts), j, ts[j].name);
  }

  /** Table names are pairwise distinct. */
  ghost predicate UniqueNames(ts: seq<Table>)
  {
    forall i, j :: 0 <= i < j < |ts| ==> ts[i].name != ts[j].name
  }

  /**
   * With distinct names, the merged snapshot holds every table's own
   * single-table result unchanged, and nothing else.
   */
  lemma RelateMetaDataUnique(md: MetaData)
    requires md.bound && md.sortedTables != []
    requires UniqueNames(md.sortedTables)
    ensures RelateMetaData(md).Ok?
    ensures RelateMetaData(md).value.Keys == TableNames(md.sortedTables)
    ensures forall i :: 0 <= i < |md.sortedTables| ==>
      var t := md.sortedTables[i];
      t.name in RelateMetaData(md).value && RelateMetaData(md).value[t.name] == TableSnapshot(t)[t.name]
  {
    RelateMetaDataKeys(md);
    var ts := md.sortedTables;
    forall i | 0 <= i < |ts|
      ensures ts[i].name in RelateMetaData(md).value
      ensures RelateMetaData(md).value[ts[i].name] == TableSnapshot(ts[i])[ts[i].name]
    {
      RelateMetaDataLastWins(md, i);
    }
  }

  // ---------------------------------------------------------------------------
  // A live engine.

  /**
   * Extraction through an engine: reflection (database I/O, not modelled)
   * yields the tables `reflected`; the metadata is created bound to the
   * engine, so the only possible failure is that no tables were found.
   */
  function RelateEngine(reflected: seq<Table>): (r: Result<Snapshot>)
    ensures r.Err? <==> reflected == []
    ensures r.Err? ==> r.error == NoTablesFound
    ensures r.Ok? ==> r.value == Merge(TableSnapshots(reflected))
  {
    RelateMetaData(MetaData(true, reflected))
  }
}
