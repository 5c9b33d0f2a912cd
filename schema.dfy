/**
 * The reflected schema metadata that the extractor consumes, as plain values.
 * Reflection itself (how columns, foreign keys and the dependency order of the
 * tables are discovered) happens in the database library and is not modelled:
 * its outcome is given here as sequences, in the order the library iterates them.
 */
module Schema {

  /** A reflected column: its name and whether it is part of the primary key. */
  datatype Column = Column(name: string, primaryKey: bool)

  /**
   * One foreign-key element of a table: the constrained column of the owning
   * table (its "parent") and the column it references, named by the referenced
   * table's name and the referenced column's name.
   */
  datatype ForeignKey = ForeignKey(parent: string, refTable: string, refColumn: string)

  /**
   * A reflected table: its name, its columns in declared order, and its foreign
   * keys in the (unspecified) order in which the library's set of foreign keys
   * happens to be iterated.
   */
  datatype Table = Table(name: string, columns: seq<Column>, foreignKeys: seq<ForeignKey>)

  /**
   * Schema metadata: whether it is bound to an engine, and its tables in
   * dependency-sorted order. The library's table collection and its sorted
   * list hold the same tables, so one sequence stands for both. Two tables of
   * different database schemas may share a name.
   */
  datatype MetaData = MetaData(bound: bool, sortedTables: seq<Table>)

  /** The set of names of the given tables. */
  function TableNames(ts: seq<Table>): (names: set<string>)
  {
    set t | t in ts :: t.name
  }
}
