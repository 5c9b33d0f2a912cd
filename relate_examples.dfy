/**
 * The expectations of the repository's tests on a TPC-H style schema, as
 * lemmas about the model. Each table lists its key and foreign-key columns
 * plus one or two illustrative non-key columns ("name", "supplycost",
 * "quantity"); the real tables' other columns are not given, and a column
 * without the key flag does not reach the result.
 */
module RelateExamples {
  import opened Schema
  import opened Relate

  function Key(name: string): (c: Column) { Column(name, true) }
  function Plain(name: string): (c: Column) { Column(name, false) }
  function Ref(parent: string, table: string): (fk: ForeignKey) { ForeignKey(parent, table, "id") }

  const Region := Table("region", [Key("id"), Plain("name")], [])
  const Nation := Table("nation", [Key("id"), Plain("name"), Plain("region_id")], [Ref("region_id", "region")])
  const Customer := Table("customer", [Key("id"), Plain("name"), Plain("nation_id")], [Ref("nation_id", "nation")])
  const Part := Table("part", [Key("id"), Plain("name")], [])
  const Supplier := Table("supplier", [Key("id"), Plain("name"), Plain("nation_id")], [Ref("nation_id", "nation")])
  const Orders := Table("orders", [Key("id"), Plain("customer_id")], [Ref("customer_id", "customer")])
  const PartSupp := Table("partsupp", [Key("part_id"), Key("supplier_id"), Plain("supplycost")],
                          [Ref("part_id", "part"), Ref("supplier_id", "supplier")])
  const LineItem := Table("lineitem",
                          [Key("order_id"), Key("part_id"), Key("supplier_id"), Key("line_number"), Plain("quantity")],
                          [Ref("order_id", "orders"), Ref("part_id", "part"), Ref("supplier_id", "supplier")])

  /** The tables in dependency order: referenced tables before referencing ones. */
  const Tpc := [Region, Nation, Customer, Part, Supplier, Orders, PartSupp, LineItem]

  // The descriptors the tests expect, table by table.
  const ExpectedCustomer := Descriptor(["id"], map["nation_id" := map["nation" := "id"]])
  const ExpectedLineItem := Descriptor(["order_id", "part_id", "supplier_id", "line_number"],
                                       map["order_id" := map["orders" := "id"],
                                           "part_id" := map["part" := "id"],
                                           "supplier_id" := map["supplier" := "id"]])
  const ExpectedNation := Descriptor(["id"], map["region_id" := map["region" := "id"]])
  const ExpectedOrders := Descriptor(["id"], map["customer_id" := map["customer" := "id"]])
  const ExpectedPart := Descriptor(["id"], map[])
  const ExpectedPartSupp := Descriptor(["part_id", "supplier_id"],
                                       map["part_id" := map["part" := "id"],
                                           "supplier_id" := map["supplier" := "id"]])
  const ExpectedRegion := Descriptor(["id"], map[])
  const ExpectedSupplier := Descriptor(["id"], map["nation_id" := map["nation" := "id"]])

  /** The whole-schema snapshot the tests expect. */
  const Expected: Snapshot := map[
    "customer" := ExpectedCustomer, "lineitem" := ExpectedLineItem, "nation" := ExpectedNation,
    "orders" := ExpectedOrders, "part" := ExpectedPart, "partsupp" := ExpectedPartSupp,
    "region" := ExpectedRegion, "supplier" := ExpectedSupplier]

  /** The single-table case on the customer table. */
  lemma CustomerExample()
    ensures TableSnapshot(Customer) == map["customer" := ExpectedCustomer]
  {
    assert Customer.columns[..1] == [Key("id")];
    assert Customer.columns[..2][..1] == Customer.columns[..1];
    assert KeyNames(Customer.columns[..2]) == ["id"];
    assert Customer.columns[..3] == Customer.columns;
    assert Describe(Customer).primary == ["id"];
  }

  /** The single-table case on the customer table, through the extracting method itself. */
  method CustomerRelateExample() returns (r: Snapshot)
    ensures r == map["customer" := ExpectedCustomer]
  {
    r := RelateTable(Customer);
    CustomerExample();
  }

  /** The composite key keeps its declared column order. */
  lemma LineItemExample()
    ensures Describe(LineItem) == ExpectedLineItem
  {
    KeyNamesAllKeys(LineItem.columns[..4]);
    assert LineItem.columns[..5][..4] == LineItem.columns[..4];
    assert Describe(LineItem).primary == ExpectedLineItem.primary;
    var fks := LineItem.foreignKeys;
    assert fks[..1] == [Ref("order_id", "orders")];
    assert ForeignLinks(fks[..1]) == map["order_id" := map["orders" := "id"]];
    assert fks[..2][..1] == fks[..1];
    assert ForeignLinks(fks[..2]) == map["order_id" := map["orders" := "id"], "part_id" := map["part" := "id"]];
    assert fks[..3] == fks;
  }

  /** A table without foreign keys yields an empty foreign map. */
  lemma PartExample()
    ensures Describe(Part) == ExpectedPart
  {
    assert Part.columns[..1] == [Key("id")];
  }

  lemma RegionExample()
    ensures Describe(Region) == ExpectedRegion
  {
    assert Region.columns[..1] == [Key("id")];
  }

  lemma NationExample()
    ensures Describe(Nation) == ExpectedNation
  {
    assert Nation.columns[..1] == [Key("id")];
    assert Nation.columns[..2][..1] == Nation.columns[..1];
    assert KeyNames(Nation.columns[..2]) == ["id"];
    assert Nation.columns[..3] == Nation.columns;
    assert Describe(Nation).primary == ["id"];
  }

  lemma SupplierExample()
    ensures Describe(Supplier) == ExpectedSupplier
  {
    assert Supplier.columns[..1] == [Key("id")];
    assert Supplier.columns[..2][..1] == Supplier.columns[..1];
    assert KeyNames(Supplier.columns[..2]) == ["id"];
    assert Supplier.columns[..3] == Supplier.columns;
    assert Describe(Supplier).primary == ["id"];
  }

  lemma OrdersExample()
    ensures Describe(Orders) == ExpectedOrders
  {
    assert Orders.columns[..1] == [Key("id")];
  }

  lemma PartSuppExample()
    ensures Describe(PartSupp) == ExpectedPartSupp
  {
    KeyNamesAllKeys(PartSupp.columns[..2]);
    assert PartSupp.columns[..3][..2] == PartSupp.columns[..2];
    assert Describe(PartSupp).primary == ["part_id", "supplier_id"];
    assert PartSupp.foreignKeys[..1] == [Ref("part_id", "part")];
    assert ForeignLinks(PartSupp.foreignKeys[..1]) == map["part_id" := map["part" := "id"]];
  }

  /** In the whole-schema result, table `j` has its own descriptor. */
  lemma TpcEntry(md: MetaData, j: nat)
    requires md == MetaData(true, Tpc) && j < |Tpc|
    ensures RelateMetaData(md).Ok?
    ensures Tpc[j].name in RelateMetaData(md).value
    ensures RelateMetaData(md).value[Tpc[j].name] == Describe(Tpc[j])
  {
    assert UniqueNames(Tpc);
    RelateMetaDataLastWins(md, j);
  }

  /** A snapshot with the expected names and the expected entries is the expected one. */
  lemma ExpectedByEntries(got: Snapshot)
    requires got.Keys == Expected.Keys
    requires got["customer"] == ExpectedCustomer && got["lineitem"] == ExpectedLineItem
    requires got["nation"] == ExpectedNation && got["orders"] == ExpectedOrders
    requires got["part"] == ExpectedPart && got["partsupp"] == ExpectedPartSupp
    requires got["region"] == ExpectedRegion && got["supplier"] == ExpectedSupplier
    ensures got == Expected
  {
    forall n | n in got ensures got[n] == Expected[n] {
      assert n in Expected.Keys;
    }
  }

  /** The entries of region and nation in the whole-schema result. */
  lemma TpcRegionAndNation(md: MetaData)
    requires md == MetaData(true, Tpc)
    ensures RelateMetaData(md).Ok?
    ensures "region" in RelateMetaData(md).value && RelateMetaData(md).value["region"] == ExpectedRegion
    ensures "nation" in RelateMetaData(md).value && RelateMetaData(md).value["nation"] == ExpectedNation
  {
    assert RelateMetaData(md).value["region"] == ExpectedRegion by { RegionExample(); TpcEntry(md, 0); }
    assert RelateMetaData(md).value["nation"] == ExpectedNation by { NationExample(); TpcEntry(md, 1); }
    TpcEntry(md, 0);
  }

  /** The entries of customer and part in the whole-schema result. */
  lemma TpcCustomerAndPart(md: MetaData)
    requires md == MetaData(true, Tpc)
    ensures RelateMetaData(md).Ok?
    ensures "customer" in RelateMetaData(md).value && RelateMetaData(md).value["customer"] == ExpectedCustomer
    ensures "part" in RelateMetaData(md).value && RelateMetaData(md).value["part"] == ExpectedPart
  {
    assert RelateMetaData(md).value["customer"] == ExpectedCustomer by { CustomerExample(); TpcEntry(md, 2); }
    assert RelateMetaData(md).value["part"] == ExpectedPart by { PartExample(); TpcEntry(md, 3); }
    TpcEntry(md, 0);
  }

  /** The entries of supplier and orders in the whole-schema result. */
  lemma TpcSupplierAndOrders(md: MetaData)
    requires md == MetaData(true, Tpc)
    ensures RelateMetaData(md).Ok?
    ensures "supplier" in RelateMetaData(md).value && RelateMetaData(md).value["supplier"] == ExpectedSupplier
    ensures "orders" in RelateMetaData(md).value && RelateMetaData(md).value["orders"] == ExpectedOrders
  {
    assert RelateMetaData(md).value["supplier"] == ExpectedSupplier by { SupplierExample(); TpcEntry(md, 4); }
    assert RelateMetaData(md).value["orders"] == ExpectedOrders by { OrdersExample(); TpcEntry(md, 5); }
    TpcEntry(md, 0);
  }

  /** The entries of partsupp and lineitem in the whole-schema result. */
  lemma TpcPartSuppAndLineItem(md: MetaData)
    requires md == MetaData(true, Tpc)
    ensures RelateMetaData(md).Ok?
    ensures "partsupp" in RelateMetaData(md).value && RelateMetaData(md).value["partsupp"] == ExpectedPartSupp
    ensures "lineitem" in RelateMetaData(md).value && RelateMetaData(md).value["lineitem"] == ExpectedLineItem
  {
    assert RelateMetaData(md).value["partsupp"] == ExpectedPartSupp by { PartSuppExample(); TpcEntry(md, 6); }
    assert RelateMetaData(md).value["lineitem"] == ExpectedLineItem by { LineItemExample(); TpcEntry(md, 7); }
    TpcEntry(md, 0);
  }

  /** The table names of the schema are the expected ones. */
  lemma TpcKeys(md: MetaData)
    requires md == MetaData(true, Tpc)
    ensures RelateMetaData(md).Ok? && RelateMetaData(md).value.Keys == Expected.Keys
  {
    RelateMetaDataKeys(md);
    TpcNames(md.sortedTables);
  }

  lemma TpcNames(ts: seq<Table>)
    requires ts == Tpc
    ensures TableNames(ts) == Expected.Keys
  {
    forall n | n in TableNames(ts) ensures n in Expected.Keys {
      var t :| t in ts && t.name == n;
      var i :| 0 <= i < |ts| && ts[i] == t;
    }
    forall n | n in Expected.Keys ensures n in TableNames(ts) {
      var i: nat :| i < |ts| && ts[i].name == n by {
        assert ts[0].name == "region" && ts[1].name == "nation" && ts[2].name == "customer";
        assert ts[3].name == "part" && ts[4].name == "supplier" && ts[5].name == "orders";
        assert ts[6].name == "partsupp" && ts[7].name == "lineitem";
      }
      assert ts[i] in ts;
    }
  }

  /** The whole-schema case reached through an engine reflecting the TPC tables. */
  lemma TpcExample(reflected: seq<Table>)
    requires reflected == Tpc
    ensures RelateEngine(reflected) == Ok(Expected)
  {
    var md := MetaData(true, reflected);
    TpcRegionAndNation(md);
    TpcCustomerAndPart(md);
    TpcSupplierAndOrders(md);
    TpcPartSuppAndLineItem(md);
    TpcKeys(md);
    ExpectedByEntries(RelateMetaData(md).value);
  }
}
