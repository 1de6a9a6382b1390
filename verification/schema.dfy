/**
 The database schema of the dump: the five item/recipe tables and the separate worlds
 table, their columns as the CREATE TABLE statements declare them, the foreign keys
 (`REFERENCES` clauses) between them, and the fixed orders in which `CreateAllTables`
 and `DeleteAllTables` issue their DDL.

 The DDL is executed against an abstract schema state, the set of tables that exist,
 with the rules the database applies: `CREATE TABLE IF NOT EXISTS` is a no-op for an
 existing table and fails when a referenced table is missing; `DROP TABLE` fails for a
 missing table and for a table another existing table still references.
 */
module Schema {
  import opened Wrappers

  datatype Table = Items | ItemOrigins | ItemEquipmentTypes | Recipes | RecipeIngredients | Worlds

  /** The SQL name of each table. */
  function TableName(t: Table): string {
    match t
    case Items => "items"
    case ItemOrigins => "item_origins"
    case ItemEquipmentTypes => "item_equipment_types"
    case Recipes => "recipes"
    case RecipeIngredients => "recipe_ingredients"
    case Worlds => "worlds"
  }

  /** The table a SQL name denotes, if any. */
  function TableNamed(name: string): (r: Option<Table>)
    ensures r.Some? ==> TableName(r.value) == name
  {
    if name == "items" then Some(Items)
    else if name == "item_origins" then Some(ItemOrigins)
    else if name == "item_equipment_types" then Some(ItemEquipmentTypes)
    else if name == "recipes" then Some(Recipes)
    else if name == "recipe_ingredients" then Some(RecipeIngredients)
    else if name == "worlds" then Some(Worlds)
    else None
  }

  /** Distinct tables have distinct names: a name identifies its table. */
  lemma TableNameRoundTrip(t: Table)
    ensures TableNamed(TableName(t)) == Some(t)
  {
  }

  datatype SqlType = Integer | Text | Boolean

  /** A column; `notNull` holds for `NOT NULL` columns and for primary-key columns. */
  datatype Column = Column(name: string, sqlType: SqlType, notNull: bool)

  /** The columns of each table, in declaration order (which is the order of the
      positional parameters of an insert into it). */
  function Columns(t: Table): seq<Column> {
    match t
    case Items => [
      Column("item_id", Integer, true),
      Column("type", Text, true),
      Column("name", Text, true),
      Column("item_level", Integer, false),
      Column("special_currency_item_id", Integer, false),
      Column("special_currency_count", Integer, false),
      Column("high_qualityable", Boolean, true),
      Column("marketable", Boolean, true),
      Column("gil_price", Integer, false),
      Column("class_job_restriction", Text, false)
    ]
    case ItemOrigins => [
      Column("item_id", Integer, true),
      Column("origin", Text, true)
    ]
    case ItemEquipmentTypes => [
      Column("item_id", Integer, true),
      Column("equipment_type", Text, true)
    ]
    case Recipes => [
      Column("recipe_id", Integer, true),
      Column("crafted_item_id", Integer, false),
      Column("crafted_item_count", Integer, true)
    ]
    case RecipeIngredients => [
      Column("recipe_id", Integer, true),
      Column("ingredient_id", Integer, true),
      Column("quantity", Integer, true)
    ]
    case Worlds => [
      Column("world_id", Integer, true),
      Column("name", Text, true),
      Column("datacenter", Text, true),
      Column("is_public", Boolean, true)
    ]
  }

  /** The tables a table's foreign keys reference. */
  function References(t: Table): set<Table> {
    match t
    case Items => {}
    case ItemOrigins => {Items}
    case ItemEquipmentTypes => {Items}
    case Recipes => {Items}
    case RecipeIngredients => {Recipes, Items}
    case Worlds => {}
  }

  /** The five tables `CreateAllTables` and `DeleteAllTables` manage. */
  const CoreTables: set<Table> := {Items, ItemOrigins, ItemEquipmentTypes, Recipes, RecipeIngredients}

  const CreateAllOrder: seq<Table> := [Items, ItemOrigins, ItemEquipmentTypes, Recipes, RecipeIngredients]

  const DeleteAllOrder: seq<Table> := [ItemOrigins, ItemEquipmentTypes, RecipeIngredients, Recipes, Items]

  // ---------------------------------------------------------------------------
  // Order properties
  // ---------------------------------------------------------------------------

  function Elems(order: seq<Table>): set<Table> {
    set t | t in order
  }

  predicate NoDuplicates(order: seq<Table>) {
    forall i, j :: 0 <= i < j < |order| ==> order[i] != order[j]
  }

  /** Every table comes after every table it references. */
  predicate CreatesAfterReferences(order: seq<Table>) {
    forall i, j :: 0 <= i < |order| && 0 <= j < |order| && order[j] in References(order[i]) ==> j < i
  }

  /** Every table comes before every table it references. */
  predicate DropsBeforeReferenced(order: seq<Table>) {
    forall i, j :: 0 <= i < |order| && 0 <= j < |order| && order[j] in References(order[i]) ==> i < j
  }

  /** The create order and the delete order both respect the foreign keys, and both
      cover exactly the five core tables once each. */
  lemma FixedOrdersRespectReferences()
    ensures CreatesAfterReferences(CreateAllOrder)
    ensures DropsBeforeReferenced(DeleteAllOrder)
    ensures NoDuplicates(CreateAllOrder) && Elems(CreateAllOrder) == CoreTables
    ensures NoDuplicates(DeleteAllOrder) && Elems(DeleteAllOrder) == CoreTables
  {
    assert Elems(CreateAllOrder) == CoreTables by {
      assert forall t :: t in CreateAllOrder <==> t in CoreTables;
    }
    assert Elems(DeleteAllOrder) == CoreTables by {
      assert forall t :: t in DeleteAllOrder <==> t in CoreTables;
    }
  }

  // ---------------------------------------------------------------------------
  // DDL against a schema state
  // ---------------------------------------------------------------------------

  datatype DdlError =
    | MissingReferencedTable(table: Table)
    | NoSuchTable(table: Table)
    | HasDependents(table: Table)

  /** `CREATE TABLE IF NOT EXISTS t (...)`. */
  function CreateTable(s: set<Table>, t: Table): (r: Result<set<Table>, DdlError>)
    ensures r.Success? <==> t in s || References(t) <= s
    ensures r.Success? ==> r.value == s + {t}
  {
    if t in s then Success(s)
    else if References(t) <= s then Success(s + {t})
    else Failure(MissingReferencedTable(t))
  }

  /** `DROP TABLE t;` (no `IF EXISTS`, no `CASCADE`). */
  function DropTable(s: set<Table>, t: Table): (r: Result<set<Table>, DdlError>)
    ensures r.Success? <==> t in s && forall u :: u in s && u != t ==> t !in References(u)
    ensures r.Success? ==> r.value == s - {t}
  {
    if t !in s then Failure(NoSuchTable(t))
    else if exists u :: u in s && u != t && t in References(u) then Failure(HasDependents(t))
    else Success(s - {t})
  }

  /** Statements executed one after another; the first failure aborts the rest. */
  function RunCreates(s: set<Table>, order: seq<Table>): Result<set<Table>, DdlError>
    decreases |order|
  {
    if |order| == 0 then Success(s)
    else match CreateTable(s, order[0])
      case Failure(e) => Failure(e)
      case Success(s') => RunCreates(s', order[1..])
  }

  function RunDrops(s: set<Table>, order: seq<Table>): Result<set<Table>, DdlError>
    decreases |order|
  {
    if |order| == 0 then Success(s)
    else match DropTable(s, order[0])
      case Failure(e) => Failure(e)
      case Success(s') => RunDrops(s', order[1..])
  }

  /** `CreateAllTables` succeeds from every schema state and adds the five core tables
      and nothing else; so running it again changes nothing. */
  function CreateAllTables(s: set<Table>): (r: Result<set<Table>, DdlError>)
    ensures r == Success(s + CoreTables)
  {
    FixedOrdersRespectReferences();
    RunCreatesSucceeds(s, CreateAllOrder);
    RunCreates(s, CreateAllOrder)
  }

  /** `DeleteAllTables` succeeds exactly when all five core tables exist, and then
      removes exactly those, leaving the worlds table as it was. */
  function DeleteAllTables(s: set<Table>): (r: Result<set<Table>, DdlError>)
    ensures r.Success? <==> CoreTables <= s
    ensures r.Success? ==> r.value == s - CoreTables
  {
    if CoreTables <= s then
      DeleteAllOrderSucceeds(s);
      RunDrops(s, DeleteAllOrder)
    else
      DeleteAllOrderNeedsAllTables(s);
      RunDrops(s, DeleteAllOrder)
  }

  /** `CreateWorldsTable`: the worlds table has no foreign keys, so this never fails and
      is a no-op when the table exists. */
  function CreateWorldsTable(s: set<Table>): (r: Result<set<Table>, DdlError>)
    ensures r == Success(s + {Worlds})
  {
    CreateTable(s, Worlds)
  }

  /** A create sequence in which every reference points to an existing or an earlier
      table succeeds and adds exactly its tables. */
  lemma {:induction false} RunCreatesSucceeds(s: set<Table>, order: seq<Table>)
    requires CreatesAfterReferences(order)
    requires forall i, r :: 0 <= i < |order| && r in References(order[i]) ==> r in s || r in order
    ensures RunCreates(s, order) == Success(s + Elems(order))
    decreases |order|
  {
    if |order| > 0 {
      var t := order[0];
      assert References(t) <= s by {
        forall r | r in References(t) ensures r in s {
          forall j | 0 <= j < |order| ensures order[j] != r {
          }
        }
      }
      var s' := s + {t};
      var rest := order[1..];
      forall i, j | 0 <= i < |rest| && 0 <= j < |rest| && rest[j] in References(rest[i])
        ensures j < i
      {
        assert order[j + 1] in References(order[i + 1]);
      }
      forall i, r | 0 <= i < |rest| && r in References(rest[i])
        ensures r in s' || r in rest
      {
        assert r in References(order[i + 1]);
        if r !in s {
          var j :| 0 <= j < |order| && order[j] == r;
          assert j < i + 1;
          if j > 0 {
            assert rest[j - 1] == r;
          }
        }
      }
      assert CreateTable(s, t) == Success(s');
      assert RunCreates(s, order) == RunCreates(s', rest);
      RunCreatesSucceeds(s', rest);
      assert s' + Elems(rest) == s + Elems(order) by {
        assert order == [t] + rest;
        assert forall u :: u in order <==> u == t || u in rest;
      }
    } else {
      assert Elems(order) == {};
      assert s + Elems(order) == s - Elems(order) == s;
    }
  }

  /** A create sequence of new tables succeeds only if it creates every table after the
      tables it references. */
  lemma {:induction false} RunCreatesSuccessIsOrdered(s: set<Table>, order: seq<Table>)
    requires NoDuplicates(order)
    requires forall i :: 0 <= i < |order| ==> order[i] !in s
    requires RunCreates(s, order).Success?
    ensures CreatesAfterReferences(order)
    decreases |order|
  {
    if |order| > 0 {
      var t := order[0];
      var s' := s + {t};
      var rest := order[1..];
      assert References(t) <= s;
      forall i | 0 <= i < |rest| ensures rest[i] !in s' {
        assert order[0] != order[i + 1];
      }
      RunCreatesSuccessIsOrdered(s', rest);
      forall i, j | 0 <= i < |order| && 0 <= j < |order| && order[j] in References(order[i])
        ensures j < i
      {
        if i == 0 {
          assert false;
        } else if j > 0 {
          assert rest[j - 1] in References(rest[i - 1]);
        }
      }
    }
  }

  /** A drop sequence over existing tables that drops every table before the tables it
      references, and whose tables no other remaining table references, succeeds and
      removes exactly its tables. */
  lemma {:induction false} RunDropsSucceeds(s: set<Table>, order: seq<Table>)
    requires NoDuplicates(order)
    requires DropsBeforeReferenced(order)
    requires Elems(order) <= s
    requires forall u, i :: u in s && 0 <= i < |order| && u != order[i] && order[i] in References(u) ==> u in order
    ensures RunDrops(s, order) == Success(s - Elems(order))
    decreases |order|
  {
    if |order| > 0 {
      var t := order[0];
      assert t in Elems(order);
      forall u | u in s && u != t ensures t !in References(u) {
      }
      var s' := s - {t};
      var rest := order[1..];
      forall i, j | 0 <= i < |rest| && 0 <= j < |rest| && rest[j] in References(rest[i])
        ensures i < j
      {
        assert order[j + 1] in References(order[i + 1]);
      }
      forall u | u in Elems(rest) ensures u in s' {
        var k :| 0 <= k < |rest| && rest[k] == u;
        assert order[k + 1] == u && order[0] != order[k + 1];
        assert u in Elems(order);
      }
      forall u, i | u in s' && 0 <= i < |rest| && u != rest[i] && rest[i] in References(u)
        ensures u in rest
      {
        assert order[i + 1] == rest[i];
        assert u in order;
        var j :| 0 <= j < |order| && order[j] == u;
        assert j != 0;
        assert rest[j - 1] == u;
      }
      assert DropTable(s, t) == Success(s');
      assert RunDrops(s, order) == RunDrops(s', rest);
      RunDropsSucceeds(s', rest);
      assert s' - Elems(rest) == s - Elems(order) by {
        assert forall u :: u in order <==> u == t || u in rest;
      }
    } else {
      assert Elems(order) == {};
      assert s + Elems(order) == s - Elems(order) == s;
    }
  }

  /** A drop sequence that succeeds drops every table before the tables it references. */
  lemma {:induction false} RunDropsSuccessIsOrdered(s: set<Table>, order: seq<Table>)
    requires NoDuplicates(order)
    requires RunDrops(s, order).Success?
    ensures Elems(order) <= s
    ensures DropsBeforeReferenced(order)
    decreases |order|
  {
    if |order| > 0 {
      var t := order[0];
      var s' := s - {t};
      var rest := order[1..];
      assert t in s;
      RunDropsSuccessIsOrdered(s', rest);
      forall u | u in Elems(order) ensures u in s {
        if u != t {
          var k :| 0 <= k < |order| && order[k] == u;
          assert rest[k - 1] == u;
          assert u in Elems(rest);
        }
      }
      forall i, j | 0 <= i < |order| && 0 <= j < |order| && order[j] in References(order[i])
        ensures i < j
      {
        if j == 0 {
          assert false;
        } else if i > 0 {
          assert rest[j - 1] in References(rest[i - 1]);
        }
      }
    }
  }

  /** With every core table present, the delete order succeeds and removes exactly the
      core tables. */
  lemma DeleteAllOrderSucceeds(s: set<Table>)
    requires CoreTables <= s
    ensures RunDrops(s, DeleteAllOrder) == Success(s - CoreTables)
  {
    FixedOrdersRespectReferences();
    forall u, i | u in s && 0 <= i < |DeleteAllOrder| && u != DeleteAllOrder[i] && DeleteAllOrder[i] in References(u)
      ensures u in DeleteAllOrder
    {
      assert u != Worlds;
      assert u in CoreTables;
    }
    RunDropsSucceeds(s, DeleteAllOrder);
  }

  /** The delete order fails when any core table is missing: `DROP TABLE` has no
      `IF EXISTS`. */
  lemma DeleteAllOrderNeedsAllTables(s: set<Table>)
    requires !(CoreTables <= s)
    ensures RunDrops(s, DeleteAllOrder).Failure?
  {
    FixedOrdersRespectReferences();
    if RunDrops(s, DeleteAllOrder).Success? {
      RunDropsSuccessIsOrdered(s, DeleteAllOrder);
      assert false;
    }
  }

  /** Over the full set of core tables, a drop order of the five tables succeeds if and
      only if it drops every table before the tables it references; dropping `items`
      first, for one, fails. */
  lemma DropOrderMatters(order: seq<Table>)
    requires NoDuplicates(order) && Elems(order) == CoreTables
    ensures RunDrops(CoreTables, order).Success? <==> DropsBeforeReferenced(order)
  {
    if DropsBeforeReferenced(order) {
      forall u, i | u in CoreTables && 0 <= i < |order| && u != order[i] && order[i] in References(u)
        ensures u in order
      {
        assert u in Elems(order);
      }
      RunDropsSucceeds(CoreTables, order);
    }
    if RunDrops(CoreTables, order).Success? {
      RunDropsSuccessIsOrdered(CoreTables, order);
    }
  }

  /** From an empty schema, a create order of the five tables succeeds if and only if it
      creates every table after the tables it references. */
  lemma CreateOrderMatters(order: seq<Table>)
    requires NoDuplicates(order) && Elems(order) == CoreTables
    ensures RunCreates({}, order).Success? <==> CreatesAfterReferences(order)
  {
    if CreatesAfterReferences(order) {
      forall i, r | 0 <= i < |order| && r in References(order[i]) ensures r in order {
        assert order[i] in Elems(order);
        assert r in Elems(order);
      }
      RunCreatesSucceeds({}, order);
    }
    if RunCreates({}, order).Success? {
      RunCreatesSuccessIsOrdered({}, order);
    }
  }
}
