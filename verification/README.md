# CoinachSQLDump core, modelled in Dafny

CoinachSQLDump reads items, recipes and worlds from the game data and writes them into
a PostgreSQL database. This project models the pure logic inside it:

- **SQL text** (`sql_text.dfy`, module `SqlText`). `buildParameterSQLInsert` builds
  `INSERT INTO t VALUES ($1, ..., $n);`. It is modelled as a method that follows the
  string-builder loop, proved equal to a reference definition. A reader parses the
  text back and recovers the placeholder numbers.
- **Schema** (`schema.dfy`, module `Schema`). This covers the six tables, their columns
  as the `CREATE TABLE` statements declare them, and the `REFERENCES` clauses as a
  relation between tables. It also covers the fixed statement orders of
  `CreateAllTables` and `DeleteAllTables`. The DDL runs against an abstract schema
  state: the set of tables that exist. `CREATE TABLE IF NOT EXISTS` does nothing when
  the table is already there, and fails when a table it references is missing. `DROP
  TABLE` fails when the table is missing, and when another existing table still
  references it.
- **Bulk loader** (`loader.dfy`, module `Loader`). This covers the entry records, the
  positional parameter lists with the sentinel-to-NULL rule, and the statements that
  one `LoadItem`, `LoadRecipe` or `InsertWorldEntry` call sends. A boolean oracle
  `parentOk` stands for "the parent insert succeeded".
- **Record mapper** (`item_mapping.dfy`, module `ItemMapping`). This covers origin
  classification over a closed datatype of source kinds, the first-match scan of
  special-shop listings for the special currency, `GilPrice` and `Marketable`, and the
  recipe mapping.
- **World batch** (`worlds.dfy`, module `Worlds`). This covers `IsPublic` parsing,
  world-row validation, and the batch leaving early at the first bad row.

`wrappers.dfy` (module `Wrappers`) defines `Option` and `Result`.

The main model follows the code. Where the code works against its own evident intent,
the corrected behaviour is modelled next to it; see "## Findings". Two of these rest on
the program's own messages:

- `LoadRecipe` reports a recipe without ingredients as a failed write of a malformed
  recipe (SQL/TableCreation.cs:263). By then the recipe row has already been inserted
  (SQL/TableCreation.cs:251-257), so the report is not what happens.
- `dumpAllWorlds` reports a row without a name or datacenter as an unexpected failed
  lookup for that one row (Program.cs:128). It then returns from the whole batch
  (Program.cs:129), so no later world is queued.

The drop order of `DeleteAllTables` is not the exact reverse of the create order of
`CreateAllTables`. What both need, and what is proved, is that every table is dropped
before the tables it references and created after them.

## Model

| member | source | states |
|---|---|---|
| `SqlText.BuildParameterSqlInsert` | SQL/TableCreation.cs:90-102 | For a 32-bit count n, the builder loop gives `INSERT INTO t VALUES (`, then `$1` to `$n` separated by `", "` with no trailing separator, then `);`. A count of zero or less gives an empty value list, and so does `int.MaxValue`, because the loop bound `parameterCount + 1` wraps to a negative number. |
| `SqlText.EmittedCount` | SQL/TableCreation.cs:92 | The number of placeholders emitted equals the count for every count from 1 to `int.MaxValue - 1`. It is 0 for a count of 0 or less and for `int.MaxValue`. |
| `SqlText.MaxCountWrapsToEmpty` | SQL/TableCreation.cs:92 | With a count of `int.MaxValue`, the statement has an empty value list: `INSERT INTO t VALUES ();`. |
| `SqlText.InsertTextShape` | SQL/TableCreation.cs:90-102 | A count of zero or less gives `INSERT INTO t VALUES ();`, and a count of 1 gives `INSERT INTO t VALUES ($1);`. |
| `SqlText.BuiltSoFarStep` | SQL/TableCreation.cs:92-98 | One turn of the loop appends `$i`, followed by `", "` unless i is the last number. |
| `SqlText.InsertTextRoundTrip` | SQL/TableCreation.cs:92-98 | Reading the statement text back gives exactly the numbers 1, 2, ..., n, each once, in increasing order. A count of zero or less gives none. |
| `SqlText.DecimalRoundTrip` | SQL/TableCreation.cs:94-96 | The decimal form of a placeholder number reads back as that number. |
| `SqlText.PlaceholderListRoundTrip` | SQL/TableCreation.cs:92-98 | Any non-empty list of placeholders joined by `", "` reads back as its numbers, in order. |
| `Schema.TableNameRoundTrip` | SQL/TableCreation.cs:396-410 | Each table's SQL name identifies that table. |
| `Schema.FixedOrdersRespectReferences` | SQL/TableCreation.cs:296-330 | The create order puts every table after the tables it references. The delete order puts every table before the tables it references. Each order lists the five core tables exactly once. |
| `Schema.CreateAllTables` | SQL/TableCreation.cs:296-311 | `CreateAllTables` succeeds from every schema state and adds exactly the five core tables. Running it a second time therefore changes nothing. |
| `Schema.DeleteAllTables` | SQL/TableCreation.cs:314-330 | `DeleteAllTables` succeeds exactly when all five core tables exist. It then removes exactly those tables and leaves `worlds` untouched. |
| `Schema.DeleteAllOrderSucceeds` | SQL/TableCreation.cs:314-330 | When all five core tables exist, the fixed drop order succeeds and removes exactly those tables. |
| `Schema.DeleteAllOrderNeedsAllTables` | SQL/TableCreation.cs:381-395 | The fixed drop order fails when any core table is missing, because its `DROP TABLE` has no `IF EXISTS`. |
| `Schema.DropOrderMatters` | SQL/TableCreation.cs:314-330 | With all five tables present, a drop order of the five succeeds if and only if it drops every table before the tables it references. |
| `Schema.CreateOrderMatters` | SQL/TableCreation.cs:347-377 | From an empty schema, a create order of the five succeeds if and only if it creates every table after the tables it references. |
| `Schema.RunCreatesSucceeds` | SQL/TableCreation.cs:296-311 | A create sequence whose references all point to existing or earlier tables succeeds and adds exactly its tables. |
| `Schema.RunDropsSuccessIsOrdered` | SQL/TableCreation.cs:314-330 | A drop sequence that succeeds only drops existing tables, each before the tables it references. |
| `Schema.CreateWorldsTable` | SQL/TableCreation.cs:38-45 | Creating `worlds` never fails, since it has no foreign keys. When the table already exists, nothing changes. |
| `Loader.ItemParams` | SQL/TableCreation.cs:104-174 | The item row has exactly ten parameters. Id, type, name, the HQ flag and the marketable flag are always passed unchanged and never NULL. Item level, currency id, currency count and gil price are NULL exactly when they are zero or less, and otherwise pass through unchanged. The class/job restriction is NULL exactly when it is empty. |
| `Loader.ItemParamsConform` | SQL/TableCreation.cs:332-345 | The items table accepts the item row: one parameter per column in column order, NULL only in nullable columns, and every value of its column's type. |
| `Loader.ItemRowRoundTrip` | SQL/TableCreation.cs:121-174 | Reading an item row back gives the entry, with every sentinel field collapsed to 0 or "". |
| `Loader.ItemParamsSameIff` | SQL/TableCreation.cs:121-174 | Two entries give the same item row exactly when they agree up to the sentinel rule. |
| `Loader.PositiveOrNull` | SQL/TableCreation.cs:121-128 | A number is sent as NULL exactly when it is zero or less. Otherwise it is sent unchanged. |
| `Loader.NonEmptyOrNull` | SQL/TableCreation.cs:167-174 | Text is sent as NULL exactly when it is empty. Otherwise it is sent unchanged. |
| `Loader.LoadItem` | SQL/TableCreation.cs:104-231 | One item load sends the ten-placeholder `items` row first. When that succeeds, one more statement follows per origin and per equipment type. Each goes to `item_origins` or `item_equipment_types` with two parameters, the first being the item id. When it fails, nothing else is sent. |
| `Loader.TagRows` | SQL/TableCreation.cs:189-223 | One two-placeholder statement per tag, in list order, carrying the owning id and that tag. |
| `Loader.LoadItemRows` | SQL/TableCreation.cs:176-223 | The item row is always attempted. If it fails, nothing else is sent. If it succeeds, one `item_origins` row goes out per origin and one `item_equipment_types` row per equipment type, in list order, each carrying the item id. A null or empty list sends none. No other table is touched. |
| `Loader.LoadItemConforms` | SQL/TableCreation.cs:104-223 | Every statement one item load sends is accepted by its table's columns. |
| `Loader.TagRowsContents` | SQL/TableCreation.cs:189-223 | The child rows for a tag list go only to their own table, one row per tag in list order, each carrying the owning id. |
| `Loader.TagRowsConform` | SQL/TableCreation.cs:191-219 | Every origin or equipment-type row is accepted by its table: an integer id and a non-null text. |
| `Loader.LoadRecipeRows` | SQL/TableCreation.cs:233-294 | The recipe row is always attempted. When it succeeds and the recipe has ingredients, one `(recipe_id, ingredient_id, quantity)` row follows per ingredient, in input order. Otherwise nothing more is sent. |
| `Loader.LoadRecipe` | SQL/TableCreation.cs:233-294 | One recipe load sends the three-placeholder `recipes` row first. When that succeeds and the recipe has ingredients, one `recipe_ingredients` statement follows per ingredient, with three parameters, the first being the recipe id. Otherwise nothing else is sent. |
| `Loader.IngredientRows` | SQL/TableCreation.cs:267-286 | One three-placeholder statement per ingredient, in input order, carrying the recipe id, the ingredient id and the quantity. |
| `Loader.LoadRecipeConforms` | SQL/TableCreation.cs:233-286 | Every statement one recipe load sends is accepted by its table's columns. |
| `Loader.IngredientRowsContents` | SQL/TableCreation.cs:267-286 | The ingredient rows go only to `recipe_ingredients`, one per ingredient in order. |
| `Loader.IngredientRowsConform` | SQL/TableCreation.cs:267-283 | Every ingredient row is accepted by `recipe_ingredients`: three integers. |
| `Loader.LoadRecipeEmptyStillInserts` | SQL/TableCreation.cs:251-265 | For a recipe with a null or empty ingredient list, the recipe row is still sent, and nothing else. |
| `Loader.LoadRecipeChecked` | SQL/TableCreation.cs:251-265 | The load with the ingredient check moved first sends nothing exactly for recipes without ingredients. It agrees with the code on every other recipe. |
| `Loader.InsertWorldEntry` | SQL/TableCreation.cs:53-83 | A world load sends a single statement into `worlds`, and the table accepts it. |
| `Loader.WorldRowRoundTrip` | SQL/TableCreation.cs:53-73 | Reading a world row back gives the world entry unchanged. |
| `Loader.StatementTextMatchesColumns` | SQL/TableCreation.cs:90-105 | The text of a conforming statement is built from its literal placeholder count (10, 2, 3 or 4), which equals its table's column count. The text reads back as the numbers 1 to n, one per bound parameter. |
| `Loader.LoadedTextsBindEveryParam` | SQL/TableCreation.cs:53-105 | For every statement that an item, recipe or world load sends, the text built from the literal count has exactly one placeholder per bound parameter, numbered 1 to n. |
| `ItemMapping.OriginNameRoundTrip` | Program.cs:36-70 | Every origin tag reads back as its origin, so the twelve origins are stored as twelve distinct tags. |
| `ItemMapping.OriginTags` | Program.cs:32-91 | The origin list is never longer than the source list, and every tag reads back as one of the twelve origins. |
| `ItemMapping.TagsOf` | Program.cs:36-70 | A source adds one tag exactly when it is one of the twelve recognised kinds, and that tag reads back as its origin. Any other source adds nothing. |
| `ItemMapping.OriginTagsCounts` | Program.cs:32-91 | Each recognised source adds exactly one tag and any other source adds none. A tag occurs as often as there are sources of its kind. The list length is at most the number of sources. Every tag is one of the twelve fixed names. |
| `ItemMapping.OriginTagsLength` | Program.cs:32-91 | The origin list holds exactly one tag per recognised source. |
| `ItemMapping.OriginTagsAppend` | Program.cs:33-92 | The origin list follows source order: the tags of a concatenation of sources are the concatenation of their tags. |
| `ItemMapping.OriginTagsEdgeCases` | Program.cs:32-91 | With no recognised source, the origin list is empty, and only then. A single recognised source gives exactly its tag. |
| `ItemMapping.FirstMatch` | Program.cs:72-86 | This finds the first listing, in listing order, whose rewards contain the item, or reports that no listing does. |
| `ItemMapping.ShopCost` | Program.cs:72-86 | Take the first listing whose rewards contain the item. The cost is the first cost of that listing, and there is none when that listing has no costs. A cost is found exactly when such a listing exists and has a cost. No cost is found when no listing rewards the item. |
| `ItemMapping.ShopCostStopsAtFirstMatch` | Program.cs:71-83 | Listings after the first match never affect the result. A first match without costs leaves the fields unset, even if a later listing has costs. |
| `ItemMapping.ScanSpecialShop` | Program.cs:69-86 | The nested scan sets the currency id and count from the first cost of the first matching listing. When that listing has no costs, or nothing matches, the fields keep their previous values. |
| `ItemMapping.LastCost` | Program.cs:69-86 | A cost is found exactly when some source is a special shop whose first matching listing has a cost. |
| `ItemMapping.LastCostIsLast` | Program.cs:33-91 | The cost kept is that of the last source assigning one: a later special shop overwrites what an earlier one assigned. |
| `ItemMapping.LastAssignedIsLast` | Program.cs:80-81 | In a run of assignments that each may or may not happen, the value left is that of the last one that happens. |
| `ItemMapping.ClassifyOne` | Program.cs:34-91 | One turn of the source loop adds the source's tag, if any. It updates the currency fields only when the source is a special shop whose first matching listing has a cost. |
| `ItemMapping.ClassifySources` | Program.cs:32-92 | The loop over an item's sources builds the origin list. It leaves the currency fields at the last assigned cost, or at 0 if no shop assigns one. |
| `ItemMapping.GilPrice` | Program.cs:29 | The stored price is never negative. It is the asking price when that is positive, and 0 otherwise. |
| `ItemMapping.DumpItem` | Program.cs:20-93 | The entry built for an item has `Marketable` equal to the negation of `IsUntradable`, a non-negative gil price, and currency fields from the source scan. Its origin list is never filled in. |
| `ItemMapping.MappedItemAsWritten` | Program.cs:21-31 | The entry takes id, name, type, item level, equipment slots, the HQ flag and the class/job name from the game item. `Marketable` is the negation of `IsUntradable`. The gil price is the asking price when that is positive, and 0 otherwise. The currency fields come from the last assigned cost, or are 0. The origins stay null. |
| `ItemMapping.OriginsNeverStoredAsWritten` | Program.cs:21-32 | As written, no item ever gets an `item_origins` row, whatever its sources. |
| `ItemMapping.MappedItemRows` | Program.cs:32-93 | When the computed origin list is stored in the entry, a loaded item gets one `item_origins` row per recognised source, in source order, and one `item_equipment_types` row per slot name. |
| `ItemMapping.CurrencyPersistence` | Program.cs:77-83 | With no assigned cost, currency id and count go out as NULL. With a positive assigned currency id, that id is what goes out. |
| `ItemMapping.IronSwordEntry` | Program.cs:21-32 | The example item maps to id 100, level 10, price 0 and, with origins stored, the tags `Crafted` and `Gil Merchant`. |
| `ItemMapping.IronSwordExample` | Program.cs:32-93 | An item at level 10 with price 0 and sources Recipe and GilShop gives one item row with level 10 and a NULL price. With origins stored, it gives the origin rows `Crafted` and `Gil Merchant`. |
| `ItemMapping.IronSwordOriginsLost` | Program.cs:21-32 | For that same item, the code computes a non-empty origin list but sends no origin row. |
| `ItemMapping.MappedRecipeRows` | Program.cs:99-116 | For every game recipe, loading its entry sends the one recipe row (key, result item, result count). After that succeeds, it sends one ingredient row (key, ingredient item, count) per game ingredient, in order. The load with the ingredient check first sends nothing exactly when the game recipe has no ingredients. |
| `ItemMapping.RecipeExample` | Program.cs:99-116 | Recipe 5 with ingredients (200, 2) and (201, 1) gives one recipe row and exactly two ingredient rows. |
| `Worlds.ParseIsPublic` | Program.cs:125 | The flag is true exactly when the text is `True`. |
| `Worlds.QueuedWorlds` | Program.cs:122-130 | The queued entries are those of the leading valid rows, in order. When the batch stops short, the row it stops at is invalid. |
| `Worlds.IsPublicRoundTrip` | Program.cs:125 | `IsPublic` reads back the flag from its string form. Only the exact text `True` is read as true. |
| `Worlds.ValidPrefixLength` | Program.cs:122-130 | This is the length of the longest run of rows, from the start, that have both a name and a datacenter. |
| `Worlds.DumpAllWorlds` | Program.cs:118-144 | The rows queued are exactly the longest prefix of valid rows, in order. A row missing its name or datacenter stops the batch, and its key is reported. |
| `Worlds.WorldStatements` | Program.cs:139 | The queued worlds issue one conforming `worlds` insert each, in queue order, and each row reads back as its world. |
| `Worlds.WorldStatementRows` | Program.cs:132-144 | The rows sent for the queued worlds are exactly one `worlds` row per world, in order, each reading back as its world. No other table receives a row. |
| `Worlds.QueuedWorldRowsReadBack` | Program.cs:118-144 | For every sheet, the batch as written sends one `worlds` row per leading valid row. Each reads back as that row's entry, and no other table receives a row. |
| `Worlds.EarlyExitLosesLaterRows` | Program.cs:127-130 | The code queues a prefix of what a skipping batch would queue. The two agree exactly when no valid row follows the first bad one. |
| `Worlds.SkippingKeepsEveryValidRow` | Program.cs:127-130 | The batch that skips bad rows queues the entry of every valid row. |
| `Worlds.BadRowStopsBatch` | Program.cs:127-130 | Take a bad first row followed by a good one. The code queues nothing, while the skipping batch queues the good world. |

## Left out

- Npgsql command execution, `DBNull` and typed parameters as runtime objects, and connection pooling. Success of the parent insert is a boolean oracle, and a NULL parameter is `None`.
- Failures of child inserts, and primary-key violations caused by duplicate origin tags. These change only the console output, never which statements are sent.
- `async`, `Task.WhenAll` and the concurrent fan-out of child inserts. Child rows appear in the order the code creates them. Tasks left unawaited after the early return in the world batch are not modelled.
- The loops of `dumpAllItems` and `dumpAllRecipes` across many records. Each record is modelled on its own (`DumpItem`, `MappedRecipe`), because the records' loads run concurrently and independently.
- SaintCoinach realm and sheet loading, and the type tests on its classes. They are replaced by the closed datatype `Source`, plus listing and cost records that keep only the item keys and counts the scan reads.
- Console output, warnings and the interactive command loop, which are I/O. The hard-coded game path and connection string are left out too.
- The column DDL text of the `CREATE TABLE` strings. It is modelled as the `Columns` data and the `References` relation. Inside the database, only the existence of tables is modelled.
- 32-bit integer width outside `buildParameterSQLInsert`. Ids, counts and prices in the entries are only compared with 0 and passed through unchanged. The one 32-bit addition in the core, `parameterCount + 1` in the builder, is modelled with its wrap-around (`SqlText.Wrap32`).
- `Worlds.DumpAllWorlds`: a failed name or datacenter lookup is modelled as an absent string. In the program, `ToString()` on a missing field would throw before the null check is reached.
- A null `ClassJobRestriction` is not modelled: it would throw at `.Length`. The mapper always supplies a string.

## Findings

| source | as written | input that shows it | evidently intended | confidence | as-written member | corrected member |
|---|---|---|---|---|---|---|
| Program.cs:21-32 | The origin list is built per item but never assigned to the entry's `Origins`. `LoadItem` therefore sees null and sends no `item_origins` row. | Item 100 with sources Recipe and GilShop: origins `Crafted`, `Gil Merchant` are computed, and zero origin rows are sent. | Store the list in the entry, so that one origin row is sent per recognised source. | high; not executed | `ItemMapping.IronSwordOriginsLost` | `ItemMapping.MappedItemRows` |
| SQL/TableCreation.cs:251-265 | The recipe row is inserted before the empty-ingredient check, so a malformed recipe is persisted. | A recipe with an empty ingredient list: the recipe row is sent. | Check the ingredients first and send nothing for such a recipe. | medium; not executed | `Loader.LoadRecipeEmptyStillInserts` | `Loader.LoadRecipeChecked` |
| Program.cs:127-130 | A world row missing its name or datacenter `return`s from the whole batch. No later row is queued. | Rows (1, name, no datacenter) and (2, complete): nothing is queued. | Skip the bad row and continue with the next one. | medium; not executed | `Worlds.BadRowStopsBatch` | `Worlds.SkippingKeepsEveryValidRow` |
