/**
 The world loader (`dumpAllWorlds`): each row of the World sheet is read by field name,
 `IsPublic` is parsed from its string form, and a world entry is queued for insertion.
 A row whose name or datacenter lookup yields nothing ends the whole batch: the rows
 after it are never looked at.
 */
module Worlds {
  import opened Wrappers
  import opened Schema
  import opened Loader

  /** A World sheet row as the loader sees it: its key and the string forms of its
      fields; `None` is a lookup that yields no string. */
  datatype WorldRow = WorldRow(key: int, name: Option<string>, dataCenter: Option<string>, isPublicText: string)

  /** The string form of a boolean field, as the game-data library renders it. */
  function BoolText(b: bool): string {
    if b then "True" else "False"
  }

  /** `IsPublic` is true exactly for the string "True". */
  function ParseIsPublic(text: string): (r: bool)
    ensures r <==> text == BoolText(true)
  {
    text == "True"
  }

  /** Parsing the string form of a flag gives the flag back, and nothing but the exact
      text "True" parses as true (not "true", not "1"). */
  lemma IsPublicRoundTrip(b: bool, text: string)
    ensures ParseIsPublic(BoolText(b)) == b
    ensures ParseIsPublic(text) ==> text == BoolText(true)
    ensures !ParseIsPublic("true") && !ParseIsPublic("1")
  {
  }

  predicate Valid(row: WorldRow) {
    row.name.Some? && row.dataCenter.Some?
  }

  function ToEntry(row: WorldRow): WorldEntry
    requires Valid(row)
  {
    WorldEntry(row.key, row.name.value, row.dataCenter.value, ParseIsPublic(row.isPublicText))
  }

  /** Entries for a run of valid rows, in order. */
  function Entries(rows: seq<WorldRow>): (r: seq<WorldEntry>)
    requires forall k :: 0 <= k < |rows| ==> Valid(rows[k])
    ensures |r| == |rows|
    ensures forall k :: 0 <= k < |rows| ==> r[k] == ToEntry(rows[k])
  {
    seq(|rows|, k requires 0 <= k < |rows| && Valid(rows[k]) => ToEntry(rows[k]))
  }

  /** The length of the longest prefix of valid rows. */
  function ValidPrefixLength(rows: seq<WorldRow>): (n: nat)
    ensures n <= |rows|
    ensures forall k :: 0 <= k < n ==> Valid(rows[k])
    ensures n < |rows| ==> !Valid(rows[n])
    decreases |rows|
  {
    if |rows| == 0 || !Valid(rows[0]) then 0
    else 1 + ValidPrefixLength(rows[1..])
  }

  /** The worlds the batch queues as written: those of the longest valid prefix. */
  function QueuedWorlds(rows: seq<WorldRow>): (r: seq<WorldEntry>)
    ensures |r| <= |rows|
    ensures forall k :: 0 <= k < |r| ==> Valid(rows[k]) && r[k] == ToEntry(rows[k])
    ensures |r| < |rows| ==> !Valid(rows[|r|])
  {
    Entries(rows[..ValidPrefixLength(rows)])
  }

  /** The batch loop: queue one entry per row, and return at the first row missing its
      name or datacenter, reporting that row's key. */
  method DumpAllWorlds(rows: seq<WorldRow>) returns (queued: seq<WorldEntry>, stoppedAt: Option<int>)
    ensures queued == QueuedWorlds(rows)
    ensures stoppedAt.None? <==> |queued| == |rows|
    ensures stoppedAt.Some? ==> |queued| < |rows| && stoppedAt.value == rows[|queued|].key && !Valid(rows[|queued|])
  {
    queued := [];
    stoppedAt := None;
    var k := 0;
    while k < |rows|
      invariant 0 <= k <= ValidPrefixLength(rows)
      invariant queued == Entries(rows[..k])
    {
      var row := rows[k];
      var isPublic := row.isPublicText == "True";
      if row.name.None? || row.dataCenter.None? {
        stoppedAt := Some(row.key);
        return;
      }
      queued := queued + [WorldEntry(row.key, row.name.value, row.dataCenter.value, isPublic)];
      k := k + 1;
    }
  }

  /** The statements the queued worlds issue, one `InsertWorldEntry` after another: each
      is a conforming `worlds` insert whose row reads back as its world, in queue order. */
  function WorldStatements(queued: seq<WorldEntry>): (r: seq<Statement>)
    ensures |r| == |queued|
    ensures forall k :: 0 <= k < |queued| ==>
      r[k].table == Worlds && Conforms(r[k]) && WorldFromRow(r[k].params) == Some(queued[k])
    decreases |queued|
  {
    if |queued| == 0 then []
    else
      WorldRowRoundTrip(queued[0]);
      InsertWorldEntry(queued[0]) + WorldStatements(queued[1..])
  }

  /** The rows the queued worlds send: exactly one `worlds` row per queued world, in
      order, and nothing into any other table. */
  lemma {:induction false} WorldStatementRows(queued: seq<WorldEntry>)
    ensures |RowsOf(WorldStatements(queued), Worlds)| == |queued|
    ensures forall k :: 0 <= k < |queued| ==>
      WorldFromRow(RowsOf(WorldStatements(queued), Worlds)[k]) == Some(queued[k])
    ensures forall t :: t != Worlds ==> RowsOf(WorldStatements(queued), t) == []
    decreases |queued|
  {
    if |queued| > 0 {
      var head := InsertWorldEntry(queued[0]);
      var rest := WorldStatements(queued[1..]);
      WorldStatementRows(queued[1..]);
      WorldRowRoundTrip(queued[0]);
      assert head == [head[0]];
      forall t ensures RowsOf(WorldStatements(queued), t) == RowsOf([head[0]], t) + RowsOf(rest, t) {
        RowsOfAppend(head, rest, t);
      }
      forall t ensures RowsOf([head[0]], t) == if t == Worlds then [head[0].params] else [] {
        RowsOfSingleton(head[0], t);
      }
      assert RowsOf(WorldStatements(queued), Worlds) == [head[0].params] + RowsOf(rest, Worlds);
    }
  }

  /** The whole batch as written: the `worlds` rows sent read back as the worlds queued,
      which are the entries of the leading valid rows, one each and in order. */
  lemma QueuedWorldRowsReadBack(rows: seq<WorldRow>)
    ensures |RowsOf(WorldStatements(QueuedWorlds(rows)), Worlds)| == ValidPrefixLength(rows)
    ensures forall k :: 0 <= k < ValidPrefixLength(rows) ==>
      WorldFromRow(RowsOf(WorldStatements(QueuedWorlds(rows)), Worlds)[k]) == Some(ToEntry(rows[k]))
    ensures forall t :: t != Worlds ==> RowsOf(WorldStatements(QueuedWorlds(rows)), t) == []
  {
    WorldStatementRows(QueuedWorlds(rows));
  }

  /** The batch that skips a bad row and goes on with the next. */
  function QueuedWorldsSkipping(rows: seq<WorldRow>): seq<WorldEntry>
    decreases |rows|
  {
    if |rows| == 0 then []
    else (if Valid(rows[0]) then [ToEntry(rows[0])] else []) + QueuedWorldsSkipping(rows[1..])
  }

  lemma {:induction false} SkippingOfValidRows(rows: seq<WorldRow>)
    requires forall k :: 0 <= k < |rows| ==> Valid(rows[k])
    ensures QueuedWorldsSkipping(rows) == Entries(rows)
    decreases |rows|
  {
    if |rows| > 0 {
      SkippingOfValidRows(rows[1..]);
    }
  }

  lemma {:induction false} SkippingOfInvalidRows(rows: seq<WorldRow>)
    ensures QueuedWorldsSkipping(rows) == [] <==> forall k :: 0 <= k < |rows| ==> !Valid(rows[k])
    decreases |rows|
  {
    if |rows| > 0 {
      SkippingOfInvalidRows(rows[1..]);
      assert forall k :: 1 <= k < |rows| ==> rows[k] == rows[1..][k - 1];
    }
  }

  lemma {:induction false} SkippingAppend(a: seq<WorldRow>, b: seq<WorldRow>)
    ensures QueuedWorldsSkipping(a + b) == QueuedWorldsSkipping(a) + QueuedWorldsSkipping(b)
    decreases |a|
  {
    if |a| == 0 {
      assert a + b == b;
    } else {
      var first := if Valid(a[0]) then [ToEntry(a[0])] else [];
      assert (a + b)[0] == a[0];
      assert (a + b)[1..] == a[1..] + b;
      assert QueuedWorldsSkipping(a + b) == first + QueuedWorldsSkipping(a[1..] + b);
      SkippingAppend(a[1..], b);
      assert QueuedWorldsSkipping(a) == first + QueuedWorldsSkipping(a[1..]);
    }
  }

  /** The skipping batch is the as-written batch followed by the entries of the valid
      rows after the first bad one. */
  lemma {:induction false} SkippingSplit(rows: seq<WorldRow>)
    ensures QueuedWorldsSkipping(rows)
            == QueuedWorlds(rows) + QueuedWorldsSkipping(rows[ValidPrefixLength(rows)..])
  {
    var n := ValidPrefixLength(rows);
    assert rows == rows[..n] + rows[n..];
    SkippingAppend(rows[..n], rows[n..]);
    SkippingOfValidRows(rows[..n]);
  }

  /** As written, the batch queues a prefix of what the skipping batch queues; the two
      agree exactly when no valid row follows the first bad one. */
  lemma {:induction false} EarlyExitLosesLaterRows(rows: seq<WorldRow>)
    ensures var asWritten := QueuedWorlds(rows);
      && |asWritten| <= |QueuedWorldsSkipping(rows)|
      && asWritten == QueuedWorldsSkipping(rows)[..|asWritten|]
    ensures QueuedWorlds(rows) == QueuedWorldsSkipping(rows)
            <==> forall k :: ValidPrefixLength(rows) <= k < |rows| ==> !Valid(rows[k])
  {
    var n := ValidPrefixLength(rows);
    var asWritten := QueuedWorlds(rows);
    var later := QueuedWorldsSkipping(rows[n..]);
    SkippingSplit(rows);
    assert (asWritten + later)[..|asWritten|] == asWritten;
    SkippingOfInvalidRows(rows[n..]);
    assert asWritten == asWritten + later <==> later == [];
    assert (forall k :: 0 <= k < |rows[n..]| ==> !Valid(rows[n..][k]))
       <==> (forall k :: n <= k < |rows| ==> !Valid(rows[k])) by {
      assert forall k :: n <= k < |rows| ==> rows[k] == rows[n..][k - n];
    }
  }

  /** The skipping batch loses no valid row: every valid row's entry is queued. */
  lemma {:induction false} SkippingKeepsEveryValidRow(rows: seq<WorldRow>, k: nat)
    requires k < |rows| && Valid(rows[k])
    ensures ToEntry(rows[k]) in QueuedWorldsSkipping(rows)
    decreases k
  {
    if k > 0 {
      assert rows[1..][k - 1] == rows[k];
      SkippingKeepsEveryValidRow(rows[1..], k - 1);
    }
  }

  /** A bad first row stops the batch before a good second row: as written nothing is
      queued and the bad row's key is reported, while the skipping batch queues the
      second world. */
  lemma BadRowStopsBatch()
    ensures var rows := [WorldRow(1, Some("A"), None, "True"), WorldRow(2, Some("B"), Some("DC"), "False")];
      && QueuedWorlds(rows) == []
      && QueuedWorldsSkipping(rows) == [WorldEntry(2, "B", "DC", false)]
  {
    var rows := [WorldRow(1, Some("A"), None, "True"), WorldRow(2, Some("B"), Some("DC"), "False")];
    assert rows[1..][1..] == [];
  }
}
