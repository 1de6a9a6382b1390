/**
 The text of a parameterised insert statement, `INSERT INTO t VALUES ($1, $2, ..., $n);`,
 as `buildParameterSQLInsert` builds it, together with a reader for that text that
 recovers the placeholder numbers, so that the placeholders can be shown to be exactly
 1, 2, ..., n in increasing order.
 */
module SqlText {
  import opened Wrappers

  // ---------------------------------------------------------------------------
  // Decimal rendering of placeholder numbers
  // ---------------------------------------------------------------------------

  predicate IsDigits(s: string) {
    forall i :: 0 <= i < |s| ==> '0' <= s[i] <= '9'
  }

  function DigitChar(d: nat): (c: char)
    requires d < 10
    ensures '0' <= c <= '9'
    ensures (c as int) - ('0' as int) == d
  {
    (('0' as int) + d) as char
  }

  /** The invariant-culture decimal form of a non-negative number, as `$"{i}"` prints it. */
  function NatToDecimal(n: nat): (s: string)
    ensures |s| >= 1
    ensures IsDigits(s)
    ensures ',' !in s
    decreases n
  {
    if n < 10 then [DigitChar(n)] else NatToDecimal(n / 10) + [DigitChar(n % 10)]
  }

  /** The number a string of decimal digits denotes. */
  function DecimalValue(s: string): nat
    requires IsDigits(s)
    decreases |s|
  {
    if |s| == 0 then 0
    else DecimalValue(s[..|s| - 1]) * 10 + ((s[|s| - 1] as int) - ('0' as int))
  }

  /** Reading back the decimal form of a number gives the number. */
  lemma {:induction false} DecimalRoundTrip(n: nat)
    ensures DecimalValue(NatToDecimal(n)) == n
    decreases n
  {
    if n >= 10 {
      var s := NatToDecimal(n);
      assert s[..|s| - 1] == NatToDecimal(n / 10);
      DecimalRoundTrip(n / 10);
    }
  }

  // ---------------------------------------------------------------------------
  // Placeholders and their comma-separated list
  // ---------------------------------------------------------------------------

  /** `$i`, the i-th positional parameter. */
  function Placeholder(i: nat): string {
    "$" + NatToDecimal(i)
  }

  /** The numbers 1, 2, ..., n. */
  function Range(n: nat): (r: seq<nat>)
    ensures |r| == n
    ensures forall i :: 0 <= i < n ==> r[i] == i + 1
  {
    seq(n, i => i + 1)
  }

  function Placeholders(xs: seq<nat>): (r: seq<string>)
    ensures |r| == |xs|
    ensures forall i :: 0 <= i < |xs| ==> r[i] == Placeholder(xs[i])
  {
    seq(|xs|, i requires 0 <= i < |xs| => Placeholder(xs[i]))
  }

  /** The elements of `xs` separated by `sep`, with no leading or trailing separator. */
  function Join(xs: seq<string>, sep: string): string
    decreases |xs|
  {
    if |xs| == 0 then ""
    else if |xs| == 1 then xs[0]
    else xs[0] + sep + Join(xs[1..], sep)
  }

  lemma {:induction false} JoinSnoc(xs: seq<string>, x: string, sep: string)
    requires |xs| >= 1
    ensures Join(xs + [x], sep) == Join(xs, sep) + sep + x
    decreases |xs|
  {
    if |xs| == 1 {
      assert (xs + [x])[1..] == [x];
    } else {
      assert (xs + [x])[1..] == xs[1..] + [x];
      JoinSnoc(xs[1..], x, sep);
    }
  }

  /** The opening part of the statement, up to and including the parenthesis. */
  function InsertHead(tableName: string): string {
    "INSERT INTO " + tableName + " VALUES ("
  }

  /** The statement text for `parameterCount` positional parameters; a count of zero or
      less gives an empty value list. */
  function InsertText(tableName: string, parameterCount: int): string {
    var n: nat := if parameterCount > 0 then parameterCount else 0;
    InsertHead(tableName) + Join(Placeholders(Range(n)), ", ") + ");"
  }

  /** A C# `int`. */
  type Int32 = x: int | -0x8000_0000 <= x < 0x8000_0000

  /** Two's-complement wrap-around of an integer into the `int` range, as unchecked C#
      arithmetic does. */
  function Wrap32(x: int): (r: Int32)
    ensures -0x8000_0000 <= x < 0x8000_0000 ==> r == x
    ensures x == 0x8000_0000 ==> r == -0x8000_0000
  {
    (x + 0x8000_0000) % 0x1_0000_0000 - 0x8000_0000
  }

  /** The number of placeholders the builder loop emits for a count: the loop runs while
      `i < parameterCount + 1`, with that sum in 32-bit arithmetic. So the largest `int`
      wraps the bound to the smallest one and emits none. */
  function EmittedCount(parameterCount: Int32): (n: nat)
    ensures 0 < parameterCount < 0x7fff_ffff ==> n == parameterCount
    ensures parameterCount <= 0 || parameterCount == 0x7fff_ffff ==> n == 0
  {
    var bound := Wrap32(parameterCount + 1);
    if bound > 1 then bound - 1 else 0
  }

  /** What the string builder holds after the placeholders 1 .. i-1 have been appended. */
  function BuiltSoFar(tableName: string, i: nat, parameterCount: int): string
    requires i >= 1
  {
    if i == 1 then InsertHead(tableName)
    else if i <= parameterCount then InsertHead(tableName) + Join(Placeholders(Range(i - 1)), ", ") + ", "
    else InsertHead(tableName) + Join(Placeholders(Range(i - 1)), ", ")
  }

  lemma PlaceholdersRangeSnoc(i: nat)
    requires i >= 1
    ensures Placeholders(Range(i)) == Placeholders(Range(i - 1)) + [Placeholder(i)]
  {
    assert Placeholders(Range(i)) == Placeholders(Range(i - 1)) + [Placeholder(i)];
  }

  /** One turn of the builder loop appends `$i` and, unless `i` is the last number, the
      separator. */
  lemma BuiltSoFarStep(tableName: string, i: nat, parameterCount: int)
    requires 1 <= i < parameterCount + 1
    ensures i < parameterCount ==>
      BuiltSoFar(tableName, i + 1, parameterCount) == BuiltSoFar(tableName, i, parameterCount) + (Placeholder(i) + ", ")
    ensures i == parameterCount ==>
      BuiltSoFar(tableName, i + 1, parameterCount) == BuiltSoFar(tableName, i, parameterCount) + Placeholder(i)
  {
    var head := InsertHead(tableName);
    var before := Join(Placeholders(Range(i - 1)), ", ");
    var after := Join(Placeholders(Range(i)), ", ");
    PlaceholdersRangeSnoc(i);
    if i == 1 {
      assert Placeholders(Range(1)) == [Placeholder(1)];
      assert after == Placeholder(1);
    } else {
      JoinSnoc(Placeholders(Range(i - 1)), Placeholder(i), ", ");
      assert after == before + ", " + Placeholder(i);
      assert head + after == (head + before + ", ") + Placeholder(i);
    }
  }

  /** The loop of `buildParameterSQLInsert`: `$i, ` for every i below the count, `$i`
      for the last one, then the closing `);`. */
  method BuildParameterSqlInsert(tableName: string, parameterCount: Int32) returns (sql: string)
    ensures sql == InsertText(tableName, EmittedCount(parameterCount))
  {
    var sb := InsertHead(tableName);
    var bound := Wrap32(parameterCount + 1);
    var i := 1;
    while i < bound
      invariant 1 <= i
      invariant i == 1 || i <= bound
      invariant bound > 1 ==> bound == parameterCount + 1
      invariant sb == BuiltSoFar(tableName, i, parameterCount)
    {
      BuiltSoFarStep(tableName, i, parameterCount);
      if i < parameterCount {
        sb := sb + (Placeholder(i) + ", ");
      } else {
        sb := sb + Placeholder(i);
      }
      i := i + 1;
    }
    sql := sb + ");";
  }

  // ---------------------------------------------------------------------------
  // Reading the statement text back
  // ---------------------------------------------------------------------------

  /** Index of the first `c` in `s`, or `|s|` when there is none. */
  function IndexOfChar(s: string, c: char): (k: nat)
    ensures k <= |s|
    ensures k < |s| ==> s[k] == c
    ensures forall j :: 0 <= j < k ==> s[j] != c
    decreases |s|
  {
    if |s| == 0 then 0 else if s[0] == c then 0 else 1 + IndexOfChar(s[1..], c)
  }

  /** The number of a single placeholder `$digits`. */
  function ParsePlaceholder(s: string): Option<nat> {
    if |s| >= 2 && s[0] == '$' && IsDigits(s[1..]) then Some(DecimalValue(s[1..])) else None
  }

  /** The numbers of a non-empty, `", "`-separated list of placeholders. */
  function ParsePlaceholderList(s: string): Option<seq<nat>>
    decreases |s|
  {
    var k := IndexOfChar(s, ',');
    if k == |s| then
      match ParsePlaceholder(s)
      case None => None
      case Some(p) => Some([p])
    else if k + 1 < |s| && s[k + 1] == ' ' then
      match ParsePlaceholder(s[..k])
      case None => None
      case Some(p) =>
        match ParsePlaceholderList(s[k + 2..])
        case None => None
        case Some(ps) => Some([p] + ps)
    else None
  }

  /** The placeholder numbers of an insert statement into `tableName`, or `None` when the
      text is not shaped like one. */
  function ParseInsert(tableName: string, sql: string): Option<seq<nat>> {
    var head := InsertHead(tableName);
    if |sql| >= |head| + 2 && sql[..|head|] == head && sql[|sql| - 2..] == ");" then
      var body := sql[|head|..|sql| - 2];
      if body == "" then Some([]) else ParsePlaceholderList(body)
    else None
  }

  lemma PlaceholderRoundTrip(x: nat)
    ensures ParsePlaceholder(Placeholder(x)) == Some(x)
    ensures ',' !in Placeholder(x)
  {
    var p := Placeholder(x);
    assert p[1..] == NatToDecimal(x);
    DecimalRoundTrip(x);
  }

  lemma {:induction false} IndexOfCharConcat(a: string, b: string, c: char)
    requires c !in a
    ensures IndexOfChar(a + b, c) == |a| + IndexOfChar(b, c)
    decreases |a|
  {
    if |a| > 0 {
      assert a[0] in a;
      assert (a + b)[0] == a[0];
      assert (a + b)[1..] == a[1..] + b;
      IndexOfCharConcat(a[1..], b, c);
    } else {
      assert a + b == b;
    }
  }

  lemma {:induction false} PlaceholderListRoundTrip(xs: seq<nat>)
    requires |xs| >= 1
    ensures ParsePlaceholderList(Join(Placeholders(xs), ", ")) == Some(xs)
    decreases |xs|
  {
    var p := Placeholder(xs[0]);
    PlaceholderRoundTrip(xs[0]);
    if |xs| == 1 {
      assert Join(Placeholders(xs), ", ") == p;
      assert IndexOfChar(p, ',') == |p|;
      assert [xs[0]] == xs;
    } else {
      var rest := Join(Placeholders(xs[1..]), ", ");
      assert Placeholders(xs)[1..] == Placeholders(xs[1..]);
      var s := p + ", " + rest;
      assert Join(Placeholders(xs), ", ") == s;
      assert s == p + (", " + rest);
      IndexOfCharConcat(p, ", " + rest, ',');
      var k := IndexOfChar(s, ',');
      assert k == |p|;
      assert s[..k] == p;
      assert s[k + 2..] == rest;
      PlaceholderListRoundTrip(xs[1..]);
      assert [xs[0]] + xs[1..] == xs;
    }
  }

  /** The statement text names its placeholders 1, 2, ..., n exactly once each and in
      increasing order (none at all when the count is zero or less). */
  lemma InsertTextRoundTrip(tableName: string, parameterCount: int)
    ensures ParseInsert(tableName, InsertText(tableName, parameterCount))
            == Some(Range(if parameterCount > 0 then parameterCount else 0))
  {
    var n: nat := if parameterCount > 0 then parameterCount else 0;
    var head := InsertHead(tableName);
    var body := Join(Placeholders(Range(n)), ", ");
    var sql := InsertText(tableName, parameterCount);
    assert sql == head + body + ");";
    assert sql[..|head|] == head;
    assert sql[|sql| - 2..] == ");";
    assert sql[|head|..|sql| - 2] == body;
    if n == 0 {
      assert body == "";
    } else {
      PlaceholderListRoundTrip(Range(n));
      assert body != "" by {
        assert Placeholders(Range(n))[0] == Placeholder(1);
        JoinNonEmpty(Placeholders(Range(n)), ", ");
      }
    }
  }

  lemma JoinNonEmpty(xs: seq<string>, sep: string)
    requires |xs| >= 1 && |xs[0]| >= 1
    ensures |Join(xs, sep)| >= 1
  {
  }

  /** The smallest statements spelled out: for n <= 0 the value list is empty, and for
      n == 1 it holds `$1` alone. */
  lemma InsertTextShape(tableName: string, parameterCount: int)
    ensures parameterCount <= 0 ==>
      InsertText(tableName, parameterCount) == "INSERT INTO " + tableName + " VALUES ();"
    ensures parameterCount == 1 ==>
      InsertText(tableName, parameterCount) == "INSERT INTO " + tableName + " VALUES ($1);"
  {
    if parameterCount == 1 {
      assert DigitChar(1) == '1';
      assert NatToDecimal(1) == "1";
      assert Placeholder(1) == "$1";
      assert Range(1)[0] == 1;
      assert Placeholders(Range(1)) == ["$1"];
    }
  }

  /** At the largest `int` the loop bound wraps around, so the builder emits no
      placeholder at all. */
  lemma MaxCountWrapsToEmpty(tableName: string)
    ensures InsertText(tableName, EmittedCount(0x7fff_ffff)) == "INSERT INTO " + tableName + " VALUES ();"
  {
    InsertTextShape(tableName, EmittedCount(0x7fff_ffff));
  }
}
