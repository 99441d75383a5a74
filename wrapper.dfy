/** Identifier quoting per database dialect (`wrapByDb`). */
module Wrapper {
  import opened Wrappers
  import opened Strings
  import opened NodeCommon

  /** A character of the class `[-\s]`. */
  predicate IsSeparator(c: char) {
    c == '-' || IsJsSpace(c)
  }

  /** `s[i..j]` is a non-empty run of separators with word characters on both
      sides, which is what `\b[-\s]+\b` matches (a separator is never a word
      character, so both boundaries need a word character outside the run). */
  predicate SeparatorRunAt(s: string, i: int, j: int)
    requires 0 < i < j < |s|
  {
    IsWordChar(s[i - 1]) && IsWordChar(s[j]) &&
    forall k :: i <= k < j ==> IsSeparator(s[k])
  }

  /** `origin.match(/\b[-\s]+\b/ig)` is non-null. */
  predicate HasSeparatorRun(s: string) {
    exists i, j | 0 < i < j < |s| :: SeparatorRunAt(s, i, j)
  }

  /** The alternatives of `/^( |if|key|...|grant)$/i`, lower-cased. */
  const ReservedWords: set<string> := {
    " ", "if", "key", "desc", "length", "group", "order", "index", "condition",
    "system", "table", "type", "value", "backup", "begin", "account", "action",
    "all", "any", "current", "data", "grant"
  }

  /** The whole string is one reserved word, ignoring ASCII case. With the `i`
      flag and no `u` flag JavaScript never folds a non-ASCII character onto an
      ASCII letter, so ASCII lower-casing decides the match. */
  predicate IsReserved(s: string) {
    AsciiLower(s) in ReservedWords
  }

  /** The condition under which `wrapByDb` quotes an identifier for dialects
      other than PostgreSQL and MongoDB. */
  predicate NeedsQuoting(s: string) {
    HasSeparatorRun(s) || IsReserved(s)
  }

  /** Each piece enclosed in `open` and `close`. */
  function Enclose(parts: seq<string>, open: char, close: char): (r: seq<string>)
    ensures |r| == |parts|
    ensures forall i :: 0 <= i < |r| ==> r[i] == [open] + parts[i] + [close]
  {
    seq(|parts|, i requires 0 <= i < |parts| => [open] + parts[i] + [close])
  }

  /** Each piece with its first and last character removed. */
  function StripEach(parts: seq<string>): (r: seq<string>)
    ensures |r| == |parts|
  {
    seq(|parts|, i requires 0 <= i < |parts| =>
      if |parts[i]| >= 2 then parts[i][1..|parts[i]| - 1] else parts[i])
  }

  /** Every dot-separated segment enclosed separately, rejoined with dots. */
  function QuoteSegments(s: string, open: char, close: char): string {
    Join(Enclose(Split(s, '.'), open, close), '.')
  }

  /** `wrapByDb(origin, databaseType)`; `None` stands for `null`/`undefined`. */
  function WrapByDb(origin: Option<string>, dbType: DatabaseType): Option<string> {
    match origin
    case None => None
    case Some(s) =>
      if dbType == PostgreSQL then Some(QuoteSegments(s, '"', '"'))
      else if dbType == MongoDB then Some(s)
      else if NeedsQuoting(s) then
        if dbType == SqlServer then Some(QuoteSegments(s, '[', ']'))
        else Some("`" + s + "`")
      else Some(s)
  }

  // ---------------------------------------------------------------------------
  // properties

  /** A null or undefined identifier is returned as it is. */
  lemma {:induction false} NullPassesThrough(dbType: DatabaseType)
    ensures WrapByDb(None, dbType) == None
  {
  }

  /** Segment quoting keeps the segments: splitting the result on dots gives
      back exactly the enclosed segments, one per segment of the input, and
      stripping the quoting characters restores the input. */
  lemma {:induction false} QuoteSegmentsRoundTrip(s: string, open: char, close: char)
    requires open != '.' && close != '.'
    ensures Split(QuoteSegments(s, open, close), '.') == Enclose(Split(s, '.'), open, close)
    ensures |Split(QuoteSegments(s, open, close), '.')| == |Split(s, '.')|
    ensures Join(StripEach(Split(QuoteSegments(s, open, close), '.')), '.') == s
  {
    var parts := Split(s, '.');
    var quoted := Enclose(parts, open, close);
    forall i | 0 <= i < |quoted|
      ensures '.' !in quoted[i]
    {
      assert quoted[i] == [open] + parts[i] + [close];
    }
    SplitJoin(quoted, '.');
    var stripped := StripEach(quoted);
    forall i | 0 <= i < |parts|
      ensures stripped[i] == parts[i]
    {
      assert quoted[i][1..|quoted[i]| - 1] == parts[i];
    }
    assert stripped == parts;
    JoinSplit(s, '.');
  }

  /** PostgreSQL quotes every dot-separated segment, whatever it contains. */
  lemma {:induction false} PostgresQuotesEverySegment(s: string)
    ensures WrapByDb(Some(s), PostgreSQL) == Some(Join(Enclose(Split(s, '.'), '"', '"'), '.'))
    ensures Split(WrapByDb(Some(s), PostgreSQL).value, '.') == Enclose(Split(s, '.'), '"', '"')
    ensures Join(StripEach(Split(WrapByDb(Some(s), PostgreSQL).value, '.')), '.') == s
  {
    QuoteSegmentsRoundTrip(s, '"', '"');
  }

  /** MongoDB never quotes. */
  lemma {:induction false} MongoIsIdentity(s: string)
    ensures WrapByDb(Some(s), MongoDB) == Some(s)
  {
  }

  /** Outside PostgreSQL, an identifier that needs no quoting comes back unchanged,
      and one that does is changed. */
  lemma {:induction false} UnchangedIffNoQuotingNeeded(s: string, dbType: DatabaseType)
    requires dbType != PostgreSQL && dbType != MongoDB
    ensures WrapByDb(Some(s), dbType) == Some(s) <==> !NeedsQuoting(s)
  {
    if NeedsQuoting(s) {
      if dbType == SqlServer {
        var parts := Split(s, '.');
        var q := QuoteSegments(s, '[', ']');
        QuoteSegmentsRoundTrip(s, '[', ']');
        assert |Split(q, '.')[0]| == |parts[0]| + 2;
        assert q != s;
      } else {
        assert |"`" + s + "`"| == |s| + 2;
      }
    }
  }

  /** SqlServer brackets every dot-segment of an identifier that needs quoting. */
  lemma {:induction false} SqlServerBracketsEverySegment(s: string)
    requires NeedsQuoting(s)
    ensures WrapByDb(Some(s), SqlServer) == Some(Join(Enclose(Split(s, '.'), '[', ']'), '.'))
    ensures Split(WrapByDb(Some(s), SqlServer).value, '.') == Enclose(Split(s, '.'), '[', ']')
  {
    QuoteSegmentsRoundTrip(s, '[', ']');
  }

  /** Any other dialect puts one backtick pair around the whole identifier;
      dots are not split. */
  lemma {:induction false} OtherDialectsBacktickWhole(s: string, dbType: DatabaseType)
    requires dbType != PostgreSQL && dbType != MongoDB && dbType != SqlServer
    requires NeedsQuoting(s)
    ensures WrapByDb(Some(s), dbType) == Some("`" + s + "`")
  {
  }

  // ---------------------------------------------------------------------------
  // examples

  lemma {:induction false} PostgresExample()
    ensures WrapByDb(Some("a.b"), PostgreSQL) == Some("\"a\".\"b\"")
  {
    SplitJoin(["a", "b"], '.');
    assert Join(["a", "b"], '.') == "a.b";
    var e := Enclose(["a", "b"], '"', '"');
    assert e[0] == "\"a\"" && e[1] == "\"b\"";
    assert e == ["\"a\"", "\"b\""];
    assert Join(["\"a\"", "\"b\""], '.') == "\"a\".\"b\"";
  }

  lemma {:induction false} ReservedExamples()
    ensures IsReserved("ORDER") && IsReserved("Key") && !IsReserved("orders")
  {
    assert AsciiLower("ORDER") == "order";
    assert AsciiLower("Key") == "key";
    assert AsciiLower("orders") == "orders";
  }

  lemma {:induction false} SeparatorExamples()
    ensures HasSeparatorRun("first-name") && HasSeparatorRun("a b")
    ensures !HasSeparatorRun("abc ") && !HasSeparatorRun("-x")
  {
    assert SeparatorRunAt("first-name", 5, 6);
    assert SeparatorRunAt("a b", 1, 2);
    assert !HasSeparatorRun("abc ") by {
      forall i, j | 0 < i < j < 4 ensures !SeparatorRunAt("abc ", i, j) {
        assert !IsSeparator("abc "[i]);
      }
    }
  }

  /** A dotted name with a space in its first segment. */
  const MyTable: string := "my table.x"

  lemma {:induction false} MyTableNeedsQuoting()
    ensures NeedsQuoting(MyTable)
  {
    assert SeparatorRunAt(MyTable, 2, 3);
  }

  lemma {:induction false} MyTableSegments()
    ensures Enclose(Split(MyTable, '.'), '[', ']') == ["[my table]", "[x]"]
  {
    MyTableSplit();
    BracketedSegments();
  }

  lemma {:induction false} MyTableSplit()
    ensures Split(MyTable, '.') == ["my table", "x"]
  {
    assert Join(["my table", "x"], '.') == MyTable;
    SplitJoin(["my table", "x"], '.');
  }

  lemma {:induction false} BracketedSegments()
    ensures Enclose(["my table", "x"], '[', ']') == ["[my table]", "[x]"]
  {
    var e := Enclose(["my table", "x"], '[', ']');
    assert e[0] == "[my table]" && e[1] == "[x]";
  }

  /** SQL Server brackets each segment of "my table.x". */
  lemma {:induction false} SqlServerExample()
    ensures WrapByDb(Some(MyTable), SqlServer) == Some("[my table].[x]")
  {
    MyTableNeedsQuoting();
    assert WrapByDb(Some(MyTable), SqlServer) == Some(QuoteSegments(MyTable, '[', ']'));
    MyTableSegments();
    BracketedJoin();
  }

  lemma {:induction false} BracketedJoin()
    ensures Join(["[my table]", "[x]"], '.') == "[my table].[x]"
  {
    assert ["[my table]", "[x]"][1..] == ["[x]"];
  }
}
