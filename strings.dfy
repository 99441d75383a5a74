/** The JavaScript string primitives the core relies on, stated over `seq<char>`:
    `split` on one character and on whitespace runs, `join`, `trim`, `startsWith`,
    `replace` of a first occurrence, ASCII `toLowerCase`, the `/ +/g` collapse and
    decimal rendering of numbers in template strings. */
module Strings {

  /** Characters matched by the JavaScript class `\s`; `String.prototype.trim`
      strips exactly these. */
  predicate IsJsSpace(c: char) {
    var n := c as int;
    n == 0x09 || n == 0x0A || n == 0x0B || n == 0x0C || n == 0x0D || n == 0x20 ||
    n == 0xA0 || n == 0x1680 || (0x2000 <= n <= 0x200A) || n == 0x2028 ||
    n == 0x2029 || n == 0x202F || n == 0x205F || n == 0x3000 || n == 0xFEFF
  }

  /** Characters matched by `\w` (no `u` flag). */
  predicate IsWordChar(c: char) {
    ('a' <= c <= 'z') || ('A' <= c <= 'Z') || ('0' <= c <= '9') || c == '_'
  }

  function LowerChar(c: char): (d: char)
    ensures 'A' <= c <= 'Z' ==> 'a' <= d <= 'z' && d as int - c as int == 32
    ensures !('A' <= c <= 'Z') ==> d == c
  {
    if 'A' <= c <= 'Z' then (c as int + 32) as char else c
  }

  /** `toLowerCase` restricted to ASCII letters; other characters are kept. */
  function AsciiLower(s: string): (r: string)
    ensures |r| == |s|
    ensures forall i :: 0 <= i < |s| ==> r[i] == LowerChar(s[i])
  {
    seq(|s|, i requires 0 <= i < |s| => LowerChar(s[i]))
  }

  predicate StartsWith(s: string, prefix: string) {
    |prefix| <= |s| && s[..|prefix|] == prefix
  }

  /** A prefix one element longer. */
  lemma {:induction false} TakeOneMore<T>(s: seq<T>, i: nat)
    requires i < |s|
    ensures s[..i + 1] == s[..i] + [s[i]]
  {
  }

  lemma {:induction false} ConcatAssoc<T>(a: seq<T>, b: seq<T>, c: seq<T>)
    ensures (a + b) + c == a + (b + c)
  {
  }

  lemma {:induction false} EmptyConcat<T>(a: seq<T>)
    ensures [] + a == a
  {
  }

  // ---------------------------------------------------------------------------
  // split / join on one character

  /** `s.split(c)` for a one-character separator. */
  function Split(s: string, c: char): (r: seq<string>)
    ensures |r| >= 1
    ensures forall i :: 0 <= i < |r| ==> c !in r[i]
  {
    if s == [] then [""]
    else if s[0] == c then [""] + Split(s[1..], c)
    else
      var rest := Split(s[1..], c);
      [[s[0]] + rest[0]] + rest[1..]
  }

  /** `parts.join(c)`. */
  function Join(parts: seq<string>, c: char): string {
    if |parts| == 0 then ""
    else if |parts| == 1 then parts[0]
    else parts[0] + [c] + Join(parts[1..], c)
  }

  /** Joining the pieces of a split restores the original string. */
  lemma {:induction false} JoinSplit(s: string, c: char)
    ensures Join(Split(s, c), c) == s
  {
    if s == [] {
    } else if s[0] == c {
      var rest := Split(s[1..], c);
      JoinSplit(s[1..], c);
      assert Split(s, c) == [""] + rest;
      assert ([""] + rest)[1..] == rest;
      assert Join([""] + rest, c) == "" + [c] + Join(rest, c);
      assert s == [c] + s[1..];
    } else {
      var rest := Split(s[1..], c);
      JoinSplit(s[1..], c);
      JoinPrepend([s[0]], rest, c);
      assert s == [s[0]] + s[1..];
    }
  }

  /** Text put in front of the first piece is put in front of the join. */
  lemma {:induction false} JoinPrepend(x: string, parts: seq<string>, c: char)
    requires |parts| >= 1
    ensures Join([x + parts[0]] + parts[1..], c) == x + Join(parts, c)
  {
    var r := [x + parts[0]] + parts[1..];
    if |parts| > 1 {
      assert r[1..] == parts[1..];
      assert Join(r, c) == (x + parts[0]) + [c] + Join(parts[1..], c);
    }
  }

  /** Splitting a string whose first piece has no separator keeps that piece in front. */
  lemma {:induction false} SplitPrefix(a: string, b: string, c: char)
    requires c !in a
    ensures Split(a + b, c) == [a + Split(b, c)[0]] + Split(b, c)[1..]
  {
    if a == [] {
      assert a + b == b;
      var r := Split(b, c);
      assert r == [r[0]] + r[1..];
      assert a + r[0] == r[0];
    } else {
      var s := a + b;
      var t := a[1..];
      var sb := Split(b, c);
      SplitPrefix(t, b, c);
      assert s[0] == a[0] && a[0] != c;
      assert s[1..] == t + b;
      var rest := Split(t + b, c);
      assert rest == [t + sb[0]] + sb[1..];
      assert Split(s, c) == [[a[0]] + rest[0]] + rest[1..];
      assert [a[0]] + (t + sb[0]) == a + sb[0];
    }
  }

  /** A split yields a single piece exactly when the separator does not occur. */
  lemma {:induction false} SplitSingleIff(s: string, c: char)
    ensures |Split(s, c)| == 1 <==> c !in s
  {
    if s != [] {
      SplitSingleIff(s[1..], c);
      assert s == [s[0]] + s[1..];
    }
  }

  /** A leading separator splits off an empty piece. */
  lemma {:induction false} SplitAtSeparator(c: char, rest: string)
    ensures Split([c] + rest, c) == [""] + Split(rest, c)
  {
    assert ([c] + rest)[1..] == rest;
  }

  /** Splitting a join of separator-free pieces gives the pieces back. */
  lemma {:induction false} SplitJoin(parts: seq<string>, c: char)
    requires |parts| >= 1
    requires forall i :: 0 <= i < |parts| ==> c !in parts[i]
    ensures Split(Join(parts, c), c) == parts
  {
    if |parts| == 1 {
      SplitPrefix(parts[0], "", c);
      assert parts[0] + "" == parts[0];
      assert Split("", c) == [""];
      assert [parts[0] + ""] + [""][1..] == parts;
    } else {
      var tail := Join(parts[1..], c);
      SplitJoin(parts[1..], c);
      SplitPrefix(parts[0], [c] + tail, c);
      assert Join(parts, c) == parts[0] + ([c] + tail);
      assert ([c] + tail)[0] == c;
      assert ([c] + tail)[1..] == tail;
      assert Split([c] + tail, c) == [""] + parts[1..];
      assert parts[0] + "" == parts[0];
      assert parts == [parts[0]] + parts[1..];
    }
  }

  /** When the separator never occurs twice in a row, only the first and the last
      piece of a split can be empty. */
  lemma {:induction false} SplitInteriorNonEmpty(s: string, c: char)
    requires forall i :: 0 <= i < |s| - 1 ==> !(s[i] == c && s[i + 1] == c)
    ensures forall i :: 0 < i < |Split(s, c)| - 1 ==> Split(s, c)[i] != ""
  {
    if s != [] {
      var t := s[1..];
      var rest := Split(t, c);
      SplitInteriorNonEmpty(t, c);
      if s[0] == c {
        if |rest| >= 2 {
          assert t[0] != c;
          assert rest[0] == [t[0]] + Split(t[1..], c)[0];
        }
      }
    }
  }

  // ---------------------------------------------------------------------------
  // trim

  function TrimLeft(s: string): (r: string)
    ensures |r| <= |s| && r == s[|s| - |r|..]
    ensures r == [] || !IsJsSpace(r[0])
    ensures forall i :: 0 <= i < |s| - |r| ==> IsJsSpace(s[i])
  {
    if s != [] && IsJsSpace(s[0]) then TrimLeft(s[1..]) else s
  }

  function TrimRight(s: string): (r: string)
    ensures |r| <= |s| && r == s[..|r|]
    ensures r == [] || !IsJsSpace(r[|r| - 1])
    ensures forall i :: |r| <= i < |s| ==> IsJsSpace(s[i])
  {
    if s != [] && IsJsSpace(s[|s| - 1]) then TrimRight(s[..|s| - 1]) else s
  }

  /** `s.trim()`. */
  function Trim(s: string): (r: string)
    ensures r == [] || (!IsJsSpace(r[0]) && !IsJsSpace(r[|r| - 1]))
  {
    TrimLeft(TrimRight(s))
  }

  // ---------------------------------------------------------------------------
  // split on whitespace runs

  /** `s.split(/\s+/)`: the pieces between maximal runs of `\s`; a leading or
      trailing run yields an empty first or last piece. */
  function SplitWs(s: string): (r: seq<string>)
    ensures |r| >= 1
    ensures forall i, k :: 0 <= i < |r| && 0 <= k < |r[i]| ==> !IsJsSpace(r[i][k])
    decreases |s|
  {
    if s == [] then [""]
    else if IsJsSpace(s[0]) then [""] + SplitWs(TrimLeft(s))
    else
      var rest := SplitWs(s[1..]);
      [[s[0]] + rest[0]] + rest[1..]
  }

  predicate NoSpace(w: string) {
    forall k :: 0 <= k < |w| ==> !IsJsSpace(w[k])
  }

  /** A leading word without whitespace stays glued to the first piece. */
  lemma {:induction false} SplitWsPrefix(a: string, b: string)
    requires NoSpace(a)
    ensures SplitWs(a + b) == [a + SplitWs(b)[0]] + SplitWs(b)[1..]
  {
    if a == [] {
      assert a + b == b;
      var r := SplitWs(b);
      assert r == [r[0]] + r[1..];
      assert a + r[0] == r[0];
    } else {
      SplitWsPrefix(a[1..], b);
      assert (a + b)[0] == a[0];
      assert (a + b)[1..] == a[1..] + b;
      var rest := SplitWs(a[1..] + b);
      assert SplitWs(a + b) == [[a[0]] + rest[0]] + rest[1..];
      assert [a[0]] + (a[1..] + SplitWs(b)[0]) == a + SplitWs(b)[0];
    }
  }

  lemma {:induction false} TrimLeftRun(run: string, rest: string)
    requires forall i :: 0 <= i < |run| ==> IsJsSpace(run[i])
    requires rest == [] || !IsJsSpace(rest[0])
    ensures TrimLeft(run + rest) == rest
  {
    if run == [] {
      assert run + rest == rest;
    } else {
      assert (run + rest)[1..] == run[1..] + rest;
      TrimLeftRun(run[1..], rest);
    }
  }

  /** Words separated by single spaces split back into the words. */
  lemma {:induction false} SplitWsWords(parts: seq<string>)
    requires |parts| >= 1
    requires forall i :: 0 <= i < |parts| ==> parts[i] != [] && NoSpace(parts[i])
    ensures SplitWs(Join(parts, ' ')) == parts
  {
    if |parts| == 1 {
      SplitWsPrefix(parts[0], "");
      assert parts[0] + "" == parts[0];
    } else {
      var tail := Join(parts[1..], ' ');
      SplitWsWords(parts[1..]);
      assert Join(parts, ' ') == parts[0] + ([' '] + tail);
      SplitWsPrefix(parts[0], [' '] + tail);
      assert parts[1] != [] && parts[1][0] == tail[0] by {
        if |parts[1..]| == 1 {
          assert tail == parts[1];
        } else {
          assert tail == parts[1] + [' '] + Join(parts[2..], ' ');
          assert parts[1..][1..] == parts[2..];
        }
      }
      TrimLeftRun([' '], tail);
      assert SplitWs([' '] + tail) == [""] + SplitWs(tail);
      assert parts[0] + "" == parts[0];
      assert parts == [parts[0]] + parts[1..];
    }
  }

  // ---------------------------------------------------------------------------
  // replace

  /** `s.replace(pat, "")` with a string pattern: the first occurrence is removed. */
  function RemoveFirst(s: string, pat: string): (r: string)
    ensures |r| <= |s|
  {
    if StartsWith(s, pat) then s[|pat|..]
    else if s == [] then []
    else [s[0]] + RemoveFirst(s[1..], pat)
  }

  lemma {:induction false} RemoveFirstOfPrefix(s: string, pat: string)
    requires StartsWith(s, pat)
    ensures RemoveFirst(s, pat) == s[|pat|..]
  {
  }

  /** A `replace(/[...]+/g, "")` with a character class: every character of `bad` is removed. */
  function RemoveChars(s: string, bad: set<char>): (r: string)
    ensures |r| <= |s|
    ensures forall i :: 0 <= i < |r| ==> r[i] !in bad
  {
    if s == [] then []
    else if s[0] in bad then RemoveChars(s[1..], bad)
    else [s[0]] + RemoveChars(s[1..], bad)
  }

  /** Removal distributes over concatenation, so kept characters stay in order. */
  lemma {:induction false} RemoveCharsConcat(a: string, b: string, bad: set<char>)
    ensures RemoveChars(a + b, bad) == RemoveChars(a, bad) + RemoveChars(b, bad)
  {
    if a == [] {
      assert a + b == b;
    } else {
      assert (a + b)[0] == a[0];
      assert (a + b)[1..] == a[1..] + b;
      RemoveCharsConcat(a[1..], b, bad);
    }
  }

  /** A string with no character from `bad` is left as it is. */
  lemma {:induction false} RemoveCharsClean(s: string, bad: set<char>)
    requires forall i :: 0 <= i < |s| ==> s[i] !in bad
    ensures RemoveChars(s, bad) == s
  {
    if s != [] {
      RemoveCharsClean(s[1..], bad);
      assert s == [s[0]] + s[1..];
    }
  }

  /** A character survives removal exactly when it is in `s` and not in `bad`. */
  lemma {:induction false} RemoveCharsMembers(s: string, bad: set<char>, c: char)
    ensures c in RemoveChars(s, bad) <==> c in s && c !in bad
  {
    if s != [] {
      RemoveCharsMembers(s[1..], bad, c);
      assert s == [s[0]] + s[1..];
    }
  }

  // ---------------------------------------------------------------------------
  // the `/ +/g` -> " " collapse

  /** `s.replace(/ +/g, " ")`: every run of spaces becomes one space. */
  function CollapseSpaces(s: string): (r: string)
    ensures |r| <= |s|
    ensures forall i :: 0 <= i < |r| - 1 ==> !(r[i] == ' ' && r[i + 1] == ' ')
    ensures s != [] ==> r != [] && r[0] == s[0]
  {
    if s == [] then []
    else if |s| >= 2 && s[0] == ' ' && s[1] == ' ' then CollapseSpaces(s[1..])
    else [s[0]] + CollapseSpaces(s[1..])
  }

  /** Collapsing removes only spaces: the non-space characters are the same, in order. */
  function NonSpace(s: string): string {
    RemoveChars(s, {' '})
  }

  lemma {:induction false} CollapseKeepsNonSpace(s: string)
    ensures NonSpace(CollapseSpaces(s)) == NonSpace(s)
  {
    if s != [] {
      CollapseKeepsNonSpace(s[1..]);
      if |s| >= 2 && s[0] == ' ' && s[1] == ' ' {
      } else {
        RemoveCharsConcat([s[0]], CollapseSpaces(s[1..]), {' '});
        RemoveCharsConcat([s[0]], s[1..], {' '});
        assert s == [s[0]] + s[1..];
      }
    }
  }

  /** A collapsed string stays the same when collapsed again. */
  lemma {:induction false} CollapseIdempotent(s: string)
    ensures CollapseSpaces(CollapseSpaces(s)) == CollapseSpaces(s)
  {
    if s != [] {
      CollapseIdempotent(s[1..]);
      if |s| >= 2 && s[0] == ' ' && s[1] == ' ' {
      } else {
        var t := CollapseSpaces(s[1..]);
        var r := [s[0]] + t;
        assert r[1..] == t;
        if |s| >= 2 {
          assert t[0] == s[1];
        }
        assert !(|r| >= 2 && r[0] == ' ' && r[1] == ' ');
      }
    }
  }

  // ---------------------------------------------------------------------------
  // decimal numbers in template strings

  function DigitChar(d: nat): char
    requires d < 10
  {
    ('0' as int + d) as char
  }

  /** `${n}` for a non-negative integer. */
  function NatToString(n: nat): (r: string)
    ensures |r| >= 1
    ensures forall i :: 0 <= i < |r| ==> '0' <= r[i] <= '9'
    decreases n
  {
    if n < 10 then [DigitChar(n)] else NatToString(n / 10) + [DigitChar(n % 10)]
  }

  /** The value of a string of decimal digits. */
  function DecimalValue(s: string): nat
    requires forall i :: 0 <= i < |s| ==> '0' <= s[i] <= '9'
  {
    if s == [] then 0
    else DecimalValue(s[..|s| - 1]) * 10 + (s[|s| - 1] as int - '0' as int)
  }

  /** Rendering a number in decimal loses nothing. */
  lemma {:induction false} DecimalRoundTrip(n: nat)
    ensures DecimalValue(NatToString(n)) == n
  {
    if n >= 10 {
      DecimalRoundTrip(n / 10);
      var s := NatToString(n);
      assert s[..|s| - 1] == NatToString(n / 10);
    }
  }
}
