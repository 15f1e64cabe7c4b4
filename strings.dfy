/** String helpers with the semantics of the JavaScript built-ins the translator relies on. */
module Strings {

  /** `s.startsWith(p)` */
  predicate StartsWith(s: string, p: string) {
    |p| <= |s| && s[..|p|] == p
  }

  // ---------------------------------------------------------------------------
  // Decimal rendering of naturals (`String(n)`, `${n}`) and its inverse
  // ---------------------------------------------------------------------------

  predicate IsDigit(c: char) { '0' <= c <= '9' }

  function DigitChar(d: nat): (c: char)
    requires d < 10
    ensures IsDigit(c)
  {
    ['0', '1', '2', '3', '4', '5', '6', '7', '8', '9'][d]
  }

  function DigitValue(c: char): (d: nat)
    requires IsDigit(c)
    ensures d < 10
  {
    c as int - '0' as int
  }

  /** The shortest decimal rendering of `n`. */
  function NatToString(n: nat): (r: string)
    ensures |r| > 0
    ensures forall i :: 0 <= i < |r| ==> IsDigit(r[i])
    decreases n
  {
    if n < 10 then [DigitChar(n)] else NatToString(n / 10) + [DigitChar(n % 10)]
  }

  /** Reads a non-empty string of digits back as a number. */
  function ParseNat(s: string): nat
    requires forall i :: 0 <= i < |s| ==> IsDigit(s[i])
    decreases |s|
  {
    if s == [] then 0 else ParseNat(s[..|s| - 1]) * 10 + DigitValue(s[|s| - 1])
  }

  lemma DigitRoundTrip(d: nat)
    requires d < 10
    ensures DigitValue(DigitChar(d)) == d
  {
  }

  /** Rendering a number in decimal and reading it back gives the number. */
  lemma {:induction false} NatToStringRoundTrip(n: nat)
    ensures ParseNat(NatToString(n)) == n
    decreases n
  {
    var r := NatToString(n);
    if n < 10 {
      DigitRoundTrip(n);
    } else {
      NatToStringRoundTrip(n / 10);
      DigitRoundTrip(n % 10);
      assert r[..|r| - 1] == NatToString(n / 10);
    }
  }

  // ---------------------------------------------------------------------------
  // `String.prototype.trim`
  // ---------------------------------------------------------------------------

  /** The WhiteSpace and LineTerminator code points that JavaScript's `trim` removes. */
  predicate IsJsSpace(c: char) {
    || c == '\t' || c == '\n' || c == '\U{000B}' || c == '\U{000C}' || c == '\r' || c == ' '
    || c == '\U{00A0}' || c == '\U{1680}' || ('\U{2000}' <= c <= '\U{200A}')
    || c == '\U{2028}' || c == '\U{2029}' || c == '\U{202F}' || c == '\U{205F}'
    || c == '\U{3000}' || c == '\U{FEFF}'
  }

  function TrimStart(s: string): (r: string)
    ensures |r| <= |s| && r == s[|s| - |r|..]
    ensures forall i :: 0 <= i < |s| - |r| ==> IsJsSpace(s[i])
    ensures r == [] || !IsJsSpace(r[0])
  {
    if s != [] && IsJsSpace(s[0]) then
      var r := TrimStart(s[1..]);
      assert forall i :: 1 <= i < |s| - |r| ==> s[i] == s[1..][i - 1];
      r
    else s
  }

  function TrimEnd(s: string): (r: string)
    ensures |r| <= |s| && r == s[..|r|]
    ensures forall i :: |r| <= i < |s| ==> IsJsSpace(s[i])
    ensures r == [] || !IsJsSpace(r[|r| - 1])
  {
    if s != [] && IsJsSpace(s[|s| - 1]) then TrimEnd(s[..|s| - 1]) else s
  }

  /** `s.trim()`: the longest middle slice with no surrounding white space. */
  function Trim(s: string): (r: string)
    ensures |r| <= |s|
    ensures r == [] || (!IsJsSpace(r[0]) && !IsJsSpace(r[|r| - 1]))
    ensures s != [] && !IsJsSpace(s[0]) && !IsJsSpace(s[|s| - 1]) ==> r == s
    ensures exists a, b ::
      && 0 <= a <= b <= |s| && r == s[a..b]
      && (forall i :: 0 <= i < a ==> IsJsSpace(s[i]))
      && (forall i :: b <= i < |s| ==> IsJsSpace(s[i]))
  {
    var t := TrimStart(s);
    var r := TrimEnd(t);
    MiddleSlice(s, t, r, IsJsSpace);
    r
  }

  /**
   * Dropping a run of `p` from the front and then one from the back leaves a middle
   * slice with only `p` around it.
   */
  lemma MiddleSlice<T>(s: seq<T>, t: seq<T>, r: seq<T>, p: T -> bool)
    requires |t| <= |s| && t == s[|s| - |t|..] && forall i :: 0 <= i < |s| - |t| ==> p(s[i])
    requires |r| <= |t| && r == t[..|r|] && forall i :: |r| <= i < |t| ==> p(t[i])
    ensures exists a, b ::
      && 0 <= a <= b <= |s| && r == s[a..b]
      && (forall i :: 0 <= i < a ==> p(s[i]))
      && (forall i :: b <= i < |s| ==> p(s[i]))
  {
    var a := |s| - |t|;
    var b := a + |r|;
    forall i | b <= i < |s| ensures p(s[i]) {
      assert s[i] == t[i - a];
    }
    assert r == s[a..b];
  }

  /** A string that neither starts nor ends with white space is its own trim. */
  lemma TrimKeeps(s: string)
    requires s != [] && !IsJsSpace(s[0]) && !IsJsSpace(s[|s| - 1])
    ensures Trim(s) == s
  {
  }

  /** A string made only of white space trims to the empty string. */
  lemma TrimAllSpace(s: string)
    requires forall i :: 0 <= i < |s| ==> IsJsSpace(s[i])
    ensures Trim(s) == ""
  {
  }

  // ---------------------------------------------------------------------------
  // `s.split(sep)` for a one-character separator, and `parts.join(sep)`
  // ---------------------------------------------------------------------------

  /** Extends the pieces of a split by one more character of the input. */
  function SplitStep(pieces: seq<string>, c: char, sep: char): (r: seq<string>)
    requires |pieces| > 0
  {
    if c == sep then pieces + [""]
    else pieces[..|pieces| - 1] + [pieces[|pieces| - 1] + [c]]
  }

  /** `s.split(sep)`: the pieces between separators, always at least one. */
  function Split(s: string, sep: char): (r: seq<string>)
    ensures |r| > 0
  {
    if s == [] then [""] else SplitStep(Split(s[..|s| - 1], sep), s[|s| - 1], sep)
  }

  /** `parts.join(sep)` */
  function Join(parts: seq<string>, sep: string): string {
    if |parts| == 0 then ""
    else if |parts| == 1 then parts[0]
    else Join(parts[..|parts| - 1], sep) + sep + parts[|parts| - 1]
  }

  function Last<T>(s: seq<T>): T
    requires |s| > 0
  {
    s[|s| - 1]
  }

  /** No piece of a split contains the separator. */
  lemma {:induction false} SplitPiecesFree(s: string, sep: char)
    ensures forall i :: 0 <= i < |Split(s, sep)| ==> sep !in Split(s, sep)[i]
  {
    if s != [] {
      SplitPiecesFree(s[..|s| - 1], sep);
    }
  }

  /** Joining the pieces of a split with the separator gives the input back. */
  lemma {:induction false} SplitJoin(s: string, sep: char)
    ensures Join(Split(s, sep), [sep]) == s
  {
    if s != [] {
      var init := s[..|s| - 1];
      var c := s[|s| - 1];
      var p := Split(init, sep);
      SplitJoin(init, sep);
      if c == sep {
        assert (p + [""])[..|p|] == p;
      } else if |p| == 1 {
      } else {
        var q := p[..|p| - 1] + [Last(p) + [c]];
        assert q[..|q| - 1] == p[..|p| - 1];
        assert Join(p, [sep]) == Join(p[..|p| - 1], [sep]) + [sep] + Last(p);
      }
      assert s == init + [c];
    }
  }

  /** A string without the separator splits into itself alone. */
  lemma {:induction false} SplitFree(s: string, sep: char)
    requires sep !in s
    ensures Split(s, sep) == [s]
  {
    if s != [] {
      SplitFree(s[..|s| - 1], sep);
      assert s == s[..|s| - 1] + [s[|s| - 1]];
    }
  }

  /** Extending a split only touches its last piece. */
  lemma SplitStepAfter(pre: seq<string>, q: seq<string>, c: char, sep: char)
    requires |q| > 0
    ensures SplitStep(pre + q, c, sep) == pre + SplitStep(q, c, sep)
  {
    if c != sep {
      assert (pre + q)[..|pre + q| - 1] == pre + q[..|q| - 1];
    }
  }

  /** One more character at the end of the input is one more `SplitStep`. */
  lemma SplitSnoc(s: string, c: char, sep: char)
    ensures Split(s + [c], sep) == SplitStep(Split(s, sep), c, sep)
  {
    assert (s + [c])[..|s + [c]| - 1] == s;
  }

  /** The last piece of a split splits into itself, so re-splitting it changes nothing. */
  lemma SplitLastPiece(a: string, sep: char)
    ensures var pa := Split(a, sep); pa == pa[..|pa| - 1] + Split(Last(pa), sep)
  {
    var pa := Split(a, sep);
    SplitPiecesFree(a, sep);
    SplitFree(Last(pa), sep);
    assert pa == pa[..|pa| - 1] + [Last(pa)];
  }

  /**
   * Splitting `a + b` is splitting `a`, except that its unfinished last piece is
   * continued by `b`. This is what lets a reader hold back the trailing partial line.
   */
  lemma {:induction false} SplitAppend(a: string, b: string, sep: char)
    ensures Split(a + b, sep)
         == Split(a, sep)[..|Split(a, sep)| - 1] + Split(Last(Split(a, sep)) + b, sep)
    decreases |b|
  {
    var pa := Split(a, sep);
    var pre := pa[..|pa| - 1];
    if b == [] {
      assert a + b == a;
      assert Last(pa) + b == Last(pa);
      SplitLastPiece(a, sep);
    } else {
      var b' := b[..|b| - 1];
      var c := b[|b| - 1];
      assert b == b' + [c];
      assert a + b == (a + b') + [c];
      assert Last(pa) + b == (Last(pa) + b') + [c];
      SplitAppend(a, b', sep);
      SplitSnocAfter(a + b', Last(pa) + b', pre, c, sep);
    }
  }

  /** Two inputs whose splits agree after a common prefix of pieces still agree after one more character. */
  lemma SplitSnocAfter(u: string, v: string, pre: seq<string>, c: char, sep: char)
    requires Split(u, sep) == pre + Split(v, sep)
    ensures Split(u + [c], sep) == pre + Split(v + [c], sep)
  {
    SplitSnoc(u, c, sep);
    SplitStepAfter(pre, Split(v, sep), c, sep);
    SplitSnoc(v, c, sep);
  }

  /** A separator after a separator-free prefix ends the first piece exactly there. */
  lemma SplitAtSeparator(a: string, b: string, sep: char)
    requires sep !in a
    ensures Split(a + [sep] + b, sep) == [a] + Split(b, sep)
  {
    SplitFree(a, sep);
    assert (a + [sep])[..|a + [sep]| - 1] == a;
    assert Split(a + [sep], sep) == [a, ""];
    SplitAppend(a + [sep], b, sep);
    assert "" + b == b;
  }

  /** Two separator-free lines, each ended by the separator, then one more separator. */
  lemma SplitTwoLinesAndBlank(x: string, y: string, sep: char)
    requires sep !in x && sep !in y
    ensures Split(x + [sep] + y + [sep, sep], sep) == [x, y, "", ""]
  {
    AppendAssoc(x + [sep], y, [sep, sep]);
    SplitAtSeparator(x, y + [sep, sep], sep);
    assert y + [sep, sep] == y + [sep] + [sep];
    SplitAtSeparator(y, [sep], sep);
    assert "" + [sep] + "" == [sep];
    SplitAtSeparator("", "", sep);
  }

  /** A separator before a separator-free suffix starts the last piece exactly there. */
  lemma SplitAtLastSeparator(a: string, b: string, sep: char)
    requires sep !in b
    ensures Split(a + [sep] + b, sep) == Split(a, sep) + [b]
  {
    var pa := Split(a, sep);
    SplitPiecesFree(a, sep);
    AppendAssoc(a, [sep], b);
    SplitAppend(a, [sep] + b, sep);
    AppendAssoc(Last(pa), [sep], b);
    SplitAtSeparator(Last(pa), b, sep);
    SplitFree(b, sep);
    InitLastAppend(pa, [b]);
  }

  lemma AppendAssoc<T>(x: seq<T>, y: seq<T>, z: seq<T>)
    ensures x + y + z == x + (y + z)
  {
  }

  /** Dropping the last element of `x + y`, for a non-empty `y`, drops it from `y`. */
  lemma SnocSplit<T>(x: seq<T>, y: seq<T>)
    requires |y| > 0
    ensures (x + y)[..|x + y| - 1] == x + y[..|y| - 1]
    ensures (x + y)[|x + y| - 1] == y[|y| - 1]
  {
  }

  lemma EmptyAround<T>(x: seq<T>, y: seq<T>, z: seq<T>)
    requires x == [] && z == []
    ensures x + y + z == y
  {
  }

  lemma InitLastAppend<T>(xs: seq<T>, ys: seq<T>)
    requires |xs| > 0
    ensures xs[..|xs| - 1] + ([xs[|xs| - 1]] + ys) == xs + ys
  {
  }

  /** Joining separator-free pieces and splitting again gives the pieces back. */
  lemma {:induction false} JoinSplit(parts: seq<string>, sep: char)
    requires |parts| > 0
    requires forall i :: 0 <= i < |parts| ==> sep !in parts[i]
    ensures Split(Join(parts, [sep]), sep) == parts
    decreases |parts|
  {
    if |parts| == 1 {
      SplitFree(parts[0], sep);
    } else {
      var init := parts[..|parts| - 1];
      var last := parts[|parts| - 1];
      assert forall i :: 0 <= i < |init| ==> init[i] == parts[i];
      JoinSplit(init, sep);
      assert Join(parts, [sep]) == Join(init, [sep]) + [sep] + last;
      SplitAtLastSeparator(Join(init, [sep]), last, sep);
      assert init + [last] == parts;
    }
  }

  /** Joining a list is its head, the separator, and the joined rest. */
  lemma {:induction false} JoinCons(x: string, rest: seq<string>, sep: string)
    requires |rest| > 0
    ensures Join([x] + rest, sep) == x + sep + Join(rest, sep)
    decreases |rest|
  {
    var all := [x] + rest;
    if |rest| > 1 {
      assert all[..|all| - 1] == [x] + rest[..|rest| - 1];
      JoinCons(x, rest[..|rest| - 1], sep);
    } else {
      assert all[..|all| - 1] == [x];
    }
  }
}
