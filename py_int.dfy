/** Python's `int(text)` on a string, base 10: surrounding white space is
    stripped, one sign may come first, and the digits may be grouped by
    single underscores. Any other text raises ValueError, written None here. */
module PythonInt {
  import opened Common

  /** The white space `int()` skips at either end of its text. CPython
      first turns every non-ASCII character `str.isspace()` accepts into a
      space and leaves ASCII alone, then skips the C-locale white space:
      tab to carriage return and space. So the non-ASCII spaces are skipped
      but the ASCII separators 0x1C to 0x1F, which `str.isspace()` also
      accepts, are not. */
  predicate IsPySpace(c: char): (b: bool)
    ensures c < '\U{80}' ==> (b <==> ('\t' <= c <= '\r' || c == ' '))
    ensures b ==> !DigitOrUnderscore(c) && c != '+' && c != '-'
  {
    || ('\t' <= c <= '\r')
    || c == ' '
    || c == '\U{85}' || c == '\U{A0}' || c == '\U{1680}'
    || ('\U{2000}' <= c <= '\U{200A}')
    || c == '\U{2028}' || c == '\U{2029}' || c == '\U{202F}' || c == '\U{205F}' || c == '\U{3000}'
  }

  function StripStart(s: string): (r: string)
    ensures |r| <= |s| && r == s[|s| - |r|..]
    ensures r != [] ==> !IsPySpace(r[0])
    ensures forall i :: 0 <= i < |s| - |r| ==> IsPySpace(s[i])
  {
    if s != [] && IsPySpace(s[0]) then StripStart(s[1..]) else s
  }

  function StripEnd(s: string): (r: string)
    ensures |r| <= |s| && r == s[..|r|]
    ensures r != [] ==> !IsPySpace(r[|r| - 1])
    ensures forall i :: |r| <= i < |s| ==> IsPySpace(s[i])
  {
    if s != [] && IsPySpace(s[|s| - 1]) then StripEnd(s[..|s| - 1]) else s
  }

  /** The text with the white space `int()` skips removed from both ends. */
  function Strip(s: string): (r: string)
    ensures |r| <= |s|
    ensures r != [] ==> !IsPySpace(r[0]) && !IsPySpace(r[|r| - 1])
  {
    StripEnd(StripStart(s))
  }

  predicate DigitOrUnderscore(c: char) {
    IsDigit(c) || c == '_'
  }

  /** A non-empty run of digits in which every underscore stands between
      two digits: "1_000" but not "_1", "1_" or "1__0". */
  predicate Grouped(u: string) {
    && u != []
    && (forall i :: 0 <= i < |u| ==> DigitOrUnderscore(u[i]))
    && IsDigit(u[0]) && IsDigit(u[|u| - 1])
    && (forall i :: 0 <= i < |u| - 1 ==> u[i] == '_' ==> u[i + 1] != '_')
  }

  /** The value of a grouped run: the digits read in order, underscores
      skipped. */
  function GroupedValue(u: string): nat
    requires forall i :: 0 <= i < |u| ==> DigitOrUnderscore(u[i])
  {
    if u == [] then 0
    else if u[|u| - 1] == '_' then GroupedValue(u[..|u| - 1])
    else
      assert DigitOrUnderscore(u[|u| - 1]);
      GroupedValue(u[..|u| - 1]) * 10 + ((u[|u| - 1] as int) - ('0' as int))
  }

  /** What `int()` makes of text already stripped: an optional sign, then a
      grouped run of digits. */
  function SignedValue(t: string): Option<int> {
    if t != [] && (t[0] == '+' || t[0] == '-') then
      var u := t[1..];
      if !Grouped(u) then None
      else
        var v: int := GroupedValue(u);
        if t[0] == '-' then Some(-v) else Some(v)
    else if Grouped(t) then Some(GroupedValue(t))
    else None
  }

  /** `int(s)`. */
  function PyInt(s: string): Option<int> {
    SignedValue(Strip(s))
  }

  // ---- stripping ----

  lemma DigitIsNotPySpace(c: char)
    requires IsDigit(c)
    ensures !IsPySpace(c)
  {
  }

  /** Text with no white space at either end is not changed by stripping. */
  lemma {:induction false} StripUnchanged(t: string)
    requires t != [] && !IsPySpace(t[0]) && !IsPySpace(t[|t| - 1])
    ensures Strip(t) == t
  {
    assert StripStart(t) == t;
  }

  /** Stripping removes only white space from the ends: every other
      character survives, shifted left by the same offset. */
  lemma {:induction false} StripOffset(s: string) returns (off: nat)
    ensures forall k :: 0 <= k < |s| && !IsPySpace(s[k]) ==>
      off <= k < off + |Strip(s)| && Strip(s)[k - off] == s[k]
  {
    var s1 := StripStart(s);
    off := |s| - |s1|;
    var t := StripEnd(s1);
    forall k | 0 <= k < |s| && !IsPySpace(s[k]) ensures off <= k < off + |t| && t[k - off] == s[k] {
      assert s1[k - off] == s[k];
    }
  }

  // ---- the signed, grouped text ----

  lemma {:induction false} NotGroupedAt(u: string, j: nat)
    requires j + 1 < |u| && u[j] == '_' && u[j + 1] == '_'
    ensures !Grouped(u)
  {
  }

  lemma {:induction false} SignedOfGrouped(u: string)
    requires Grouped(u)
    ensures SignedValue(u) == Some(GroupedValue(u))
  {
  }

  lemma {:induction false} SignedOfNegated(u: string)
    requires Grouped(u)
    ensures SignedValue("-" + u) == Some(-(GroupedValue(u) as int))
  {
    assert ("-" + u)[1..] == u;
  }

  lemma {:induction false} SignedRejects(t: string, j: nat)
    requires j < |t| && !DigitOrUnderscore(t[j]) && t[j] != '+' && t[j] != '-'
    ensures SignedValue(t) == None
  {
    if t[0] == '+' || t[0] == '-' {
      assert t[1..][j - 1] == t[j];
    }
  }

  lemma {:induction false} SignedDoubleUnderscore(t: string, j: nat)
    requires j + 1 < |t| && t[j] == '_' && t[j + 1] == '_'
    ensures SignedValue(t) == None
  {
    if t[0] == '+' || t[0] == '-' {
      NotGroupedAt(t[1..], j - 1);
    } else {
      NotGroupedAt(t, j);
    }
  }

  // ---- int() ----

  lemma {:induction false} GroupedValueOfDigits(u: string)
    requires AllDigits(u)
    ensures GroupedValue(u) == DigitsValue(u)
    decreases |u|
  {
    if u != [] {
      GroupedValueOfDigits(u[..|u| - 1]);
    }
  }

  /** A grouped run reads as its value. */
  lemma {:induction false} PyIntOfGrouped(u: string)
    requires Grouped(u)
    ensures PyInt(u) == Some(GroupedValue(u))
  {
    DigitIsNotPySpace(u[0]);
    DigitIsNotPySpace(u[|u| - 1]);
    StripUnchanged(u);
    SignedOfGrouped(u);
  }

  /** A plain run of decimal digits reads as the number it spells. */
  lemma {:induction false} PyIntOfDigits(d: string)
    requires d != [] && AllDigits(d)
    ensures PyInt(d) == Some(DigitsValue(d))
  {
    assert Grouped(d);
    PyIntOfGrouped(d);
    GroupedValueOfDigits(d);
  }

  /** A minus sign before the digits negates the number. */
  lemma {:induction false} PyIntOfNegated(d: string)
    requires d != [] && AllDigits(d)
    ensures PyInt("-" + d) == Some(-(DigitsValue(d) as int))
  {
    var t := "-" + d;
    DigitIsNotPySpace(d[|d| - 1]);
    assert t[0] == '-' && t[|t| - 1] == d[|d| - 1];
    StripUnchanged(t);
    assert Grouped(d);
    SignedOfNegated(d);
    GroupedValueOfDigits(d);
  }

  /** Partner of the decimal rendering: `int(str(n)) == n`. */
  lemma PyIntOfNat(n: nat)
    ensures PyInt(NatToString(n)) == Some(n)
  {
    PyIntOfDigits(NatToString(n));
    NatToStringRoundTrip(n);
  }

  /** A character that is neither white space, a digit, an underscore nor a
      sign makes `int()` raise, wherever it stands. */
  lemma {:induction false} PyIntRejects(s: string, i: nat)
    requires i < |s| && !IsPySpace(s[i]) && !DigitOrUnderscore(s[i]) && s[i] != '+' && s[i] != '-'
    ensures PyInt(s) == None
  {
    var off := StripOffset(s);
    var t := Strip(s);
    assert off <= i < off + |t| && t[i - off] == s[i];
    SignedRejects(t, i - off);
  }

  /** The ASCII separators 0x1C to 0x1F are not skipped: one anywhere in
      the text makes `int()` raise, although `str.isspace()` accepts it. */
  lemma {:induction false} PyIntRejectsSeparator(s: string, i: nat)
    requires i < |s| && '\U{1C}' <= s[i] <= '\U{1F}'
    ensures PyInt(s) == None
  {
    PyIntRejects(s, i);
  }

  /** Two underscores in a row make `int()` raise, wherever they stand. */
  lemma {:induction false} PyIntDoubleUnderscore(s: string, i: nat)
    requires i + 1 < |s| && s[i] == '_' && s[i + 1] == '_'
    ensures PyInt(s) == None
  {
    var off := StripOffset(s);
    assert !IsPySpace(s[i]) && !IsPySpace(s[i + 1]);
    SignedDoubleUnderscore(Strip(s), i - off);
  }

  /** The empty text, and so the text after the first character of a
      one-character name, raises. */
  lemma PyIntEmpty()
    ensures PyInt("") == None
  {
    assert Strip("") == "";
  }

  /** Underscores are read over: one between two digit groups does not
      change the value. */
  lemma {:induction false} GroupedValueSkipsUnderscore(a: string, b: string)
    requires forall i :: 0 <= i < |a| ==> DigitOrUnderscore(a[i])
    requires forall i :: 0 <= i < |b| ==> DigitOrUnderscore(b[i])
    ensures forall i :: 0 <= i < |a + "_" + b| ==> DigitOrUnderscore((a + "_" + b)[i])
    ensures forall i :: 0 <= i < |a + b| ==> DigitOrUnderscore((a + b)[i])
    ensures GroupedValue(a + "_" + b) == GroupedValue(a + b)
    decreases |b|
  {
    if b == [] {
      assert a + "_" + b == a + "_" && (a + "_")[..|a|] == a && a + b == a;
    } else {
      var b' := b[..|b| - 1];
      GroupedValueSkipsUnderscore(a, b');
      assert (a + "_" + b)[..|a + "_" + b| - 1] == a + "_" + b';
      assert (a + b)[..|a + b| - 1] == a + b';
    }
  }

  /** `int(a + "_" + b) == int(a + b)` for two runs of digits. */
  lemma {:induction false} PyIntGroupSeparator(a: string, b: string)
    requires a != [] && AllDigits(a) && b != [] && AllDigits(b)
    ensures PyInt(a + "_" + b) == Some(DigitsValue(a + b))
  {
    var u := a + "_" + b;
    GroupedValueSkipsUnderscore(a, b);
    forall i | 0 <= i < |u| - 1 && u[i] == '_' ensures u[i + 1] != '_' {
      assert i == |a|;
      assert u[i + 1] == b[0];
    }
    assert u[|u| - 1] == b[|b| - 1];
    assert Grouped(u);
    PyIntOfGrouped(u);
    assert AllDigits(a + b);
    GroupedValueOfDigits(a + b);
  }

  lemma ExampleDoubleUnderscore()
    ensures PyInt("1__0") == None
  {
    PyIntDoubleUnderscore("1__0", 1);
  }

  /** The separator 0x1C is not white space to `int()`: "\x1c5" raises. */
  lemma ExampleSeparatorRejected()
    ensures PyInt("\U{1C}5") == None
  {
    PyIntRejectsSeparator("\U{1C}5", 0);
  }

  lemma ExampleLetters()
    ensures PyInt("mp") == None
  {
    PyIntRejects("mp", 0);
  }
}
