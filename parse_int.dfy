/** `parseInt(text, 10)` as section 19.2.5 of ECMA-262 defines it, and the
    test-case key the viewer derives with it. A result of None stands for NaN. */
module JsParseInt {
  import opened Common

  /** The characters TrimString removes: WhiteSpace and LineTerminator
      (section 12.2 and 12.3 of ECMA-262), with the Zs category listed
      explicitly. */
  predicate IsStrWhiteSpace(c: char) {
    c in {'\t', '\U{B}', '\U{C}', ' ', '\U{A0}', '\U{FEFF}', '\n', '\r', '\U{2028}', '\U{2029}',
          '\U{1680}', '\U{2000}', '\U{2001}', '\U{2002}', '\U{2003}', '\U{2004}', '\U{2005}',
          '\U{2006}', '\U{2007}', '\U{2008}', '\U{2009}', '\U{200A}', '\U{202F}', '\U{205F}', '\U{3000}'}
  }

  function TrimStart(s: string): (r: string)
    ensures |r| <= |s| && r == s[|s| - |r|..]
    ensures r != [] ==> !IsStrWhiteSpace(r[0])
  {
    if s != [] && IsStrWhiteSpace(s[0]) then TrimStart(s[1..]) else s
  }

  /** The longest prefix of `s` made of decimal digits. */
  function LeadingDigits(s: string): (z: string)
    ensures |z| <= |s| && z == s[..|z|] && AllDigits(z)
    ensures |z| < |s| ==> !IsDigit(s[|z|])
  {
    if s != [] && IsDigit(s[0]) then [s[0]] + LeadingDigits(s[1..]) else []
  }

  /** `parseInt(s, 10)`: skip leading white space, take an optional sign,
      then the longest run of digits; no digits gives NaN. Negative zero is
      the integer 0 here, the comparator treats both alike. */
  function ParseInt(s: string): Option<int>
  {
    var t := TrimStart(s);
    if t != [] && t[0] == '-' then
      match ParseDigits(t[1..])
      case None => None
      case Some(v) => Some(-v)
    else if t != [] && t[0] == '+' then ParseDigits(t[1..])
    else ParseDigits(t)
  }

  /** The value of the digit run `s` starts with, or NaN if none. */
  function ParseDigits(u: string): (r: Option<int>)
    ensures r.None? <==> LeadingDigits(u) == []
  {
    var z := LeadingDigits(u);
    if z == [] then None else Some(DigitsValue(z))
  }

  /** `s.split('.')[0]`: the text before the first '.', or all of `s`. */
  function BeforeFirstDot(s: string): (p: string)
    ensures |p| <= |s| && p == s[..|p|]
    ensures '.' !in p
    ensures |p| < |s| ==> s[|p|] == '.'
  {
    if s == [] || s[0] == '.' then [] else [s[0]] + BeforeFirstDot(s[1..])
  }

  /** The sort key of a test case: `parseInt(name.split('.')[0], 10)`. */
  function CaseKey(name: string): Option<int>
  {
    ParseInt(BeforeFirstDot(name))
  }

  lemma {:induction false} LeadingDigitsOfPrefix(p: string, s: string)
    requires |p| <= |s| && p == s[..|p|]
    requires |p| < |s| ==> !IsDigit(s[|p|])
    ensures LeadingDigits(p) == LeadingDigits(s)
    decreases |p|
  {
    if p != [] && IsDigit(p[0]) {
      LeadingDigitsOfPrefix(p[1..], s[1..]);
    }
  }

  /** A name that starts with digits has as key the number those digits
      spell, whatever follows: "10.in" gives 10 and "2a.txt" gives 2. */
  lemma CaseKeyOfLeadingDigits(name: string)
    requires name != [] && IsDigit(name[0])
    ensures CaseKey(name) == Some(DigitsValue(LeadingDigits(name)))
  {
    var p := BeforeFirstDot(name);
    assert name[0] != '.';
    ParseIntOfDigitStart(p);
    LeadingDigitsOfPrefix(p, name);
  }

  lemma ParseIntOfDigitStart(p: string)
    requires p != [] && IsDigit(p[0])
    ensures ParseInt(p) == ParseDigits(p)
  {
    DigitIsNotWhiteSpace(p[0]);
    assert TrimStart(p) == p;
  }

  lemma DigitIsNotWhiteSpace(c: char)
    requires IsDigit(c)
    ensures !IsStrWhiteSpace(c)
  {
  }

  /** A name whose first character is neither white space, nor a sign, nor a
      digit has no key (NaN). */
  lemma CaseKeyAbsent(name: string)
    requires name == [] || !(IsStrWhiteSpace(name[0]) || name[0] == '-' || name[0] == '+' || IsDigit(name[0]))
    ensures CaseKey(name) == None
  {
    var p := BeforeFirstDot(name);
    if p != [] {
      assert p[0] == name[0];
      assert TrimStart(p) == p;
    }
  }

  /** The names the server gives test cases ("samples/…", "testcases/…")
      never have a key. */
  lemma ServerCaseNamesHaveNoKey(dirType: string, folder: string)
    requires dirType == "samples" || dirType == "testcases"
    ensures CaseKey(dirType + "/" + folder) == None
  {
    CaseKeyAbsent(dirType + "/" + folder);
  }

  /** Partner of NatToString: the key of "<n>.<ext>" is n. */
  lemma CaseKeyOfNumberedName(n: nat, ext: string)
    ensures CaseKey(NatToString(n) + "." + ext) == Some(n)
  {
    var digits := NatToString(n);
    BeforeFirstDotOfDigits(digits, ext);
    ParseIntOfDigitStart(digits);
    AllDigitsLeading(digits);
    NatToStringRoundTrip(n);
  }

  lemma {:induction false} BeforeFirstDotOfDigits(digits: string, rest: string)
    requires AllDigits(digits)
    ensures BeforeFirstDot(digits + "." + rest) == digits
    decreases |digits|
  {
    if digits == [] {
      assert (digits + "." + rest)[0] == '.';
    } else {
      assert (digits + "." + rest)[1..] == digits[1..] + "." + rest;
      BeforeFirstDotOfDigits(digits[1..], rest);
    }
  }

  lemma {:induction false} AllDigitsLeading(s: string)
    requires AllDigits(s)
    ensures LeadingDigits(s) == s
    decreases |s|
  {
    if s != [] {
      AllDigitsLeading(s[1..]);
    }
  }

  lemma ExampleKeyTwo()
    ensures CaseKey("2a.txt") == Some(2)
  {
    var name := "2a.txt";
    CaseKeyOfLeadingDigits(name);
    assert !IsDigit(name[1]);
    assert LeadingDigits(name[1..]) == [];
    assert LeadingDigits(name) == "2";
    assert DigitsValue("2") == 2 by { assert "2"[..0] == ""; }
  }

  lemma ExampleKeyServerName()
    ensures CaseKey("testcases/1") == None
  {
    ServerCaseNamesHaveNoKey("testcases", "1");
    assert "testcases" + "/" + "1" == "testcases/1";
  }
}
