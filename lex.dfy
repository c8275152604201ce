/** Python's ordering of `str` values (code point by code point, a proper
    prefix first) and `sorted` on a list of strings. */
module Lex {

  predicate Less(a: string, b: string) {
    if a == [] then b != []
    else b != [] && (a[0] < b[0] || (a[0] == b[0] && Less(a[1..], b[1..])))
  }

  lemma {:induction false} LessIrreflexive(a: string)
    ensures !Less(a, a)
    decreases |a|
  {
    if a != [] {
      LessIrreflexive(a[1..]);
    }
  }

  lemma {:induction false} LessTransitive(a: string, b: string, c: string)
    requires Less(a, b) && Less(b, c)
    ensures Less(a, c)
    decreases |a|
  {
    if a != [] && a[0] == b[0] && b[0] == c[0] {
      LessTransitive(a[1..], b[1..], c[1..]);
    }
  }

  lemma {:induction false} LessTotal(a: string, b: string)
    ensures a == b || Less(a, b) || Less(b, a)
    decreases |a|
  {
    if a != [] && b != [] && a[0] == b[0] {
      LessTotal(a[1..], b[1..]);
      if a[1..] == b[1..] {
        assert a == [a[0]] + a[1..] && b == [b[0]] + b[1..];
      }
    }
  }

  lemma LessAsymmetric(a: string, b: string)
    requires Less(a, b)
    ensures !Less(b, a)
  {
    if Less(b, a) {
      LessTransitive(a, b, a);
      LessIrreflexive(a);
    }
  }

  ghost predicate SortedLex(s: seq<string>) {
    forall i, j :: 0 <= i < j < |s| ==> !Less(s[j], s[i])
  }

  /** Places `x` after every element not greater than it. */
  function InsertLex(s: seq<string>, x: string): seq<string> {
    if s == [] then [x]
    else if Less(x, s[|s| - 1]) then InsertLex(s[..|s| - 1], x) + [s[|s| - 1]]
    else s + [x]
  }

  /** `sorted(names)`. */
  function SortStrings(s: seq<string>): seq<string> {
    if s == [] then [] else InsertLex(SortStrings(s[..|s| - 1]), s[|s| - 1])
  }

  lemma {:induction false} InsertLexPermutes(s: seq<string>, x: string)
    ensures multiset(InsertLex(s, x)) == multiset(s) + multiset{x}
    decreases |s|
  {
    if s != [] && Less(x, s[|s| - 1]) {
      InsertLexPermutes(s[..|s| - 1], x);
      assert s == s[..|s| - 1] + [s[|s| - 1]];
    }
  }

  lemma {:induction false} InsertLexSorted(s: seq<string>, x: string)
    requires SortedLex(s)
    ensures SortedLex(InsertLex(s, x))
    decreases |s|
  {
    if s == [] {
    } else if Less(x, s[|s| - 1]) {
      var s', last := s[..|s| - 1], s[|s| - 1];
      InsertLexSorted(s', x);
      InsertLexPermutes(s', x);
      var r' := InsertLex(s', x);
      forall i | 0 <= i < |r'| ensures !Less(last, r'[i]) {
        assert r'[i] in multiset(r');
        if r'[i] == x {
          LessAsymmetric(x, last);
        } else {
          assert r'[i] in multiset(s');
          var j :| 0 <= j < |s'| && s'[j] == r'[i];
          assert s[j] == s'[j];
        }
      }
    } else {
      forall i | 0 <= i < |s| ensures !Less(x, s[i]) {
        if i < |s| - 1 && Less(x, s[i]) {
          LessTotal(s[i], s[|s| - 1]);
          if s[i] != s[|s| - 1] && Less(s[i], s[|s| - 1]) {
            LessTransitive(x, s[i], s[|s| - 1]);
          }
        }
      }
    }
  }

  /** `sorted` rearranges: the same names, each as often. */
  lemma {:induction false} SortStringsPermutes(s: seq<string>)
    ensures multiset(SortStrings(s)) == multiset(s)
    decreases |s|
  {
    if s != [] {
      SortStringsPermutes(s[..|s| - 1]);
      InsertLexPermutes(SortStrings(s[..|s| - 1]), s[|s| - 1]);
      assert s == s[..|s| - 1] + [s[|s| - 1]];
    }
  }

  /** `sorted` puts the names in ascending order. */
  lemma {:induction false} SortStringsSorts(s: seq<string>)
    ensures SortedLex(SortStrings(s))
    decreases |s|
  {
    if s != [] {
      SortStringsSorts(s[..|s| - 1]);
      InsertLexSorted(SortStrings(s[..|s| - 1]), s[|s| - 1]);
    }
  }

  /** Names order by their characters, not by the numbers they spell. */
  lemma LexExample()
    ensures Less("10", "2") && Less("a", "ab") && !Less("b", "a")
  {
  }

  /** `[n for n in s if keep(n)]`. */
  function Filter(s: seq<string>, keep: string -> bool): (r: seq<string>)
    ensures forall n :: n in r <==> n in s && keep(n)
    ensures |r| <= |s|
  {
    if s == [] then []
    else
      var last := s[|s| - 1];
      Filter(s[..|s| - 1], keep) + (if keep(last) then [last] else [])
  }

  /** Filtering keeps a sorted sequence sorted. */
  lemma {:induction false} FilterSorted(s: seq<string>, keep: string -> bool)
    requires SortedLex(s)
    ensures SortedLex(Filter(s, keep))
    decreases |s|
  {
    if s != [] {
      var init, last := s[..|s| - 1], s[|s| - 1];
      assert SortedLex(init) by {
        forall i, j | 0 <= i < j < |init| ensures !Less(init[j], init[i]) {
          assert init[i] == s[i] && init[j] == s[j];
        }
      }
      FilterSorted(init, keep);
      var r := Filter(init, keep);
      forall i | 0 <= i < |r| ensures !Less(last, r[i]) {
        assert r[i] in init;
        var k :| 0 <= k < |init| && init[k] == r[i];
        assert s[k] == r[i];
      }
    }
  }
}
