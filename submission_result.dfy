/** The verdict panel of a submission: nothing for no result, an error panel
    for a result that carries an error, otherwise one table row per verdict
    with a CSS class derived from the verdict's status. */
module SubmissionResult {
  import opened Common

  /** One element of `results`: the case, its status and its output. */
  datatype Verdict = Verdict(caseName: string, status: string, stdout: string, stderr: string)

  /** A result object: an optional error message and an optional verdict
      array. */
  datatype ResultRecord = ResultRecord(error: Option<string>, results: Option<seq<Verdict>>)

  datatype Row = Row(caseName: string, status: string, stdout: string, stderr: string, className: string)

  datatype ResultPanel = NoPanel | ErrorPanel(message: string) | Table(rows: seq<Row>)

  /** `toLowerCase` on one character, restricted to ASCII. */
  function LowerAscii(c: char): (d: char)
    ensures 'A' <= c <= 'Z' ==> 'a' <= d <= 'z' && (d as int) - (c as int) == 32
    ensures !('A' <= c <= 'Z') ==> d == c
  {
    if 'A' <= c <= 'Z' then ((c as int) + 32) as char else c
  }

  function Lower(s: string): (r: string)
    ensures |r| == |s| && forall i :: 0 <= i < |s| ==> r[i] == LowerAscii(s[i])
  {
    if s == [] then [] else [LowerAscii(s[0])] + Lower(s[1..])
  }

  /** `replace(/ /g, '-')`: every space becomes a hyphen. */
  function Hyphenate(s: string): (r: string)
    ensures |r| == |s| && forall i :: 0 <= i < |s| ==> r[i] == (if s[i] == ' ' then '-' else s[i])
  {
    if s == [] then [] else [if s[0] == ' ' then '-' else s[0]] + Hyphenate(s[1..])
  }

  /** What one status character becomes in the class name. */
  function FoldChar(c: char): char {
    if c == ' ' then '-' else LowerAscii(c)
  }

  /** The row class `status-${status.toLowerCase().replace(/ /g, '-')}`:
      the prefix, then each status character folded, so the class is seven
      characters longer than the status and holds no space. */
  function StatusClass(status: string): (c: string)
    ensures |c| == 7 + |status|
    ensures c[..7] == "status-"
    ensures forall i :: 0 <= i < |status| ==> c[7 + i] == FoldChar(status[i])
    ensures ' ' !in c
  {
    "status-" + Hyphenate(Lower(status))
  }

  /** Two statuses share a class exactly when they have the same length and
      agree character by character after folding. */
  lemma StatusClassCollision(a: string, b: string)
    ensures StatusClass(a) == StatusClass(b) <==>
      |a| == |b| && forall i :: 0 <= i < |a| ==> FoldChar(a[i]) == FoldChar(b[i])
  {
    if StatusClass(a) == StatusClass(b) {
      forall i | 0 <= i < |a| ensures FoldChar(a[i]) == FoldChar(b[i]) {
        assert StatusClass(a)[7 + i] == StatusClass(b)[7 + i];
      }
    }
    if |a| == |b| && forall i :: 0 <= i < |a| ==> FoldChar(a[i]) == FoldChar(b[i]) {
      assert forall k :: 0 <= k < |StatusClass(a)| ==> StatusClass(a)[k] == StatusClass(b)[k] by {
        forall k | 0 <= k < |StatusClass(a)| ensures StatusClass(a)[k] == StatusClass(b)[k] {
          if k < 7 {
            assert StatusClass(a)[k] == StatusClass(a)[..7][k];
            assert StatusClass(b)[k] == StatusClass(b)[..7][k];
          } else {
            assert StatusClass(a)[7 + (k - 7)] == FoldChar(a[k - 7]);
          }
        }
      }
    }
  }

  /** A class is determined by the prefix and the folded characters. */
  lemma StatusClassFromFold(status: string, expected: string)
    requires |expected| == 7 + |status| && expected[..7] == "status-"
    requires forall i :: 0 <= i < |status| ==> expected[7 + i] == FoldChar(status[i])
    ensures StatusClass(status) == expected
  {
    var c := StatusClass(status);
    forall k | 0 <= k < |c| ensures c[k] == expected[k] {
      if k < 7 {
        assert c[k] == c[..7][k] && expected[k] == expected[..7][k];
      } else {
        assert c[7 + (k - 7)] == expected[7 + (k - 7)];
      }
    }
  }

  lemma StatusClassWrongAnswer()
    ensures StatusClass("Wrong Answer") == "status-wrong-answer"
  {
    var s, w := "Wrong Answer", "status-wrong-answer";
    assert w[..7] == "status-";
    forall i | 0 <= i < |s| ensures w[7 + i] == FoldChar(s[i]) {
    }
    StatusClassFromFold(s, w);
  }

  /** The class is not collision-free: a status written with a space and
      capitals and one written in lower case with a hyphen give one class. */
  lemma StatusClassNotInjective()
    ensures "Wrong Answer" != "wrong-answer"
    ensures StatusClass("Wrong Answer") == StatusClass("wrong-answer")
  {
    StatusClassCollision("Wrong Answer", "wrong-answer");
  }

  function RenderRow(v: Verdict): Row {
    Row(v.caseName, v.status, v.stdout, v.stderr, StatusClass(v.status))
  }

  /** The panel for the current result. */
  function RenderResult(result: Option<ResultRecord>): (p: ResultPanel)
    ensures result.None? <==> p.NoPanel?
    ensures p.ErrorPanel? <==> result.Some? && Truthy(result.value.error)
    ensures p.ErrorPanel? ==> p.message == result.value.error.value
    ensures p.Table? ==> |p.rows| == (if result.value.results.Some? then |result.value.results.value| else 0)
    ensures p.Table? && result.value.results.Some? ==> forall i :: 0 <= i < |p.rows| ==>
      var v := result.value.results.value[i];
      p.rows[i].caseName == v.caseName && p.rows[i].status == v.status &&
      p.rows[i].stdout == v.stdout && p.rows[i].stderr == v.stderr &&
      p.rows[i].className == StatusClass(v.status)
  {
    match result
    case None => NoPanel
    case Some(r) =>
      if Truthy(r.error) then ErrorPanel(r.error.value)
      else match r.results
        case None => Table([])
        case Some(vs) => Table(seq(|vs|, i requires 0 <= i < |vs| => RenderRow(vs[i])))
  }
}
