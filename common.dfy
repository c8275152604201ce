/** Vocabulary shared by the client views and the content server: optional
    values, the outcome of one network request as a handler sees it,
    JavaScript truthiness, the decimal rendering of a status code, and the
    payload records that travel between server and client. */
module Common {

  datatype Option<+T> = None | Some(value: T)

  /** What one `fetch` followed by `response.json()` ends in, as seen by the
      handler that awaits it: an ok response with its parsed body, a
      response whose status is not ok, or an exception (network failure or a
      body that does not parse) carrying its message. */
  datatype Outcome<+T> = Ok(payload: T) | Status(code: nat) | Thrown(message: string)

  /** JavaScript truthiness of a value that may be null or undefined (None)
      or a string: only a present, non-empty string is truthy. */
  predicate Truthy(s: Option<string>) {
    s.Some? && s.value != ""
  }

  predicate IsDigit(c: char) {
    '0' <= c <= '9'
  }

  predicate AllDigits(s: string) {
    forall i :: 0 <= i < |s| ==> IsDigit(s[i])
  }

  function DigitChar(d: nat): (c: char)
    requires d < 10
    ensures IsDigit(c) && (c as int) - ('0' as int) == d
  {
    (('0' as int) + d) as char
  }

  /** The value of a run of decimal digits, most significant first. */
  function DigitsValue(s: string): nat
    requires AllDigits(s)
  {
    if s == [] then 0
    else DigitsValue(s[..|s| - 1]) * 10 + ((s[|s| - 1] as int) - ('0' as int))
  }

  /** The decimal text JavaScript produces for a non-negative integer inside
      a template literal (no sign, no leading zeros). */
  function NatToString(n: nat): (s: string)
    ensures |s| >= 1 && AllDigits(s)
    ensures s[0] == '0' ==> n == 0
    decreases n
  {
    if n < 10 then [DigitChar(n)] else NatToString(n / 10) + [DigitChar(n % 10)]
  }

  /** Reading the decimal text back gives the number: the text is an exact
      rendering. */
  lemma {:induction false} NatToStringRoundTrip(n: nat)
    ensures DigitsValue(NatToString(n)) == n
    decreases n
  {
    var s := NatToString(n);
    if n >= 10 {
      NatToStringRoundTrip(n / 10);
      assert s[..|s| - 1] == NatToString(n / 10);
    }
  }

  /** The message the views throw for a response whose status is not ok. */
  function HttpErrorMessage(code: nat): (m: string)
    ensures |m| > 20 && m[..20] == "HTTP error! status: "
    ensures m[20..] == NatToString(code)
  {
    "HTTP error! status: " + NatToString(code)
  }

  /** Two different status codes never produce the same message. */
  lemma HttpErrorMessageInjective(a: nat, b: nat)
    requires HttpErrorMessage(a) == HttpErrorMessage(b)
    ensures a == b
  {
    assert NatToString(a) == HttpErrorMessage(a)[20..];
    NatToStringRoundTrip(a);
    NatToStringRoundTrip(b);
  }

  /** The `${e.message}` a view's catch block sees for a failed outcome: a
      non-ok status reaches it as the thrown "HTTP error! status: N", an
      exception as its own message. */
  function FailureMessage<T>(o: Outcome<T>): (m: string)
    requires !o.Ok?
    ensures o.Thrown? ==> m == o.message
    ensures o.Status? ==> m == HttpErrorMessage(o.code)
  {
    match o
    case Status(code) => HttpErrorMessage(code)
    case Thrown(message) => message
  }

  /** A link built as `prefix + id + suffix` determines its id: equal links
      come from equal ids. */
  lemma LinkDeterminesId(prefix: string, x: string, y: string, suffix: string)
    requires prefix + x + suffix == prefix + y + suffix
    ensures x == y
  {
    var l := prefix + x + suffix;
    assert |x| == |y|;
    assert x == l[|prefix|..|prefix| + |x|];
    assert y == (prefix + y + suffix)[|prefix|..|prefix| + |y|];
  }

  /** `items.join(sep)`: the items in order with `sep` between neighbours. */
  function Join(items: seq<string>, sep: string): string {
    if items == [] then ""
    else if |items| == 1 then items[0]
    else items[0] + sep + Join(items[1..], sep)
  }

  /** One entry of the problem list as the client reads it. */
  datatype ProblemSummary = ProblemSummary(id: string, title: string)

  /** One entry of the contest list as the client reads it. */
  datatype ContestSummary = ContestSummary(id: string, name: string)

  /** A test case as the server sends it and the test-case viewer shows it. */
  datatype TestCase = TestCase(
    name: string,
    input: Option<string>,
    output: Option<string>,
    inputFile: string,
    outputFile: string,
    absolutePath: string)
}
