/** mongodbatlas/http_error.go: an error that carries the HTTP status code of
    the Atlas response it came from. */
module HttpErrors {
  import opened Strings

  /** A Go error value, known by its message. */
  datatype GoError = GoError(msg: string)

  /** HTTPError: a status code and the wrapped error. */
  datatype HTTPError = HTTPError(statusCode: int, err: GoError)

  /** The `error` values the client and collectors pass around: a plain error
      or an *HTTPError. */
  datatype Failure = Plain(plain: GoError) | Http(http: HTTPError)

  /** HTTPError.Unwrap: the wrapped error, unchanged. */
  function Unwrap(e: HTTPError): (r: GoError)
    ensures r == e.err
    ensures HTTPError(e.statusCode, r) == e
  {
    e.err
  }

  /** HTTPError.Error: "<code>: <message>" for a positive status code, the
      wrapped message alone otherwise. */
  function ErrorText(e: HTTPError): (s: string)
    ensures e.statusCode <= 0 ==> s == e.err.msg
    ensures e.statusCode > 0 ==> s == Itoa(e.statusCode) + ": " + e.err.msg
  {
    if e.statusCode > 0 then Itoa(e.statusCode) + ": " + e.err.msg else e.err.msg
  }

  /** The message of any error value. */
  function FailureText(f: Failure): string {
    match f
    case Plain(g) => g.msg
    case Http(h) => ErrorText(h)
  }

  /** The text always ends with the wrapped message; for a positive status
      code it starts with the code in decimal, which reads back as the code,
      followed by ": ". */
  lemma ErrorTextShape(e: HTTPError)
    ensures var s := ErrorText(e);
      |s| >= |e.err.msg| && s[|s| - |e.err.msg|..] == e.err.msg
    ensures e.statusCode > 0 ==>
      var s := ErrorText(e);
      var n := |Itoa(e.statusCode)|;
      && |s| >= n + 2 && s[n..n + 2] == ": "
      && (forall i :: 0 <= i < n ==> '0' <= s[i] <= '9')
      && DecimalValue(s[..n]) == e.statusCode
  {
    var s := ErrorText(e);
    assert s[|s| - |e.err.msg|..] == e.err.msg;
    if e.statusCode > 0 {
      ItoaOfNatural(e.statusCode);
      var n := |Itoa(e.statusCode)|;
      assert s[..n] == Itoa(e.statusCode);
      assert s[n..n + 2] == ": ";
    }
  }

  /** Errors with positive codes and the same message differ in text exactly
      when their codes differ. */
  lemma {:induction false} ErrorTextDistinguishesCodes(a: HTTPError, b: HTTPError)
    requires a.statusCode > 0 && b.statusCode > 0 && a.err == b.err
    ensures ErrorText(a) == ErrorText(b) <==> a.statusCode == b.statusCode
  {
    if ErrorText(a) == ErrorText(b) {
      var m := |a.err.msg| + 2;
      var s := ErrorText(a);
      assert s[..|s| - m] == Itoa(a.statusCode);
      assert ErrorText(b)[..|s| - m] == Itoa(b.statusCode);
      ItoaOfNatural(a.statusCode);
      ItoaOfNatural(b.statusCode);
    }
  }
}
