/**
 * The status checker: one HTTP GET per URL, its outcome mapped to a status
 * code and a fixed message (`check_status`, app.py).  The GET itself is not
 * modelled; its outcome is the input `response`, `Some(code)` when a
 * response with that status code arrived and `None` when the request raised
 * (connection refused, timeout, malformed URL, ...).
 */
module Status {
  import opened Wrappers
  import opened Text

  /** A checked URL's status code (absent when nothing answered) and its message. */
  datatype Outcome = Outcome(code: Option<int>, message: string)

  const LiveMessage: string := "\U{2705} Site is Live"
  const NotFoundMessage: string := "\U{274C} 404 Not Found"
  const ServerErrorMessage: string := "\U{26A0}\U{FE0F} Server Error"
  const NoConnectMessage: string := "\U{274C} Could not connect"

  /** The text before the code in the message for any other status code. */
  const HttpPrefix: string := "\U{26A0}\U{FE0F} HTTP "

  /** The message for a status code without a message of its own: `f"HTTP {code}"`. */
  function HttpMessage(code: int): (m: string)
    ensures |m| > |HttpPrefix| && m[..|HttpPrefix|] == HttpPrefix
  {
    HttpPrefix + IntToDecimal(code)
  }

  predicate IsServerError(code: int)
  {
    500 <= code < 600
  }

  /** The decision table of `check_status`. */
  function Classify(response: Option<int>): (r: Outcome)
    ensures r.code == response
    ensures r.code == None <==> r.message == NoConnectMessage
    ensures r.message == LiveMessage <==> response == Some(200)
    ensures r.message == NotFoundMessage <==> response == Some(404)
    ensures r.message == ServerErrorMessage <==> response.Some? && IsServerError(response.value)
    ensures response.Some? && response.value != 200 && response.value != 404 && !IsServerError(response.value)
            ==> r.message == HttpMessage(response.value)
  {
    match response
    case None => Outcome(None, NoConnectMessage)
    case Some(code) =>
      if code == 200 then Outcome(response, LiveMessage)
      else if code == 404 then Outcome(response, NotFoundMessage)
      else if 500 <= code < 600 then Outcome(response, ServerErrorMessage)
      else
        var m := HttpMessage(code);
        // Index 2 is the space after the two-character warning sign, where the fixed messages
        // already have text; index 3 is 'H' where "Server Error" has 'S'.
        assert m[2] != NoConnectMessage[2] && m[2] != LiveMessage[2] && m[2] != NotFoundMessage[2];
        assert m[3] != ServerErrorMessage[3];
        Outcome(response, m)
  }

  /** Reads the status code back out of an `HTTP {code}` message; `None` for every other text. */
  function CodeInMessage(m: string): Option<int>
  {
    if |m| >= |HttpPrefix| && m[..|HttpPrefix|] == HttpPrefix then ParseInt(m[|HttpPrefix|..]) else None
  }

  /**
   * The messages with a fixed text carry no code, and every other message
   * gives back exactly the status code that produced it.
   */
  lemma MessageCarriesOtherCodes(response: Option<int>)
    ensures CodeInMessage(Classify(response).message)
            == if response.Some? && response.value != 200 && response.value != 404 && !IsServerError(response.value)
               then response else None
  {
    var m := Classify(response).message;
    if response.Some? && response.value != 200 && response.value != 404 && !IsServerError(response.value) {
      assert m[|HttpPrefix|..] == IntToDecimal(response.value);
      IntRoundTrip(response.value);
    } else {
      assert m[2] != HttpPrefix[2] || m[3] != HttpPrefix[3];
    }
  }

  /**
   * The message alone tells apart every two responses, except two status
   * codes of the server-error band 500-599, which share one message.
   */
  lemma SameMessageSameResponse(a: Option<int>, b: Option<int>)
    requires Classify(a).message == Classify(b).message
    ensures a == b || (a.Some? && b.Some? && IsServerError(a.value) && IsServerError(b.value))
  {
    MessageCarriesOtherCodes(a);
    MessageCarriesOtherCodes(b);
  }
}
