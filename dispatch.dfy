/** The outbound request `test_case_handler` builds from a case, and what it records from the answer. */
module Dispatch {
  import opened Wrappers
  import opened Errors
  import opened Text
  import opened Cases

  /** The request sent to the target: a GET has no body, a POST carries one. */
  datatype Request = Get(url: string) | Post(url: string, body: string)

  /**
   * What the HTTP client reports for the request it was given: a transport failure, or a response
   * with its status line as text and its body text (`None` when reading the body failed).
   */
  datatype Transport = TransportError | Received(status: string, text: Option<string>)

  /** `host` and `uri` concatenated verbatim. */
  function Url(c: Case): string {
    c.host + c.uri
  }

  /** The stored method, `GET` when it is NULL, upper-cased. */
  function EffectiveMethod(c: Case): (m: string)
    ensures c.httpMethod.None? ==> m == "GET"
    ensures |m| == |c.httpMethod.GetOr("GET")|
  {
    Upper(c.httpMethod.GetOr("GET"))
  }

  /** The request for case `c`, or MethodNotAllowed naming the upper-cased method when it is neither GET nor POST. */
  function BuildRequest(c: Case): (r: Result<Request, Failure>)
    ensures r.Ok? ==> r.value.url == c.host + c.uri
    ensures r.Ok? && r.value.Get? <==> EffectiveMethod(c) == "GET"
    ensures r.Ok? && r.value.Post? <==> EffectiveMethod(c) == "POST"
    ensures r.Ok? && r.value.Post? ==> r.value.body == (if c.requestBody.Some? then c.requestBody.value else "")
    ensures r.Err? <==> EffectiveMethod(c) != "GET" && EffectiveMethod(c) != "POST"
    ensures r.Err? ==> r.error == MethodNotAllowed(EffectiveMethod(c)) && r.error.Status() == 405
  {
    var url := Url(c);
    var verb := EffectiveMethod(c);
    var body := c.requestBody.GetOr("");
    if verb == "GET" then Ok(Get(url))
    else if verb == "POST" then Ok(Post(url, body))
    else Err(MethodNotAllowed(verb))
  }

  /** The method is accepted exactly when it is absent or spells get or post in any mix of cases. */
  lemma BuildRequestAccepts(c: Case)
    ensures BuildRequest(c).Ok? <==>
      || c.httpMethod.None?
      || (var m := c.httpMethod.value; |m| == 3 && m[0] in "gG" && m[1] in "eE" && m[2] in "tT")
      || (var m := c.httpMethod.value; |m| == 4 && m[0] in "pP" && m[1] in "oO" && m[2] in "sS" && m[3] in "tT")
  {
    UpperIsGet(c.httpMethod.GetOr("GET"));
    UpperIsPost(c.httpMethod.GetOr("GET"));
  }

  /** An empty stored method is not replaced by GET: only a NULL one is. */
  lemma EmptyMethodIsRejected(c: Case)
    requires c.httpMethod == Some("")
    ensures BuildRequest(c) == Err(MethodNotAllowed(""))
  {
  }

  /** The row after a response: the status line and the body text (or "") overwrite the response columns. */
  function RecordResponse(c: Case, status: string, text: Option<string>): (r: Case)
    ensures Dispatched(r) && r.responseCode == Some(status)
    ensures r.id == c.id && r.title == c.title && r.userId == c.userId
  {
    c.(responseCode := Some(status), responseBody := Some(text.GetOr("")))
  }

  /**
   * Recording a response touches the two response columns and nothing else, leaves them both
   * present, and keeps a row presentable.
   */
  lemma RecordResponseFrame(c: Case, status: string, text: Option<string>)
    ensures var d := RecordResponse(c, status, text);
      && d.(responseCode := c.responseCode, responseBody := c.responseBody) == c
      && d.responseCode == Some(status)
      && d.responseBody == Some(if text.Some? then text.value else "")
      && Dispatched(d) && d.used == c.used
      && (Presentable(c) ==> Presentable(d))
  {
  }

  /** A second dispatch overwrites the first one's response: nothing accumulates. */
  lemma RecordResponseOverwrites(c: Case, s1: string, t1: Option<string>, s2: string, t2: Option<string>)
    ensures RecordResponse(RecordResponse(c, s1, t1), s2, t2) == RecordResponse(c, s2, t2)
  {
  }

  /** The full projection of a recorded row cannot fail, and it shows what was received. */
  lemma RecordedRowIsShowable(c: Case, status: string, text: Option<string>)
    requires Presentable(c)
    ensures Presentable(RecordResponse(c, status, text)) && Dispatched(RecordResponse(c, status, text))
    ensures FilterDbAllRecord(RecordResponse(c, status, text)).responseCode == status
    ensures FilterDbAllRecord(RecordResponse(c, status, text)).responseBody == text.GetOr("")
  {
  }
}
