/** The completion client: it turns a {role, content} history into the
    completion API's `contents`, makes one call, and reads the generated text
    out of the reply, answering null on any failure. */
module GeminiService {
  import opened Php
  import Http

  /** One entry of the history handed to the client. */
  datatype Turn = Turn(role: string, content: string)

  datatype Part = Part(text: string)

  /** One entry of the request's `contents`. */
  datatype Content = Content(role: string, parts: seq<Part>)

  /** What the HTTP call produced: a response, or an exception (timeout,
      connection failure) that the client catches. */
  datatype ApiResult = Received(response: Http.Response) | Threw

  /** The completion API as a function of the `contents` it is sent. */
  type Backend = seq<Content> -> ApiResult

  /** The API's role tag for a history role: "assistant" becomes "model",
      every other role "user". */
  function GeminiRole(role: string): string {
    if role == "assistant" then "model" else "user"
  }

  function FormatTurn(t: Turn): Content {
    Content(GeminiRole(t.role), [Part(t.content)])
  }

  /** The list formatMessagesForGemini builds, one entry appended per turn. */
  function Formatted(turns: seq<Turn>): seq<Content> {
    if turns == [] then []
    else Formatted(turns[..|turns| - 1]) + [FormatTurn(turns[|turns| - 1])]
  }

  /** formatMessagesForGemini keeps length and order and formats entry by entry. */
  lemma {:induction false} FormattedAt(turns: seq<Turn>)
    ensures |Formatted(turns)| == |turns|
    ensures forall i :: 0 <= i < |turns| ==> Formatted(turns)[i] == FormatTurn(turns[i])
  {
    if turns != [] {
      FormattedAt(turns[..|turns| - 1]);
    }
  }

  /** Reads a formatted list back as a history: "model" is the assistant,
      anything else the user, and the text is the first part's. */
  function Unformatted(contents: seq<Content>): (r: seq<Turn>)
    requires forall i :: 0 <= i < |contents| ==> |contents[i].parts| > 0
  {
    seq(|contents|, i requires 0 <= i < |contents| =>
      Turn(if contents[i].role == "model" then "assistant" else "user", contents[i].parts[0].text))
  }

  /** The role every history role is sent as, read back. */
  function NormalisedRole(role: string): string {
    if role == "assistant" then "assistant" else "user"
  }

  /** Formatting loses only the distinction between "user" and roles other than
      "assistant": reading the request back gives the history with every role
      but "assistant" turned into "user", and the contents unchanged. */
  lemma FormattedRoundTrip(turns: seq<Turn>)
    ensures forall i :: 0 <= i < |Formatted(turns)| ==> |Formatted(turns)[i].parts| == 1
    ensures Unformatted(Formatted(turns)) ==
      seq(|turns|, i requires 0 <= i < |turns| => Turn(NormalisedRole(turns[i].role), turns[i].content))
  {
    FormattedAt(turns);
  }

  /** A history whose roles are all "user" or "assistant" survives the round trip. */
  lemma FormattedRoundTripExact(turns: seq<Turn>)
    requires forall i :: 0 <= i < |turns| ==> turns[i].role in {"user", "assistant"}
    ensures forall i :: 0 <= i < |Formatted(turns)| ==> |Formatted(turns)[i].parts| > 0
    ensures Unformatted(Formatted(turns)) == turns
  {
    FormattedRoundTrip(turns);
  }

  method FormatMessagesForGemini(turns: seq<Turn>) returns (contents: seq<Content>)
    ensures contents == Formatted(turns)
  {
    contents := [];
    for i := 0 to |turns|
      invariant contents == Formatted(turns[..i])
    {
      var role := if turns[i].role == "assistant" then "model" else "user";
      contents := contents + [Content(role, [Part(turns[i].content)])];
      assert turns[..i + 1][..i] == turns[..i];
    }
    assert turns[..|turns|] == turns;
  }

  /** Where the generated text sits: candidates[0].content.parts[0].text. */
  const TextPath: seq<Key> := [Named("candidates"), At(0), Named("content"), Named("parts"), At(0), Named("text")]

  /** The `?string` value of `$data[...]['text'] ?? null`: null when absent;
      a scalar is cast to a string as PHP does for the return type. */
  function ExtractText(body: Value): Option<string> {
    var v := Path(body, TextPath);
    if v == Null then None else ScalarString(v)
  }

  /** The result of generateResponse for what the call produced: a text only
      from a successful (2xx) response, null for an error status or an exception. */
  function ResponseText(result: ApiResult): (r: Option<string>)
    ensures r.Some? ==> result.Received? && Http.IsSuccessful(result.response.status)
  {
    match result
    case Threw => None
    case Received(response) =>
      if Http.IsSuccessful(response.status) then ExtractText(response.body) else None
  }

  /** generateResponse($turns) against a given backend. */
  function Generated(backend: Backend, turns: seq<Turn>): Option<string> {
    ResponseText(backend(Formatted(turns)))
  }

  /** The body the API returns for one candidate with one text part. */
  function CandidateBody(text: string): Value {
    Object(map["candidates" := List([
      Object(map["content" := Object(map["parts" := List([Object(map["text" := Str(text)])])])])])])
  }

  /** Extraction reads back exactly the text a successful reply carries. */
  lemma {:induction false} ExtractRoundTrip(text: string, status: int)
    requires Http.IsSuccessful(status)
    ensures ResponseText(Received(Http.Response(status, CandidateBody(text)))) == Some(text)
  {
    var body := CandidateBody(text);
    var candidate := Get(body, Named("candidates"));
    assert Get(candidate, At(0)) == Object(map["content" := Object(map["parts" := List([Object(map["text" := Str(text)])])])]);
    assert Path(body, TextPath) == Str(text);
  }

  /** For any successful reply, whatever else it carries (further candidates,
      parts or keys), the result is the text at candidates[0].content.parts[0].text
      when that is a string, and null when the path is missing. */
  lemma {:induction false} ResponseTextReadsPath(body: Value, status: int)
    requires Http.IsSuccessful(status)
    ensures Path(body, TextPath).Str? ==>
              ResponseText(Received(Http.Response(status, body))) == Some(Path(body, TextPath).s)
    ensures Path(body, TextPath) == Null ==> ResponseText(Received(Http.Response(status, body))) == None
  {
  }

  /** A successful reply without candidates (a blocked prompt) yields null. */
  lemma NoCandidateNoText(body: Value, status: int)
    requires Http.IsSuccessful(status) && Get(body, Named("candidates")) == List([])
    ensures ResponseText(Received(Http.Response(status, body))) == None
  {
    assert Path(body, TextPath) == Path(Null, TextPath[2..]);
  }

  method GenerateResponse(turns: seq<Turn>, backend: Backend) returns (r: Option<string>)
    ensures r == Generated(backend, turns)
  {
    var contents := FormatMessagesForGemini(turns);
    var result := backend(contents);
    match result
    case Threw =>
      r := None;
    case Received(response) =>
      if Http.IsSuccessful(response.status) {
        r := ExtractText(response.body);
      } else {
        r := None;
      }
  }
}
