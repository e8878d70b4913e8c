/** The validation of the web chat's send request: `message` and `session_id`
    are both required strings, of at most 2000 and 255 characters; three of
    the failures carry their own error text. Authorization always succeeds. */
module SendMessageRequest {
  import opened Php

  const MessageMax: nat := 2000
  const SessionIdMax: nat := 255

  datatype Rule = Required | IsString | Max(limit: nat)

  /** One failed rule of one field. */
  datatype Failure = Failure(field: string, rule: Rule)

  datatype Validation = Passed(message: string, sessionId: string) | Failed(errors: seq<Failure>)

  /** The characters PHP's trim() strips. */
  predicate TrimmedChar(c: char) {
    c == ' ' || c == '\t' || c == '\n' || c == '\r' || c == '\0' || c == '\U{000B}'
  }

  predicate Blank(s: string) {
    forall i :: 0 <= i < |s| ==> TrimmedChar(s[i])
  }

  /** The `required` rule: null, a string that trims to "", and an empty array fail. */
  predicate Filled(v: Value) {
    match v
    case Null => false
    case Str(s) => !Blank(s)
    case List(items) => |items| > 0
    case Object(fields) => |fields| > 0
    case _ => true
  }

  /** The size `max` compares, with no numeric rule on the field: the number
      of characters of a string or of a scalar's string form, the number of
      elements of an array. */
  function Size(v: Value): nat {
    match v
    case Null => 0
    case Bool(b) => if b then 1 else 0
    case Int(i) => |IntToString(i)|
    case Str(s) => |s|
    case List(items) => |items|
    case Object(fields) => |fields|
  }

  /** The failed rules of a `['required', 'string', 'max:limit']` field, in
      rule order; a failed `required` stops the field's validation. */
  function FieldFailures(field: string, v: Value, limit: nat): seq<Failure> {
    if !Filled(v) then [Failure(field, Required)]
    else
      (if v.Str? then [] else [Failure(field, IsString)])
      + (if Size(v) <= limit then [] else [Failure(field, Max(limit))])
  }

  /** What the field must be for all three rules to pass. */
  predicate Acceptable(v: Value, limit: nat) {
    v.Str? && !Blank(v.s) && |v.s| <= limit
  }

  /** rules(): the request data passes, with its two strings, or fails with
      every failed rule of both fields. */
  function Validate(input: Value): (r: Validation)
    ensures r.Passed? <==> Acceptable(Get(input, Named("message")), MessageMax)
                           && Acceptable(Get(input, Named("session_id")), SessionIdMax)
    ensures r.Passed? ==> r.message == Get(input, Named("message")).s
                          && r.sessionId == Get(input, Named("session_id")).s
  {
    var message := Get(input, Named("message"));
    var sessionId := Get(input, Named("session_id"));
    var errors := FieldFailures("message", message, MessageMax) + FieldFailures("session_id", sessionId, SessionIdMax);
    if errors != [] then Failed(errors)
    else
      assert FieldFailures("message", message, MessageMax) == [];
      Passed(message.s, sessionId.s)
  }

  /** messages(): the texts that replace the framework's default ones. */
  const CustomMessages: map<string, string> := map[
    "message.required" := "Please provide a message to send.",
    "message.max" := "Message cannot be longer than 2000 characters.",
    "session_id.required" := "Session ID is required."
  ]

  function RuleName(r: Rule): string {
    match r
    case Required => "required"
    case IsString => "string"
    case Max(_) => "max"
  }

  /** The translation key of the framework's default text for a rule. `max`
      is a size rule, whose key also names the attribute's type; neither
      field has a numeric, array or file rule, so both are typed `string`. */
  function DefaultKey(r: Rule): string {
    "validation." + RuleName(r) + (if r.Max? then ".string" else "")
  }

  /** The error text of a failure: its custom text, or else the framework's
      default one, named here by its translation key. */
  function ErrorText(f: Failure): string {
    var key := f.field + "." + RuleName(f.rule);
    if key in CustomMessages then CustomMessages[key] else DefaultKey(f.rule)
  }

  // ---------------------------------------------------------------------------
  // Properties

  /** A field has a failure exactly when it is not acceptable, and a failure
      names one of the two fields. */
  lemma FailuresNameTheField(input: Value)
    ensures var message := Get(input, Named("message"));
            var sessionId := Get(input, Named("session_id"));
            match Validate(input)
            case Passed(_, _) => true
            case Failed(errors) =>
              && (forall f :: f in errors ==> f.field == "message" || f.field == "session_id")
              && ((exists f :: f in errors && f.field == "message") <==> !Acceptable(message, MessageMax))
              && ((exists f :: f in errors && f.field == "session_id") <==> !Acceptable(sessionId, SessionIdMax))
  {
    var message := Get(input, Named("message"));
    var sessionId := Get(input, Named("session_id"));
    FieldFailuresExact("message", message, MessageMax);
    FieldFailuresExact("session_id", sessionId, SessionIdMax);
    assert "message" != "session_id";
  }

  /** A field's failures all name it, and there are some exactly when the
      field is not acceptable. */
  lemma FieldFailuresExact(field: string, v: Value, limit: nat)
    ensures forall f :: f in FieldFailures(field, v, limit) ==> f.field == field
    ensures FieldFailures(field, v, limit) == [] <==> Acceptable(v, limit)
  {
  }

  /** A missing or blank field fails `required` alone; its other rules are not checked. */
  lemma MissingFieldFailsRequiredOnly(field: string, v: Value, limit: nat)
    requires !Filled(v)
    ensures FieldFailures(field, v, limit) == [Failure(field, Required)]
  {
  }

  function Repeat(c: char, n: nat): (r: string)
    ensures |r| == n && forall i :: 0 <= i < n ==> r[i] == c
  {
    seq(n, _ => c)
  }

  /** A message of exactly 2000 characters is accepted and one of 2001 is
      rejected on `message` alone, with the custom length text. */
  lemma MessageLengthBoundary(sessionId: string)
    requires Acceptable(Str(sessionId), SessionIdMax)
    ensures Validate(Object(map["message" := Str(Repeat('a', 2000)), "session_id" := Str(sessionId)]))
            == Passed(Repeat('a', 2000), sessionId)
    ensures Validate(Object(map["message" := Str(Repeat('a', 2001)), "session_id" := Str(sessionId)]))
            == Failed([Failure("message", Max(2000))])
    ensures ErrorText(Failure("message", Max(2000))) == "Message cannot be longer than 2000 characters."
  {
    var long := Repeat('a', 2001);
    assert !TrimmedChar(long[0]);
    assert !TrimmedChar(Repeat('a', 2000)[0]);
    assert FieldFailures("session_id", Str(sessionId), SessionIdMax) == [];
    assert "message" + "." + "max" == "message.max";
  }

  /** A request without `message` fails on `message` with its custom text;
      one without `session_id` fails on `session_id` with its own. */
  lemma MissingFieldsReported(text: string, sessionId: string)
    ensures Validate(Object(map["session_id" := Str(sessionId)])).Failed?
    ensures Failure("message", Required) in Validate(Object(map["session_id" := Str(sessionId)])).errors
    ensures Validate(Object(map["message" := Str(text)])).Failed?
    ensures Failure("session_id", Required) in Validate(Object(map["message" := Str(text)])).errors
    ensures ErrorText(Failure("message", Required)) == "Please provide a message to send."
    ensures ErrorText(Failure("session_id", Required)) == "Session ID is required."
  {
    assert "message" !in map["session_id" := Str(sessionId)];
    assert "session_id" !in map["message" := Str(text)];
    assert "message" + "." + "required" == "message.required";
    assert "session_id" + "." + "required" == "session_id.required";
  }

  /** A `session_id` of 256 characters is rejected; its length failure has
      no custom text. */
  lemma LongSessionIdRejected(text: string)
    requires Acceptable(Str(text), MessageMax)
    ensures Validate(Object(map["message" := Str(text), "session_id" := Str(Repeat('s', 256))]))
            == Failed([Failure("session_id", Max(255))])
    ensures ErrorText(Failure("session_id", Max(255))) == "validation.max.string"
  {
    assert !TrimmedChar(Repeat('s', 256)[0]);
    assert FieldFailures("message", Str(text), MessageMax) == [];
    assert "session_id" + "." + "max" == "session_id.max";
    assert "session_id.max" !in CustomMessages;
    assert DefaultKey(Max(255)) == "validation." + "max" + ".string" == "validation.max.string";
  }
}
