/**
 * The HTTP front end `api.php`: a chain of guards over the request, the
 * payload it forwards to the script, and the reply it builds from what the
 * script printed. Every reply is `sendResponse(status, message, data)`, so it
 * has exactly the keys `status`, `message` and `data`.
 */
module Api {
  import opened Common
  import opened PhpText
  import opened DialPlan
  import Script

  /**
   * An HTTP request: its method, the `X-API-Key` header if sent, and the body
   * after `json_decode(..., true)` when it is a JSON object; keys whose value
   * is JSON null are absent, since `isset` treats them so.
   */
  datatype HttpRequest = HttpRequest(verb: string, apiKeyHeader: Option<string>, body: Option<map<string, string>>)

  /** The trimmed fields handed to the script. */
  datatype Payload = Payload(phone: string, message: string, uuid: string)

  datatype ReplyData = ReplyData(phone: string, message: string, audioFile: Option<string>, timestamp: string)

  /** `{"status": ..., "message": ..., "data": ...}`; None stands for JSON null. */
  datatype Reply = Reply(status: string, message: Option<string>, data: Option<ReplyData>)

  /** The script's standard output, and its decoding when it is a JSON object. */
  datatype ScriptOutput = ScriptOutput(raw: string, decoded: Option<map<string, string>>)

  /** The checks, in the order the front end runs them. */
  datatype Guard = MethodIsPost | KeyPresent | KeyMatches | FieldsPresent | UuidFormat | PhoneFormat | MessageNonEmpty

  const Guards: seq<Guard> :=
    [MethodIsPost, KeyPresent, KeyMatches, FieldsPresent, UuidFormat, PhoneFormat, MessageNonEmpty]

  function GuardMessage(g: Guard): string {
    match g
    case MethodIsPost => "Only POST method is allowed"
    case KeyPresent => "API key is required"
    case KeyMatches => "Invalid API key"
    case FieldsPresent => "Phone, message, and uuid are required"
    case UuidFormat => "Invalid UUID format. UUID must contain only numbers"
    case PhoneFormat => "Invalid phone number format"
    case MessageNonEmpty => "Message cannot be empty"
  }

  const SuccessMessage: string := "Message processed successfully"
  const DecodeFailurePrefix: string := "Failed to decode Python output: "

  /** `$api_key`: the header, or "" when it is missing. */
  function KeyHeader(req: HttpRequest): string {
    match req.apiKeyHeader
    case Some(k) => k
    case None => ""
  }

  predicate HasFields(req: HttpRequest) {
    req.body.Some? && "phone" in req.body.value && "message" in req.body.value && "uuid" in req.body.value
  }

  /** A body field after `trim` ("" when absent, where no guard past FieldsPresent is reached). */
  function TrimmedField(req: HttpRequest, key: string): string {
    if req.body.Some? && key in req.body.value then Trim(req.body.value[key]) else ""
  }

  /** Whether one guard lets the request through. */
  predicate Passes(g: Guard, req: HttpRequest, apiKey: string) {
    match g
    case MethodIsPost => req.verb == "POST"
    case KeyPresent => !PhpEmpty(KeyHeader(req))
    case KeyMatches => KeyHeader(req) == apiKey
    case FieldsPresent => HasFields(req)
    case UuidFormat => UuidPattern(TrimmedField(req, "uuid"))
    case PhoneFormat => PhonePattern(TrimmedField(req, "phone"))
    case MessageNonEmpty => !PhpEmpty(TrimmedField(req, "message"))
  }

  /**
   * Runs the guards of `gs` in order and stops at the first that fails:
   * its message, or None when every guard passes.
   */
  function FirstRejection(gs: seq<Guard>, req: HttpRequest, apiKey: string): (r: Option<string>)
    ensures r.None? <==> forall j :: 0 <= j < |gs| ==> Passes(gs[j], req, apiKey)
    ensures r.Some? ==> exists i :: 0 <= i < |gs| && !Passes(gs[i], req, apiKey)
                                    && (forall j :: 0 <= j < i ==> Passes(gs[j], req, apiKey))
                                    && r.value == GuardMessage(gs[i])
  {
    if |gs| == 0 then None
    else if !Passes(gs[0], req, apiKey) then Some(GuardMessage(gs[0]))
    else
      var r := FirstRejection(gs[1..], req, apiKey);
      if r.Some? then RejectionShift(gs, req, apiKey, r.value); r else r
  }

  /** A rejection by the rest of the guards, after a first one that passes, is a rejection by all of them. */
  lemma {:induction false} RejectionShift(gs: seq<Guard>, req: HttpRequest, apiKey: string, m: string)
    requires |gs| > 0 && Passes(gs[0], req, apiKey)
    requires exists i :: 0 <= i < |gs[1..]| && !Passes(gs[1..][i], req, apiKey)
                         && (forall j :: 0 <= j < i ==> Passes(gs[1..][j], req, apiKey))
                         && m == GuardMessage(gs[1..][i])
    ensures exists i :: 0 <= i < |gs| && !Passes(gs[i], req, apiKey)
                        && (forall j :: 0 <= j < i ==> Passes(gs[j], req, apiKey))
                        && m == GuardMessage(gs[i])
  {
    var i :| 0 <= i < |gs[1..]| && !Passes(gs[1..][i], req, apiKey)
             && (forall j :: 0 <= j < i ==> Passes(gs[1..][j], req, apiKey))
             && m == GuardMessage(gs[1..][i]);
    assert gs[i + 1] == gs[1..][i];
    assert forall j :: 1 <= j < i + 1 ==> gs[j] == gs[1..][j - 1];
  }

  /**
   * Lines 27-67 of the front end: each failing check exits with its message,
   * so a request is rejected with the message of the first guard that
   * fails; when none fails, the payload holds the three trimmed fields.
   */
  function Validate(req: HttpRequest, apiKey: string): (r: Result<Payload, string>)
    ensures r.Ok? <==> forall j :: 0 <= j < |Guards| ==> Passes(Guards[j], req, apiKey)
    ensures r.Err? ==> exists i :: 0 <= i < |Guards| && !Passes(Guards[i], req, apiKey)
                                   && (forall j :: 0 <= j < i ==> Passes(Guards[j], req, apiKey))
                                   && r.error == GuardMessage(Guards[i])
    ensures r.Ok? ==> r.value == Payload(TrimmedField(req, "phone"), TrimmedField(req, "message"),
                                         TrimmedField(req, "uuid"))
  {
    match FirstRejection(Guards, req, apiKey)
    case Some(m) => Err(m)
    case None => Ok(Payload(TrimmedField(req, "phone"), TrimmedField(req, "message"), TrimmedField(req, "uuid")))
  }

  /** The seven messages differ, so an error message names the guard that failed. */
  lemma GuardMessagesDistinct()
    ensures forall i, j :: 0 <= i < j < |Guards| ==> GuardMessage(Guards[i]) != GuardMessage(Guards[j])
  {
  }

  /**
   * What the guards let through: a non-empty ASCII-digit uuid, a phone made
   * of an optional `+` and 2 to 15 digits not starting with 0, a message PHP
   * does not consider empty, all three free of surrounding whitespace.
   */
  predicate WellFormedPayload(p: Payload) {
    |p.uuid| > 0 && AllDigits(p.uuid)
    && |p.phone| > 0
    && (var d := if p.phone[0] == '+' then p.phone[1..] else p.phone;
        2 <= |d| <= 15 && d[0] != '0' && AllDigits(d))
    && !PhpEmpty(p.message)
    && IsTrimmed(p.phone) && IsTrimmed(p.message) && IsTrimmed(p.uuid)
  }

  /** Every accepted request yields a well-formed payload. */
  lemma {:induction false} AcceptedFields(req: HttpRequest, apiKey: string)
    requires Validate(req, apiKey).Ok?
    ensures WellFormedPayload(Validate(req, apiKey).value)
  {
    var p := Validate(req, apiKey).value;
    assert Passes(Guards[3], req, apiKey) && Passes(Guards[4], req, apiKey);
    assert Passes(Guards[5], req, apiKey) && Passes(Guards[6], req, apiKey);
    var input := req.body.value;
    TrimSpec(input["phone"]);
    TrimSpec(input["message"]);
    TrimSpec(input["uuid"]);
    TrimmedPatterns(p.uuid);
    TrimmedPatterns(p.phone);
  }

  /** `$pythonInput`: exactly the three trimmed fields. */
  function PayloadObject(p: Payload): map<string, string> {
    map["phone" := p.phone, "message" := p.message, "uuid" := p.uuid]
  }

  function Lookup(m: map<string, string>, key: string): Option<string> {
    if key in m then Some(m[key]) else None
  }

  /**
   * Lines 85-105: an output that does not decode to a non-empty object is an
   * error quoting it; a status of "error" is an error carrying the script's
   * message; anything else is a success with the trimmed phone and message.
   */
  function Dispatch(p: Payload, out: ScriptOutput, now: string): (r: Reply)
    ensures r.status == "success" || r.status == "error"
    ensures r.status == "success" <==>
              out.decoded.Some? && out.decoded.value != map[] && Lookup(out.decoded.value, "status") != Some("error")
    ensures r.status == "success" ==>
              r.message == Some(SuccessMessage)
              && r.data == Some(ReplyData(p.phone, p.message, Lookup(out.decoded.value, "audio_file"), now))
    ensures r.status == "error" ==> r.data.None?
    ensures out.decoded.None? || out.decoded.value == map[] ==> r.message == Some(DecodeFailurePrefix + out.raw)
    ensures out.decoded.Some? && out.decoded.value != map[] && Lookup(out.decoded.value, "status") == Some("error")
            ==> r.message == Lookup(out.decoded.value, "message")
  {
    if out.decoded.None? || out.decoded.value == map[] then
      Reply("error", Some(DecodeFailurePrefix + out.raw), None)
    else
      var result := out.decoded.value;
      if Lookup(result, "status") == Some("error") then
        Reply("error", Lookup(result, "message"), None)
      else
        Reply("success", Some(SuccessMessage),
              Some(ReplyData(p.phone, p.message, Lookup(result, "audio_file"), now)))
  }

  /** The whole front end; `script` stands for running the script on the payload. */
  function Handle(req: HttpRequest, apiKey: string, script: Payload -> ScriptOutput, now: string): (r: Reply)
    ensures r.status == "success" || r.status == "error"
    ensures Validate(req, apiKey).Err? ==> r == Reply("error", Some(Validate(req, apiKey).error), None)
    ensures r.status == "success" ==>
              Validate(req, apiKey).Ok? && r.data.Some?
              && r.data.value.phone == TrimmedField(req, "phone")
              && r.data.value.message == TrimmedField(req, "message")
  {
    match Validate(req, apiKey)
    case Err(m) => Reply("error", Some(m), None)
    case Ok(p) => Dispatch(p, script(p), now)
  }

  /** A rejected request is answered without the script: its output cannot change the reply. */
  lemma {:induction false} RejectedWithoutScript(req: HttpRequest, apiKey: string, s1: Payload -> ScriptOutput,
                              s2: Payload -> ScriptOutput, now: string)
    requires Validate(req, apiKey).Err?
    ensures Handle(req, apiKey, s1, now) == Handle(req, apiKey, s2, now)
    ensures Handle(req, apiKey, s1, now) == Reply("error", Some(Validate(req, apiKey).error), None)
  {
  }

  /**
   * A well-formed payload passes the script's own input checks unchanged, its
   * uuid names files inside the output directory, and its dial plan reads
   * back as the same phone and uuid.
   */
  lemma {:induction false} ForwardedPayloadAccepted(p: Payload)
    requires WellFormedPayload(p)
    ensures Script.ParseArgs([Script.Object(PayloadObject(p))]) == Ok(Script.Request(p.message, p.phone, p.uuid))
    ensures AudioPath(p.uuid) == AudioFilesPath + "/" + p.uuid + ".wav"
    ensures ConfigPath(p.uuid) == TxtFilesPath + "/" + p.uuid + ".txt"
    ensures ParseConfig(ConfigText(p.phone, p.uuid)) == Some(DialTarget(p.phone, p.uuid))
  {
    assert IsDigit(p.uuid[0]);
    RelativeUuidPaths(p.uuid);
    assert forall k :: 0 <= k < |p.uuid| ==> p.uuid[k] != '\n' by {
      forall k | 0 <= k < |p.uuid| ensures p.uuid[k] != '\n' { assert IsDigit(p.uuid[k]); }
    }
    var d := if p.phone[0] == '+' then p.phone[1..] else p.phone;
    assert forall k :: 0 <= k < |p.phone| ==> p.phone[k] != '\n' by {
      forall k | 0 <= k < |p.phone| ensures p.phone[k] != '\n' {
        if p.phone[0] == '+' && k > 0 {
          assert p.phone[k] == d[k - 1];
        }
        if p.phone[0] != '+' || k > 0 {
          assert IsDigit(p.phone[k]);
        }
      }
    }
    ConfigRoundTrip(p.phone, p.uuid);
  }

  /**
   * The reply follows the script's response: a success carries the trimmed
   * phone and message and the script's audio file name, an error the
   * script's message.
   */
  lemma {:induction false} ReplyFollowsScript(p: Payload, response: Script.Response, raw: string, now: string)
    ensures Dispatch(p, ScriptOutput(raw, Some(Script.ResponseObject(response))), now)
            == if response.Success?
               then Reply("success", Some(SuccessMessage), Some(ReplyData(p.phone, p.message, Some(response.audioFile), now)))
               else Reply("error", Some(response.message), None)
  {
    Script.ResponseObjectStatus(response);
  }

  /** End to end: when the script succeeds on an accepted request, the reply names `<uuid>.wav`. */
  lemma {:induction false} AcceptedRequestSucceeds(req: HttpRequest, apiKey: string, script: Payload -> ScriptOutput, now: string)
    requires Validate(req, apiKey).Ok?
    requires script(Validate(req, apiKey).value).decoded
             == Some(Script.ResponseObject(Script.SuccessFor(Validate(req, apiKey).value.uuid)))
    ensures var p := Validate(req, apiKey).value;
            Handle(req, apiKey, script, now)
            == Reply("success", Some(SuccessMessage), Some(ReplyData(p.phone, p.message, Some(p.uuid + ".wav"), now)))
  {
    var p := Validate(req, apiKey).value;
    ReplyFollowsScript(p, Script.SuccessFor(p.uuid), script(p).raw, now);
  }

  /** PHP `empty()` turns away an API key "0" as missing, whatever the body. */
  lemma {:induction false} ZeroKeyIsMissing(req: HttpRequest, apiKey: string)
    requires req.verb == "POST" && req.apiKeyHeader == Some("0")
    ensures Validate(req, apiKey) == Err(GuardMessage(KeyPresent))
  {
    var r := Validate(req, apiKey);
    assert Passes(Guards[0], req, apiKey) && !Passes(Guards[1], req, apiKey);
    var i :| 0 <= i < |Guards| && !Passes(Guards[i], req, apiKey)
             && (forall j :: 0 <= j < i ==> Passes(Guards[j], req, apiKey))
             && r.error == GuardMessage(Guards[i]);
    assert i == 1;
  }

  /** PHP `empty()` turns away a message that is "0" after trimming, whatever the other fields are. */
  lemma {:induction false} ZeroMessageIsEmpty(req: HttpRequest, apiKey: string)
    requires req.body.Some? && "message" in req.body.value && Trim(req.body.value["message"]) == "0"
    ensures Validate(req, apiKey).Err?
  {
    assert !Passes(Guards[6], req, apiKey);
  }

  /** A message of " 0 " is such a message. */
  lemma PaddedZeroTrimsToZero()
    ensures Trim(" 0 ") == "0"
  {
    assert !IsTrimChar('0');
    assert " 0 "[1..] == "0 ";
    assert TrimStart(" 0 ") == TrimStart("0 ") == "0 ";
    assert "0 "[..1] == "0";
    assert TrimEnd("0 ") == TrimEnd("0") == "0";
  }
}
