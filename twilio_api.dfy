/**
  The Twilio webhook endpoint (TwilioAPI.post): every POST is stored as a pending
  PhoneReceivedRaw row, with the emoji stripped from a non-empty Body, which queues its parsing;
  an incoming voice call is answered with TwiML, anything else with 202 Accepted.
*/
module TwilioApi {
  import opened Wrappers
  import opened Text
  import opened SmsModels
  import opened SmsEngines

  /** The reply the endpoint renders: a TwiML document, or an empty 202 Accepted. */
  datatype Response = XmlReply(text: string) | Accepted202

  /** The TwiML played to an incoming call when no call response is configured. */
  const DefaultCallResponse: string :=
    "<?xml version=\"1.0\" encoding=\"UTF-8\"?>" +
    "<Response>" +
    "<Say>Hello, thanks for calling. To leave a message wait for the tone.</Say>" +
    "<Record timeout=\"30\" />" +
    "</Response>"

  const BodyKey := "Body"

  /** The payload as stored: a non-empty Body loses its emoji, every other field is kept. */
  function CleanPayload(data: map<string, string>): (r: map<string, string>)
    ensures r.Keys == data.Keys
    ensures BodyKey in r ==> NoEmoji(r[BodyKey])
    ensures forall k :: k in data && k != BodyKey ==> r[k] == data[k]
    ensures BodyKey in data && NoEmoji(data[BodyKey]) ==> r == data
  {
    if BodyKey in data && data[BodyKey] != "" then
      CleanTextFixedPoint(data[BodyKey]);
      data[BodyKey := CleanText(data[BodyKey])]
    else data
  }

  /** Cleaning a payload twice is cleaning it once. */
  lemma CleanPayloadIdempotent(data: map<string, string>)
    ensures CleanPayload(CleanPayload(data)) == CleanPayload(data)
  {
  }

  /** The response to a payload: the configured call response (or the default TwiML) exactly
      when Direction is inbound and CallStatus is ringing. */
  function PostResponse(settings: Settings, data: map<string, string>): (r: Response)
    ensures r.XmlReply? <==> Param(data, "Direction") == Some("inbound") && Param(data, "CallStatus") == Some("ringing")
    ensures r.XmlReply? ==> r.text == settings.callResponse.GetOr(DefaultCallResponse)
  {
    if Param(data, "Direction") == Some("inbound") && Param(data, "CallStatus") == Some("ringing") then
      XmlReply(settings.callResponse.GetOr(DefaultCallResponse))
    else Accepted202
  }

  /** TwilioAPI.post on a dict payload. */
  function PostSpec(env: Env, s: DbState, data: map<string, string>): (r: (Response, DbState))
    ensures |r.1.raws| == |s.raws| + 1 && r.1.raws[..|s.raws|] == s.raws
    ensures r.1.raws[|s.raws|].status == RawPending && r.1.raws[|s.raws|].data.Keys == data.Keys
    ensures r.1.parseQueue == s.parseQueue + [|s.raws|]
  {
    var d := CleanPayload(data);
    (PostResponse(env.settings, d), SaveRawSpec(s, PhoneReceivedRaw(RawPending, d, ""), None).1)
  }

  /** A POST adds exactly one raw row, pending, holding the cleaned payload, and queues its
      parsing; no other table changes. */
  lemma PostStoresOneRaw(env: Env, s: DbState, data: map<string, string>)
    ensures var s' := PostSpec(env, s, data).1;
      s' == s.(raws := s.raws + [PhoneReceivedRaw(RawPending, CleanPayload(data), "")],
               parseQueue := s.parseQueue + [|s.raws|])
  {
  }

  /** The stored Body never holds an emoji, and is the posted Body exactly when that had none. */
  lemma StoredBodyHasNoEmoji(env: Env, s: DbState, data: map<string, string>)
    requires BodyKey in data
    ensures var stored := PostSpec(env, s, data).1.raws[|s.raws|].data;
      BodyKey in stored && NoEmoji(stored[BodyKey])
      && (stored[BodyKey] == data[BodyKey] <==> NoEmoji(data[BodyKey]))
  {
    CleanTextFixedPoint(data[BodyKey]);
  }

  /** Cleaning touches only Body, so the response is decided by the fields as posted. */
  lemma ResponseIgnoresCleaning(settings: Settings, data: map<string, string>)
    ensures PostResponse(settings, CleanPayload(data)) == PostResponse(settings, data)
  {
  }

  method Post(db: Database, data: map<string, string>) returns (response: Response)
    requires db.Valid()
    modifies db
    ensures (response, db.State()) == PostSpec(db.env, old(db.State()), data)
    ensures db.Valid()
  {
    SaveRawKeepsConsistent(db.env.lib, db.State(), PhoneReceivedRaw(RawPending, CleanPayload(data), ""), None);
    var d := data;
    if BodyKey in d && d[BodyKey] != "" {
      d := d[BodyKey := CleanText(d[BodyKey])];
    }
    var _ := db.SaveRaw(PhoneReceivedRaw(RawPending, d, ""), None);
    if Param(d, "Direction") == Some("inbound") && Param(d, "CallStatus") == Some("ringing") {
      response := XmlReply(db.env.settings.callResponse.GetOr(DefaultCallResponse));
    } else {
      response := Accepted202;
    }
  }
}
