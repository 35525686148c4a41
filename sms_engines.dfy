/**
  The SMS engines (SMSEngineAbtract, the Twilio engine and the Amazon SNS engine) and the model
  methods that call them: PhoneSent.send, PhoneReceivedRaw.save and PhonePendingMessages.save.

  Each operation on the database is first stated as a function from the state before to the
  result and the state after (the ...Spec functions); the methods of Database, Engine and the
  module-level methods perform it step by step and are proved to agree with it.

  The provider clients (Twilio REST, Amazon SNS) and the proxy dispatcher's Redis channel are
  modelled by the calls made to them, appended to DbState.calls, and by the `Provider` oracle that
  answers each call with a message id or the text of the exception raised.
*/
module SmsEngines {
  import opened Wrappers
  import opened Text
  import opened SmsModels

  /** The engine the settings select; Abstract is SMSEngineAbtract with no engine overriding it. */
  datatype EngineKind = Abstract | Twilio | AmazonSns

  /** The Django settings the SMS code reads. */
  datatype Settings = Settings(
    engine: EngineKind,
    twilioApiEnabled: bool,
    snsApiEnabled: bool,
    enableProxy: bool,
    dispatcherChannel: string,
    twilioAccount: string,
    mediaUrl: string,
    stopWords: seq<string>,
    startWords: seq<string>,
    reportErrors: set<string>,
    testing: bool,
    callResponse: Option<string>)

  const DefaultDispatcherChannel := "__un_twilio_dispatcher"
  const DefaultStopWords: seq<string> := ["stop", "unsubscribe", "cancel", "quit", "end"]
  const DefaultStartWords: seq<string> := ["start"]

  // Subjects of the mails sent to the admins.
  const RejectedSubject := "Rejected incoming Twilio message"
  const IssueSubject := "Message issue"

  /** An exception raised by a provider client: its text, and whether it is a TwilioException (the
      only kind the Twilio engine catches). */
  datatype ClientError = ClientError(message: string, twilioException: bool)

  /** A provider's answer to a call: the id it gives the message, or the exception it raises. */
  datatype Provider = Provider(respond: ProviderCall -> Result<string, ClientError>)

  /** What an operation reads besides the database: the phone-number library, the settings, the
      provider clients, and `lower`, Python's Unicode `str.lower`, which the stop and start words
      are matched against. */
  datatype Env = Env(lib: PhoneLib, settings: Settings, provider: Provider, lower: string -> string)

  /** Exceptions that escape an operation. */
  datatype Crash =
    | NotImplemented | ParseError | IntegrityError | MultipleObjectsReturned | AttributeError
    | ProviderException(message: string)  // a client exception the engine does not catch

  /** dict.get(key): the value of a payload field, None when it is absent. */
  function Param(data: map<string, string>, key: string): (r: Option<string>)
    ensures r.Some? <==> key in data
    ensures r.Some? ==> r.value == data[key]
  {
    if key in data then Some(data[key]) else None
  }

  // ---------------------------------------------------------------------------------------------
  // get_service_number

  /** Engine.get_service_number. The Twilio engine takes a least used phone of the pool, adds one
      to its use count and saves it; the other engines answer ''. */
  function ServiceNumberSpec(env: Env, kind: EngineKind, s: DbState): (r: (Result<string, Crash>, DbState))
    ensures r.1 == s.(phones := r.1.phones) && |r.1.phones| == |s.phones|
    ensures kind != Twilio ==> r == (Success(""), s)
    ensures r.0.Failure? ==> r.0.error == ParseError && r.1 == s
  {
    if kind != Twilio then (Success(""), s)
    else match LeastUsed(s.phones)
      case None => (Success(""), s)
      case Some(i) =>
        match SavePhone(env.lib, s.phones[i].(usedCount := s.phones[i].usedCount + 1))
        case Failure(_) => (Failure(ParseError), s)
        case Success(p) => (Success(p.number), s.(phones := s.phones[i := p]))
  }

  /** The Twilio engine hands out the number of a phone whose use count was the least, and that
      count, and nothing else, grows by exactly one. */
  lemma ServiceNumberLeastUsed(env: Env, s: DbState)
    requires Consistent(env.lib, s)
    requires s.phones != []
    ensures var (r, s') := ServiceNumberSpec(env, Twilio, s);
      exists i :: 0 <= i < |s.phones|
        && (forall j :: 0 <= j < |s.phones| ==> s.phones[i].usedCount <= s.phones[j].usedCount)
        && r == Success(s.phones[i].number)
        && s' == s.(phones := s.phones[i := s.phones[i].(usedCount := s.phones[i].usedCount + 1)])
  {
    var i := LeastUsed(s.phones).value;
    var q := s.phones[i].(usedCount := s.phones[i].usedCount + 1);
    ResaveUnchanged(env.lib, q, PhoneReceiver("", "", false));
    var rs := ServiceNumberSpec(env, Twilio, s);
    assert rs.0 == Success(q.number) && rs.1 == s.(phones := s.phones[i := q]);
    assert forall j :: 0 <= j < |s.phones| ==> s.phones[i].usedCount <= s.phones[j].usedCount;
  }

  /** Only the Twilio engine allocates numbers; the others answer '' and change nothing. An empty
      pool answers '' as well. */
  lemma NoPoolNoNumber(env: Env, kind: EngineKind, s: DbState)
    requires kind != Twilio || s.phones == []
    ensures ServiceNumberSpec(env, kind, s) == (Success(""), s)
  {
    if kind == Twilio {
      assert LeastUsed(s.phones).None?;
    }
  }

  lemma ServiceNumberKeepsConsistent(env: Env, kind: EngineKind, s: DbState)
    requires Consistent(env.lib, s)
    ensures Consistent(env.lib, ServiceNumberSpec(env, kind, s).1)
  {
    if kind == Twilio && s.phones != [] {
      ServiceNumberLeastUsed(env, s);
    }
  }

  // ---------------------------------------------------------------------------------------------
  // send

  /** What Engine.send leaves behind: the message as it was changed in memory (the engine does not
      save it), the provider call made, if any, the status the engine wrote on itself, and the text
      of a client exception that escaped send after the call (the caller then stops before saving). */
  datatype SendEffect = SendEffect(obj: PhoneSent, call: Option<ProviderCall>, engineStatus: Option<string>,
                                   raised: Option<string>)

  /** The calls an effect adds to the trace. */
  function CallTrace(eff: SendEffect): (r: seq<ProviderCall>)
    ensures |r| <= 1
    ensures eff.call.Some? ==> r == [eff.call.value]
    ensures eff.call.None? ==> r == []
  {
    if eff.call.Some? then [eff.call.value] else []
  }

  /** Python's "%s" of an optional string. */
  function PyStr(o: Option<string>): (r: string)
    ensures o.Some? ==> r == o.value
    ensures o.None? ==> r == "None"
  {
    if o.Some? then o.value else "None"
  }

  predicate IsUrl(media: string) {
    StartsWith(media, "http://") || StartsWith(media, "https://")
  }

  /** The media URL the Twilio engine attaches: none without media, the media itself when it is an
      http(s) URL, otherwise MEDIA_URL followed by media_raw. */
  function MediaUrl(mediaUrl: string, obj: PhoneSent): (r: Option<string>)
    ensures r.None? <==> obj.media.None? || obj.media.value == ""
    ensures r.Some? && IsUrl(obj.media.value) ==> r == obj.media
    ensures r.Some? && !IsUrl(obj.media.value) ==> r.value == mediaUrl + PyStr(obj.mediaRaw)
  {
    if obj.media.None? || obj.media.value == "" then None
    else if IsUrl(obj.media.value) then obj.media
    else Some(mediaUrl + PyStr(obj.mediaRaw))
  }

  /** Engine.send for each engine; `to` is the message's receiver row. */
  function SendSpec(env: Env, kind: EngineKind, to: PhoneReceiver, obj: PhoneSent): (r: Result<SendEffect, Crash>)
    ensures r.Failure? <==> kind == Abstract
    ensures r.Success? ==> r.value.obj.receiver == obj.receiver
    ensures r.Success? && r.value.call.None? ==> r.value.obj == obj && r.value.raised.None?
    ensures r.Success? && r.value.raised.Some? ==> kind == Twilio
  {
    match kind
    case Abstract => Failure(NotImplemented)
    case Twilio =>
      if !env.settings.twilioApiEnabled then Success(SendEffect(obj, None, Some(SentSent), None))
      else if obj.smsId != "" then Success(SendEffect(obj, None, None, None))
      else
        var text := if obj.text == "" then "." else obj.text;
        var call := TwilioCreate(text, to.number, to.serviceNumber, MediaUrl(env.settings.mediaUrl, obj));
        var o := obj.(status := SentSent, text := text);
        (match env.provider.respond(call)
         case Success(sid) => Success(SendEffect(o.(smsId := sid), Some(call), None, None))
         case Failure(e) =>
           if e.twilioException then
             Success(SendEffect(o.(status := SentFailed, errorMessage := Some(e.message)), Some(call), None, None))
           else Success(SendEffect(o, Some(call), None, Some(e.message))))
    case AmazonSns =>
      if !env.settings.snsApiEnabled then Success(SendEffect(obj, None, Some(SentSent), None))
      else if obj.smsId != "" then Success(SendEffect(obj, None, None, None))
      else
        var call := SnsPublish(to.number, obj.text);
        match env.provider.respond(call)
        case Success(id) => Success(SendEffect(obj.(status := SentSent, smsId := id), Some(call), None, None))
        case Failure(e) => Success(SendEffect(obj.(status := SentFailed, errorMessage := Some(e.message)), Some(call), None, None))
  }

  /** The abstract engine cannot send. */
  lemma AbstractCannotSend(env: Env, to: PhoneReceiver, obj: PhoneSent)
    ensures SendSpec(env, Abstract, to, obj) == Failure(NotImplemented)
  {
  }

  /** With the engine's API switched off nothing is called and the message is left as it was; the
      status "sent" lands on the engine object, not on the message. */
  lemma DisabledApiLeavesMessage(env: Env, kind: EngineKind, to: PhoneReceiver, obj: PhoneSent)
    requires (kind == Twilio && !env.settings.twilioApiEnabled) || (kind == AmazonSns && !env.settings.snsApiEnabled)
    ensures SendSpec(env, kind, to, obj) == Success(SendEffect(obj, None, Some(SentSent), None))
  {
  }

  /** A message that already has a provider id is never sent again: no call, no change. */
  lemma NeverResent(env: Env, kind: EngineKind, to: PhoneReceiver, obj: PhoneSent)
    requires kind != Abstract && obj.smsId != ""
    ensures SendSpec(env, kind, to, obj).Success?
    ensures SendSpec(env, kind, to, obj).value.obj == obj
    ensures SendSpec(env, kind, to, obj).value.call == None
    ensures SendSpec(env, kind, to, obj).value.raised == None
  {
  }

  /** A message leaves a working engine either sent, carrying the id the provider gave in answer to
      the one call made, or failed, carrying the error of an exception the engine catches (any
      exception for Amazon SNS, a TwilioException for Twilio); any other exception of the Twilio
      client escapes send. A call is made in every case. */
  lemma {:induction false} SendOutcome(env: Env, kind: EngineKind, to: PhoneReceiver, obj: PhoneSent)
    requires (kind == Twilio && env.settings.twilioApiEnabled) || (kind == AmazonSns && env.settings.snsApiEnabled)
    requires obj.smsId == ""
    ensures var r := SendSpec(env, kind, to, obj);
      && r.Success? && r.value.call.Some? && r.value.engineStatus == None
      && var call := r.value.call.value;
      && (env.provider.respond(call).Success? ==>
            r.value.raised.None? && r.value.obj.status == SentSent && r.value.obj.smsId == env.provider.respond(call).value)
      && (env.provider.respond(call).Failure? && (kind == AmazonSns || env.provider.respond(call).error.twilioException) ==>
            r.value.raised.None? && r.value.obj.status == SentFailed &&
            r.value.obj.errorMessage == Some(env.provider.respond(call).error.message))
      && (env.provider.respond(call).Failure? && kind == Twilio && !env.provider.respond(call).error.twilioException ==>
            r.value.raised == Some(env.provider.respond(call).error.message))
      && r.value.obj.receiver == obj.receiver
  {
  }

  /** The Twilio engine sends to the receiver's number from its service number, replaces an empty
      body by "." and attaches the media URL; Amazon SNS publishes the text to the receiver's number. */
  lemma SendCallContents(env: Env, kind: EngineKind, to: PhoneReceiver, obj: PhoneSent)
    requires SendSpec(env, kind, to, obj).Success? && SendSpec(env, kind, to, obj).value.call.Some?
    ensures var call := SendSpec(env, kind, to, obj).value.call.value;
      && (kind == Twilio ==>
            && call == TwilioCreate(call.body, to.number, to.serviceNumber, MediaUrl(env.settings.mediaUrl, obj))
            && (obj.text == "" ==> call.body == ".") && (obj.text != "" ==> call.body == obj.text)
            && SendSpec(env, kind, to, obj).value.obj.text == call.body)
      && (kind == AmazonSns ==> call == SnsPublish(to.number, obj.text))
      && kind != Abstract
  {
  }

  // ---------------------------------------------------------------------------------------------
  // Model hooks: PhoneReceivedRaw.save, PhoneSent.send, add_to_queue, PhonePendingMessages.save

  /** PhoneReceivedRaw.save: writes the row (appending it when it has no id yet) and queues a
      parse task for it exactly when the saved status is pending. */
  function SaveRawSpec(s: DbState, raw: PhoneReceivedRaw, id: Option<nat>): (r: (nat, DbState))
    requires id.Some? ==> id.value < |s.raws|
    ensures id.Some? ==> r.0 == id.value && r.1.raws == s.raws[id.value := raw]
    ensures id.None? ==> r.0 == |s.raws| && r.1.raws == s.raws + [raw]
    ensures r.1.parseQueue == if raw.status == RawPending then s.parseQueue + [r.0] else s.parseQueue
    ensures r.1 == s.(raws := r.1.raws, parseQueue := r.1.parseQueue)
  {
    var rid := if id.Some? then id.value else |s.raws|;
    var raws := if id.Some? then s.raws[id.value := raw] else s.raws + [raw];
    (rid, s.(raws := raws, parseQueue := if raw.status == RawPending then s.parseQueue + [rid] else s.parseQueue))
  }

  /** Engine.add_to_queue for the pending-queue entry `entryId`. The Twilio engine in proxy mode
      publishes the entry's number to the dispatcher channel and sends nothing; otherwise the
      entry's message is sent and then saved. */
  function AddToQueueSpec(env: Env, kind: EngineKind, s: DbState, entryId: nat): (r: (Result<(), Crash>, DbState))
    requires Linked(s) && entryId < |s.pending|
    ensures r.1 == s.(sent := r.1.sent, calls := r.1.calls)
    ensures |r.1.sent| == |s.sent| && s.calls <= r.1.calls && |r.1.calls| <= |s.calls| + 1
    ensures forall k :: 0 <= k < |s.sent| && Some(k) != s.pending[entryId].message ==> r.1.sent[k] == s.sent[k]
    ensures forall k :: 0 <= k < |s.sent| ==> r.1.sent[k].receiver == s.sent[k].receiver
    ensures r.0.Failure? ==> r.1 == s.(calls := r.1.calls)
    ensures r.0 == Failure(AttributeError) || r.0 == Failure(NotImplemented) ==> r.1 == s
  {
    var entry := s.pending[entryId];
    if kind == Twilio && env.settings.enableProxy then
      (Success(()), s.(calls := s.calls + [ProxyPublish(env.settings.dispatcherChannel, entry.fromPhone)]))
    else match entry.message
      // send(None) raises before the save: NotImplementedError in the abstract engine, an
      // AttributeError on None in the others.
      case None => (Failure(if kind == Abstract then NotImplemented else AttributeError), s)
      case Some(k) =>
        var m := s.sent[k];
        match SendSpec(env, kind, s.receivers[m.receiver], m)
        case Failure(e) => (Failure(e), s)
        case Success(eff) =>
          if eff.raised.Some? then (Failure(ProviderException(eff.raised.value)), s.(calls := s.calls + CallTrace(eff)))
          else (Success(()), s.(sent := s.sent[k := eff.obj], calls := s.calls + CallTrace(eff)))
  }

  /** In proxy mode the Twilio engine only notifies the dispatcher: no provider call, no change to
      any table. Otherwise the message is saved as the engine left it. */
  lemma ProxyOnlyPublishes(env: Env, s: DbState, entryId: nat)
    requires Linked(s) && entryId < |s.pending|
    requires env.settings.enableProxy
    ensures AddToQueueSpec(env, Twilio, s, entryId) ==
      (Success(()), s.(calls := s.calls + [ProxyPublish(env.settings.dispatcherChannel, s.pending[entryId].fromPhone)]))
  {
  }

  /** The Twilio engine catches only a TwilioException: any other exception of the client leaves
      add_to_queue after the call, before the message is saved, so the message row is unchanged. */
  lemma UncaughtClientErrorNotSaved(env: Env, s: DbState, entryId: nat)
    requires Linked(s) && entryId < |s.pending|
    requires !env.settings.enableProxy && env.settings.twilioApiEnabled
    requires s.pending[entryId].message.Some?
    requires var m := s.sent[s.pending[entryId].message.value];
      var to := s.receivers[m.receiver];
      var call := TwilioCreate(if m.text == "" then "." else m.text, to.number, to.serviceNumber,
                               MediaUrl(env.settings.mediaUrl, m));
      m.smsId == "" && env.provider.respond(call).Failure? && !env.provider.respond(call).error.twilioException
    ensures var m := s.sent[s.pending[entryId].message.value];
      var to := s.receivers[m.receiver];
      var call := TwilioCreate(if m.text == "" then "." else m.text, to.number, to.serviceNumber,
                               MediaUrl(env.settings.mediaUrl, m));
      AddToQueueSpec(env, Twilio, s, entryId) ==
        (Failure(ProviderException(env.provider.respond(call).error.message)), s.(calls := s.calls + [call]))
  {
  }

  /** PhonePendingMessages.save: from_phone is normalised; a new entry (one without an id) is
      appended and handed to the engine's add_to_queue, an existing one is only rewritten. The
      result is the entry's id. */
  function SavePendingSpec(env: Env, s: DbState, entry: PhonePendingMessages, id: Option<nat>): (r: (Result<nat, Crash>, DbState))
    requires Linked(s)
    requires entry.message.Some? ==> entry.message.value < |s.sent|
    requires id.Some? ==> id.value < |s.pending|
    ensures FormatPhone(env.lib, entry.fromPhone).Failure? ==> r == (Failure(ParseError), s)
    ensures r.1 == s.(pending := r.1.pending, sent := r.1.sent, calls := r.1.calls)
    ensures |r.1.sent| == |s.sent|
    ensures forall k :: 0 <= k < |s.sent| && Some(k) != entry.message ==> r.1.sent[k] == s.sent[k]
    ensures forall k :: 0 <= k < |s.sent| ==> r.1.sent[k].receiver == s.sent[k].receiver
    ensures r.0.Success? ==>
      (r.0.value < |r.1.pending| &&
       r.1.pending[r.0.value] == entry.(fromPhone := FormatPhone(env.lib, entry.fromPhone).value))
  {
    match FormatPhone(env.lib, entry.fromPhone)
    case Failure(_) => (Failure(ParseError), s)
    case Success(n) =>
      var e := entry.(fromPhone := n);
      if id.Some? then (Success(id.value), s.(pending := s.pending[id.value := e]))
      else
        var s1 := s.(pending := s.pending + [e]);
        var (r, s2) := AddToQueueSpec(env, env.settings.engine, s1, |s.pending|);
        (if r.Success? then Success(|s.pending|) else Failure(r.error), s2)
  }

  /** Only the first save of a queue entry reaches the engine: saving an existing entry never
      calls a provider nor touches a message. */
  lemma ResaveDoesNotQueue(env: Env, s: DbState, entry: PhonePendingMessages, id: nat)
    requires Linked(s)
    requires entry.message.Some? ==> entry.message.value < |s.sent|
    requires id < |s.pending|
    ensures var (r, s') := SavePendingSpec(env, s, entry, Some(id));
      s'.calls == s.calls && s'.sent == s.sent && |s'.pending| == |s.pending| && (r.Success? ==> r.value == id)
  {
  }

  /** The first save of an entry appends it with a normalised number, then runs add_to_queue on it. */
  lemma FirstSaveQueues(env: Env, s: DbState, entry: PhonePendingMessages)
    requires Linked(s)
    requires entry.message.Some? ==> entry.message.value < |s.sent|
    requires FormatPhone(env.lib, entry.fromPhone).Success?
    ensures var e := entry.(fromPhone := FormatPhone(env.lib, entry.fromPhone).value);
      var s1 := s.(pending := s.pending + [e]);
      && Linked(s1)
      && SavePendingSpec(env, s, entry, None).1 == AddToQueueSpec(env, env.settings.engine, s1, |s.pending|).1
  {
  }

  /** PhoneSent.send: a message that is neither pending nor queued is left alone; otherwise the
      engine sends it. The message is not saved afterwards, so only the provider call remains. */
  function PhoneSentSendSpec(env: Env, s: DbState, id: nat): (r: (Result<(), Crash>, DbState))
    requires Linked(s) && id < |s.sent|
    ensures s.calls <= r.1.calls && |r.1.calls| <= |s.calls| + 1
    ensures r.0.Failure? <==>
      (Sendable(s.sent[id]) &&
       (env.settings.engine == Abstract ||
        SendSpec(env, env.settings.engine, s.receivers[s.sent[id].receiver], s.sent[id]).value.raised.Some?))
  {
    var m := s.sent[id];
    if !Sendable(m) then (Success(()), s)
    else match SendSpec(env, env.settings.engine, s.receivers[m.receiver], m)
      case Failure(e) => (Failure(e), s)
      case Success(eff) =>
        (if eff.raised.Some? then Failure(ProviderException(eff.raised.value)) else Success(()), s.(calls := s.calls + CallTrace(eff)))
  }

  /** The guard of PhoneSent.send: a message in any status but pending or queued makes no call;
      and whatever happens, no table changes. */
  lemma SendGuard(env: Env, s: DbState, id: nat)
    requires Linked(s) && id < |s.sent|
    ensures var (r, s') := PhoneSentSendSpec(env, s, id);
      && s' == s.(calls := s'.calls)
      && (!Sendable(s.sent[id]) ==> r.Success? && s' == s)
  {
  }

  // ---------------------------------------------------------------------------------------------
  // Incoming messages

  /** How the classification of an incoming payload ended: rejected for a foreign account, a
      duplicate message (an early return), a status callback for an unknown message (an early
      return), completed, or an exception. */
  datatype Outcome = Rejected | Duplicate | UnknownSid | Completed | Crashed(error: Crash)

  function FindReceivedWithSid(received: seq<PhoneReceived>, sid: string): GetResult {
    Get(received, (m: PhoneReceived) => m.smsId == sid)
  }

  function FindSentWithSid(sent: seq<PhoneSent>, sid: string): GetResult {
    Get(sent, (m: PhoneSent) => m.smsId == sid)
  }

  /** The lookup of PhoneReceiver.objects.get_or_create(number=from, service_number=to). The
      queryset's get_or_create bypasses the manager's format_fields, so both numbers are compared
      exactly as given; a missing number (None) matches no row, both columns being NOT NULL. */
  function FindReceiver(receivers: seq<PhoneReceiver>, from: Option<string>, to: Option<string>): (r: GetResult)
    ensures r.Found? ==> r.index < |receivers| && from.Some? && to.Some?
    ensures r.Found? ==> receivers[r.index].number == from.value
                         && receivers[r.index].serviceNumber == to.value
    ensures (from.None? || to.None?) ==> r == NotFound
  {
    if from.None? || to.None? then NotFound
    else Get(receivers, (r: PhoneReceiver) => r.number == from.value && r.serviceNumber == to.value)
  }

  predicate NumberTaken(receivers: seq<PhoneReceiver>, number: string) {
    exists j :: 0 <= j < |receivers| && receivers[j].number == number
  }

  /** PhoneReceiver.objects.get_or_create(number=from, service_number=to): the row found, or a new
      row saved with both numbers normalised. A number that does not parse raises; a number already
      held by a receiver with another service number violates the uniqueness of number. */
  function GetOrCreateReceiver(env: Env, s: DbState, from: Option<string>, to: Option<string>): (r: (Result<nat, Crash>, DbState))
    ensures r.0.Success? ==> r.0.value < |r.1.receivers|
    ensures r.1 == s || (r.0.Success? && r.0.value == |s.receivers| && r.1 == s.(receivers := s.receivers + [r.1.receivers[|s.receivers|]]))
  {
    match FindReceiver(s.receivers, from, to)
    case Found(i) => (Success(i), s)
    case Multiple => (Failure(MultipleObjectsReturned), s)
    case NotFound =>
      match SaveReceiver(env.lib, PhoneReceiver(from.GetOr(""), to.GetOr(""), false))
      case Failure(_) => (Failure(ParseError), s)
      case Success(rec) =>
        if NumberTaken(s.receivers, rec.number) then (Failure(IntegrityError), s)
        else (Success(|s.receivers|), s.(receivers := s.receivers + [rec]))
  }

  /** A text message from a number the database knows, but whose From is spelled otherwise than
      the stored number (not in E.164 form) or whose To is another service number, cannot be
      stored: the lookup compares the numbers as given and misses, and the creation normalises the
      number to the stored one and violates its uniqueness. */
  lemma {:induction false} KnownNumberMismatchFails(env: Env, s: DbState, from: string, to: string, j: nat)
    requires Consistent(env.lib, s)
    requires j < |s.receivers|
    requires Formatted(env.lib, to) && from != ""
    requires FormatPhone(env.lib, from) == Success(s.receivers[j].number)
    requires from != s.receivers[j].number || s.receivers[j].serviceNumber != to
    ensures GetOrCreateReceiver(env, s, Some(from), Some(to)) == (Failure(IntegrityError), s)
  {
    var n := s.receivers[j].number;
    var p := (r: PhoneReceiver) => r.number == from && r.serviceNumber == to;
    forall i | 0 <= i < |s.receivers| ensures !p(s.receivers[i]) {
      if s.receivers[i].number == from {
        // a stored number is its own normal form, so `from` is the stored n and i is j
        assert from == n;
      }
    }
    assert FindReceiver(s.receivers, Some(from), Some(to)) == NotFound;
    assert SaveReceiver(env.lib, PhoneReceiver(from, to, false)) == Success(PhoneReceiver(n, to, false));
    assert NumberTaken(s.receivers, n);
  }

  /** A sender stored with exactly the given number and service number is found, and nothing is
      created. */
  lemma {:induction false} ExactMatchFound(env: Env, s: DbState, from: string, to: string, j: nat)
    requires Consistent(env.lib, s)
    requires j < |s.receivers|
    requires s.receivers[j].number == from && s.receivers[j].serviceNumber == to
    ensures GetOrCreateReceiver(env, s, Some(from), Some(to)) == (Success(j), s)
  {
    var p := (r: PhoneReceiver) => r.number == from && r.serviceNumber == to;
    forall i | 0 <= i < |s.receivers| && i != j ensures !p(s.receivers[i]) {
      if i < j {} else {}
    }
    assert p(s.receivers[j]);
  }

  /** A received text message, once its receiver is known: dedup on SmsMessageSid, then the new
      PhoneReceived row, the stop word check before it is saved and the start word check after. */
  function ReceiveSmsSpec(env: Env, s: DbState, rawId: nat, data: map<string, string>): (r: (Outcome, DbState))
    ensures r.1 == s.(receivers := r.1.receivers, received := r.1.received)
    ensures |s.receivers| <= |r.1.receivers| <= |s.receivers| + 1
    ensures r.0 == Completed ==> |r.1.received| == |s.received| + 1 && r.1.received[..|s.received|] == s.received
    ensures r.0 != Completed ==> r.1.received == s.received
  {
    var (res, s1) := GetOrCreateReceiver(env, s, Param(data, "From"), Param(data, "To"));
    match res
    case Failure(e) => (Crashed(e), s1)
    case Success(i) => StoreReceivedSpec(env, s1, i, rawId, data)
  }

  /** The part of a received text message after its receiver `i` is known. */
  function StoreReceivedSpec(env: Env, s1: DbState, i: nat, rawId: nat, data: map<string, string>): (r: (Outcome, DbState))
    requires i < |s1.receivers|
    ensures r.1 == s1.(receivers := r.1.receivers, received := r.1.received)
    ensures |r.1.receivers| == |s1.receivers|
    ensures forall j :: 0 <= j < |s1.receivers| && j != i ==> r.1.receivers[j] == s1.receivers[j]
    ensures r.0 == Completed ==>
      (|r.1.received| == |s1.received| + 1 && r.1.received[..|s1.received|] == s1.received &&
       r.1.received[|s1.received|].receiver == i && r.1.received[|s1.received|].raw == Some(rawId))
    ensures r.0 != Completed ==> r.1 == s1
  {
      var msid := Param(data, "SmsMessageSid").GetOr("");
      var dup := if msid == "" then NotFound else FindReceivedWithSid(s1.received, msid);
      if dup.Found? then (Duplicate, s1)
      else if dup.Multiple? then (Crashed(MultipleObjectsReturned), s1)
      else
        var text := Param(data, "Body").GetOr("");
        var word := env.lower(text);
        var stop := word in env.settings.stopWords && !s1.receivers[i].isBlocked;
        var s2 := if stop then s1.(receivers := s1.receivers[i := s1.receivers[i].(isBlocked := true)]) else s1;
        var msg := PhoneReceived(i, text, Param(data, "MediaUrl0").GetOr(""), Param(data, "SmsSid").GetOr(""),
                                 TypeText, Some(rawId), stop);
        var s3 := s2.(received := s2.received + [msg]);
        var start := word in env.settings.startWords && s3.receivers[i].isBlocked;
        var s4 := if start then s3.(receivers := s3.receivers[i := s3.receivers[i].(isBlocked := false)]) else s3;
        (Completed, s4)
  }

  /** A status callback: the PhoneSent with the callback's SmsSid takes the callback's status; the
      error fields are saved only when `persistErrors` (the engine's parse_received), and an error
      code on the watch list mails the admins. */
  function StatusCallbackSpec(env: Env, s: DbState, data: map<string, string>, persistErrors: bool): (r: (Outcome, DbState))
    ensures r.1 == s.(sent := r.1.sent, adminMails := r.1.adminMails)
    ensures |r.1.sent| == |s.sent|
    ensures r.0 == UnknownSid ==> r.1 == s
    ensures r.0 == Completed ==>
      exists j :: (0 <= j < |s.sent| && Param(data, "SmsSid") == Some(s.sent[j].smsId) &&
                   r.1.sent == s.sent[j := r.1.sent[j]] && Some(r.1.sent[j].status) == Param(data, "SmsStatus"))
  {
    var sid := Param(data, "SmsSid");
    var found := if sid.None? then NotFound else FindSentWithSid(s.sent, sid.value);
    match found
    case NotFound => (UnknownSid, s)
    case Multiple => (Crashed(MultipleObjectsReturned), s)
    case Found(j) =>
      var code := Param(data, "ErrorCode");
      var report := code.Some? && code.value in env.settings.reportErrors;
      var s1 := s.(adminMails := if report then s.adminMails + [IssueSubject] else s.adminMails);
      match Param(data, "SmsStatus")
      // status is a NOT NULL column: saving None raises
      case None => (Crashed(IntegrityError), s1)
      case Some(st) =>
        var m := s.sent[j].(status := st);
        var m' := if persistErrors then m.(errorCode := code, errorMessage := Param(data, "ErrorMessage")) else m;
        (Completed, s1.(sent := s.sent[j := m']))
  }

  /** The classification shared by parse_received_message_task and the Twilio engine's
      parse_received: a payload from another account is rejected (saved as rejected, admins
      mailed); an inbound voice call is accepted as it is; a received SMS is stored; anything else
      is a status callback. */
  function ClassifySpec(env: Env, s: DbState, rawId: nat, persistErrors: bool): (r: (Outcome, DbState))
    requires rawId < |s.raws|
    ensures |r.1.raws| == |s.raws|
  {
    var data := s.raws[rawId].data;
    if Param(data, "AccountSid") != Some(env.settings.twilioAccount) then
      var (_, s1) := SaveRawSpec(s, s.raws[rawId].(status := RawRejected), Some(rawId));
      (Rejected, s1.(adminMails := s1.adminMails + [RejectedSubject]))
    else if Param(data, "Direction") == Some("inbound") then (Completed, s)
    else if Param(data, "SmsStatus") == Some("received") then ReceiveSmsSpec(env, s, rawId, data)
    else StatusCallbackSpec(env, s, data, persistErrors)
  }

  /** A payload from another account is marked rejected, queues nothing, mails the admins and
      creates no message or receiver. */
  lemma ForeignAccountRejected(env: Env, s: DbState, rawId: nat, persistErrors: bool)
    requires rawId < |s.raws|
    requires Param(s.raws[rawId].data, "AccountSid") != Some(env.settings.twilioAccount)
    ensures ClassifySpec(env, s, rawId, persistErrors) ==
      (Rejected, s.(raws := s.raws[rawId := s.raws[rawId].(status := RawRejected)],
                    adminMails := s.adminMails + [RejectedSubject]))
  {
  }

  /** A received SMS whose SmsMessageSid is already stored as a PhoneReceived id adds no message
      and changes no receiver's blocked flag. */
  lemma DuplicateAddsNothing(env: Env, s: DbState, rawId: nat)
    requires rawId < |s.raws|
    requires var data := s.raws[rawId].data;
      && Param(data, "AccountSid") == Some(env.settings.twilioAccount)
      && Param(data, "Direction") != Some("inbound")
      && Param(data, "SmsStatus") == Some("received")
      && Param(data, "SmsMessageSid").GetOr("") != ""
      && FindReceivedWithSid(s.received, Param(data, "SmsMessageSid").value).Found?
    ensures var (o, s') := ClassifySpec(env, s, rawId, false);
      (o == Duplicate || o.Crashed?) && s'.received == s.received && s'.raws == s.raws &&
      s'.receivers[..|s.receivers|] == s.receivers
  {
  }

  /** A stored text message: its id is the payload's SmsSid; a stop word (the whole body, lower
      case) from a receiver not yet blocked blocks the receiver and marks the message as an
      opt-out; a start word from a blocked receiver unblocks it. */
  lemma {:induction false} ReceivedMessage(env: Env, s: DbState, rawId: nat)
    requires rawId < |s.raws|
    requires var data := s.raws[rawId].data;
      && Param(data, "AccountSid") == Some(env.settings.twilioAccount)
      && Param(data, "Direction") != Some("inbound")
      && Param(data, "SmsStatus") == Some("received")
    requires ClassifySpec(env, s, rawId, false).0 == Completed
    ensures var data := s.raws[rawId].data;
      var (_, s') := ClassifySpec(env, s, rawId, false);
      var text := Param(data, "Body").GetOr("");
      var before := GetOrCreateReceiver(env, s, Param(data, "From"), Param(data, "To")).1;
      var i := GetOrCreateReceiver(env, s, Param(data, "From"), Param(data, "To")).0.value;
      && |s'.received| == |s.received| + 1
      && s'.received[..|s.received|] == s.received
      && var m := s'.received[|s.received|];
      && m.receiver == i && m.text == text && m.smsId == Param(data, "SmsSid").GetOr("") && m.raw == Some(rawId)
      && m.isOptOut == (env.lower(text) in env.settings.stopWords && !before.receivers[i].isBlocked)
      && |s'.receivers| == |before.receivers|
      && (forall k :: 0 <= k < |before.receivers| && k != i ==> s'.receivers[k] == before.receivers[k])
      && s'.receivers[i].isBlocked ==
           ((before.receivers[i].isBlocked || env.lower(text) in env.settings.stopWords) && env.lower(text) !in env.settings.startWords)
  {
  }

  /** A status callback for a message the database knows sets its status to the callback's
      SmsStatus; the Celery job's variant leaves the error fields as they were. */
  lemma StatusCallbackSetsStatus(env: Env, s: DbState, rawId: nat, j: nat)
    requires rawId < |s.raws|
    requires var data := s.raws[rawId].data;
      && Param(data, "AccountSid") == Some(env.settings.twilioAccount)
      && Param(data, "Direction") != Some("inbound")
      && Param(data, "SmsStatus") != Some("received")
      && Param(data, "SmsStatus").Some?
      && Param(data, "SmsSid").Some?
      && FindSentWithSid(s.sent, Param(data, "SmsSid").value) == Found(j)
    ensures var (o, s') := ClassifySpec(env, s, rawId, false);
      && o == Completed
      && s'.sent == s.sent[j := s.sent[j].(status := Param(s.raws[rawId].data, "SmsStatus").value)]
      && s'.receivers == s.receivers && s'.received == s.received && s'.raws == s.raws
  {
  }

  /** A status callback whose SmsSid matches no message changes nothing. */
  lemma UnknownSidChangesNothing(env: Env, s: DbState, rawId: nat, persistErrors: bool)
    requires rawId < |s.raws|
    requires var data := s.raws[rawId].data;
      && Param(data, "AccountSid") == Some(env.settings.twilioAccount)
      && Param(data, "Direction") != Some("inbound")
      && Param(data, "SmsStatus") != Some("received")
      && (Param(data, "SmsSid").None? || FindSentWithSid(s.sent, Param(data, "SmsSid").value) == NotFound)
    ensures ClassifySpec(env, s, rawId, persistErrors) == (UnknownSid, s)
  {
  }

  /** Classification keeps the tables consistent, whatever the payload. */
  lemma {:induction false} ClassifyKeepsConsistent(env: Env, s: DbState, rawId: nat, persistErrors: bool)
    requires Consistent(env.lib, s) && rawId < |s.raws|
    ensures Consistent(env.lib, ClassifySpec(env, s, rawId, persistErrors).1)
  {
    var data := s.raws[rawId].data;
    if Param(data, "AccountSid") != Some(env.settings.twilioAccount) {
    } else if Param(data, "Direction") == Some("inbound") {
    } else if Param(data, "SmsStatus") == Some("received") {
      ReceiveKeepsConsistent(env, s, rawId, data);
    } else {
    }
  }

  lemma GetOrCreateKeepsConsistent(env: Env, s: DbState, from: Option<string>, to: Option<string>)
    requires Consistent(env.lib, s)
    ensures Consistent(env.lib, GetOrCreateReceiver(env, s, from, to).1)
  {
    var (r, s1) := GetOrCreateReceiver(env, s, from, to);
    if s1 != s {
      var rec := s1.receivers[|s.receivers|];
      var x := PhoneReceiver(from.GetOr(""), to.GetOr(""), false);
      assert SaveReceiver(env.lib, x) == Success(rec);
      SavedRowsFormatted(env.lib, Phone("", 0, 0), x);
      assert !NumberTaken(s.receivers, rec.number);
    }
  }

  /** Setting a receiver's blocked flag keeps the tables consistent. */
  lemma BlockKeepsConsistent(lib: PhoneLib, s: DbState, i: nat, b: bool)
    requires Consistent(lib, s) && i < |s.receivers|
    ensures Consistent(lib, s.(receivers := s.receivers[i := s.receivers[i].(isBlocked := b)]))
  {
    var s' := s.(receivers := s.receivers[i := s.receivers[i].(isBlocked := b)]);
    assert forall k :: 0 <= k < |s.receivers| ==> s'.receivers[k].number == s.receivers[k].number;
    assert forall k :: 0 <= k < |s.receivers| ==> s'.receivers[k].serviceNumber == s.receivers[k].serviceNumber;
  }

  /** Appending a received message whose keys exist keeps the tables consistent. */
  lemma AppendReceivedKeepsConsistent(lib: PhoneLib, s: DbState, m: PhoneReceived)
    requires Consistent(lib, s) && m.receiver < |s.receivers|
    requires m.raw.Some? ==> m.raw.value < |s.raws|
    ensures Consistent(lib, s.(received := s.received + [m]))
  {
  }

  lemma {:induction false} ReceiveKeepsConsistent(env: Env, s: DbState, rawId: nat, data: map<string, string>)
    requires Consistent(env.lib, s) && rawId < |s.raws|
    ensures Consistent(env.lib, ReceiveSmsSpec(env, s, rawId, data).1)
  {
    GetOrCreateKeepsConsistent(env, s, Param(data, "From"), Param(data, "To"));
    var (res, s1) := GetOrCreateReceiver(env, s, Param(data, "From"), Param(data, "To"));
    if res.Success? {
      StoreReceivedKeepsConsistent(env, s1, res.value, rawId, data);
    }
  }

  lemma {:induction false} StoreReceivedKeepsConsistent(env: Env, s1: DbState, i: nat, rawId: nat, data: map<string, string>)
    requires Consistent(env.lib, s1) && i < |s1.receivers| && rawId < |s1.raws|
    ensures Consistent(env.lib, StoreReceivedSpec(env, s1, i, rawId, data).1)
  {
    var msid := Param(data, "SmsMessageSid").GetOr("");
    var dup := if msid == "" then NotFound else FindReceivedWithSid(s1.received, msid);
    if dup.NotFound? {
      var text := Param(data, "Body").GetOr("");
      var word := env.lower(text);
      var stop := word in env.settings.stopWords && !s1.receivers[i].isBlocked;
      var s2 := if stop then s1.(receivers := s1.receivers[i := s1.receivers[i].(isBlocked := true)]) else s1;
      if stop { BlockKeepsConsistent(env.lib, s1, i, true); }
      var msg := PhoneReceived(i, text, Param(data, "MediaUrl0").GetOr(""), Param(data, "SmsSid").GetOr(""),
                               TypeText, Some(rawId), stop);
      AppendReceivedKeepsConsistent(env.lib, s2, msg);
      var s3 := s2.(received := s2.received + [msg]);
      var start := word in env.settings.startWords && s3.receivers[i].isBlocked;
      if start { BlockKeepsConsistent(env.lib, s3, i, false); }
      var s4 := if start then s3.(receivers := s3.receivers[i := s3.receivers[i].(isBlocked := false)]) else s3;
      assert StoreReceivedSpec(env, s1, i, rawId, data) == (Completed, s4);
    } else {
      assert StoreReceivedSpec(env, s1, i, rawId, data).1 == s1;
    }
  }

  /** Saving a raw row keeps the tables consistent. */
  lemma SaveRawKeepsConsistent(lib: PhoneLib, s: DbState, raw: PhoneReceivedRaw, id: Option<nat>)
    requires Consistent(lib, s)
    requires id.Some? ==> id.value < |s.raws|
    ensures Consistent(lib, SaveRawSpec(s, raw, id).1)
  {
  }

  /** add_to_queue keeps the tables consistent. */
  lemma AddToQueueKeepsConsistent(env: Env, kind: EngineKind, s: DbState, entryId: nat)
    requires Consistent(env.lib, s) && entryId < |s.pending|
    ensures Consistent(env.lib, AddToQueueSpec(env, kind, s, entryId).1)
  {
    var entry := s.pending[entryId];
    if !(kind == Twilio && env.settings.enableProxy) && entry.message.Some? {
      var k := entry.message.value;
      var m := s.sent[k];
      var spec := SendSpec(env, kind, s.receivers[m.receiver], m);
      if spec.Success? {
        assert spec.value.obj.receiver == m.receiver;
      }
    }
  }

  /** Saving a queue entry keeps the tables consistent. */
  lemma {:induction false} SavePendingKeepsConsistent(env: Env, s: DbState, entry: PhonePendingMessages, id: Option<nat>)
    requires Consistent(env.lib, s)
    requires entry.message.Some? ==> entry.message.value < |s.sent|
    requires id.Some? ==> id.value < |s.pending|
    ensures Consistent(env.lib, SavePendingSpec(env, s, entry, id).1)
  {
    if FormatPhone(env.lib, entry.fromPhone).Success? {
      FormatPhoneIdempotent(env.lib, entry.fromPhone);
      var e := entry.(fromPhone := FormatPhone(env.lib, entry.fromPhone).value);
      if id.None? {
        var s1 := s.(pending := s.pending + [e]);
        assert Consistent(env.lib, s1);
        AddToQueueKeepsConsistent(env, env.settings.engine, s1, |s.pending|);
      } else {
        assert Consistent(env.lib, s.(pending := s.pending[id.value := e]));
      }
    }
  }

  /** PhoneSent.send keeps the tables consistent: it changes none of them. */
  lemma PhoneSentSendKeepsConsistent(env: Env, s: DbState, id: nat)
    requires Consistent(env.lib, s) && id < |s.sent|
    ensures Consistent(env.lib, PhoneSentSendSpec(env, s, id).1)
  {
    SendGuard(env, s, id);
  }

  // ---------------------------------------------------------------------------------------------
  // The database and the engines

  /** The SMS tables and the traces, as fields the operations update in place. */
  class Database {
    const env: Env
    var phones: seq<Phone>
    var receivers: seq<PhoneReceiver>
    var sent: seq<PhoneSent>
    var raws: seq<PhoneReceivedRaw>
    var received: seq<PhoneReceived>
    var pending: seq<PhonePendingMessages>
    var parseQueue: seq<nat>
    var sendQueue: seq<SendTask>
    var calls: seq<ProviderCall>
    var adminMails: seq<string>

    function State(): DbState
      reads this
    {
      DbState(phones, receivers, sent, raws, received, pending, parseQueue, sendQueue, calls, adminMails)
    }

    ghost predicate Valid()
      reads this
    {
      Consistent(env.lib, State())
    }

    /** Only builds the empty tables the proofs start from; the source has no counterpart. */
    constructor(env: Env)
      ensures this.env == env
      ensures State() == DbState([], [], [], [], [], [], [], [], [], [])
    {
      this.env := env;
      phones, receivers, sent, raws, received, pending := [], [], [], [], [], [];
      parseQueue, sendQueue, calls, adminMails := [], [], [], [];
    }

    /** PhoneReceivedRaw.save. */
    method SaveRaw(raw: PhoneReceivedRaw, id: Option<nat>) returns (rid: nat)
      requires id.Some? ==> id.value < |raws|
      modifies this
      ensures (rid, State()) == SaveRawSpec(old(State()), raw, id)
    {
      if id.Some? {
        rid := id.value;
        raws := raws[rid := raw];
      } else {
        rid := |raws|;
        raws := raws + [raw];
      }
      if raw.status == RawPending {
        parseQueue := parseQueue + [rid];
      }
    }
  }

  /** An engine object, as SMS() builds it afresh for each use. */
  class Engine {
    const kind: EngineKind
    /** The attribute send sets on the engine when the provider API is switched off. */
    var status: Option<string>

    constructor(kind: EngineKind)
      ensures this.kind == kind && status == None
    {
      this.kind := kind;
      status := None;
    }

    /** get_service_number. */
    method GetServiceNumber(db: Database) returns (r: Result<string, Crash>)
      modifies db
      ensures (r, db.State()) == ServiceNumberSpec(db.env, kind, old(db.State()))
    {
      if kind != Twilio {
        return Success("");
      }
      var least := LeastUsed(db.phones);
      if least.None? {
        return Success("");
      }
      var i := least.value;
      var phone := db.phones[i];
      phone := phone.(usedCount := phone.usedCount + 1);
      var saved := SavePhone(db.env.lib, phone);
      if saved.Failure? {
        return Failure(ParseError);
      }
      db.phones := db.phones[i := saved.value];
      r := Success(saved.value.number);
    }

    /** send: the message is changed in memory and returned; the caller decides whether to save it. */
    method Send(db: Database, obj: PhoneSent) returns (r: Result<PhoneSent, Crash>)
      requires obj.receiver < |db.receivers|
      modifies this, db
      ensures var spec := SendSpec(db.env, kind, old(db.receivers)[obj.receiver], obj);
        && (spec.Failure? ==> r == Failure(spec.error) && db.State() == old(db.State()) && status == old(status))
        && (spec.Success? ==>
              && r == (if spec.value.raised.Some? then Failure(ProviderException(spec.value.raised.value))
                       else Success(spec.value.obj))
              && db.State() == old(db.State()).(calls := old(db.calls) + CallTrace(spec.value))
              && status == (if spec.value.engineStatus.Some? then spec.value.engineStatus else old(status)))
    {
      var to := db.receivers[obj.receiver];
      var o := obj;
      match kind {
        case Abstract =>
          return Failure(NotImplemented);
        case Twilio =>
          if !db.env.settings.twilioApiEnabled {
            status := Some(SentSent);
            return Success(o);
          }
          if o.smsId == "" {
            o := o.(status := SentSent);
            if o.text == "" {
              o := o.(text := ".");
            }
            var call := TwilioCreate(o.text, to.number, to.serviceNumber, MediaUrl(db.env.settings.mediaUrl, o));
            db.calls := db.calls + [call];
            var answer := db.env.provider.respond(call);
            if answer.Success? {
              o := o.(smsId := answer.value);
            } else if answer.error.twilioException {
              o := o.(errorMessage := Some(answer.error.message), status := SentFailed);
            } else {
              return Failure(ProviderException(answer.error.message));
            }
          }
          return Success(o);
        case AmazonSns =>
          if !db.env.settings.snsApiEnabled {
            status := Some(SentSent);
            return Success(o);
          }
          if o.smsId == "" {
            var call := SnsPublish(to.number, o.text);
            db.calls := db.calls + [call];
            var answer := db.env.provider.respond(call);
            if answer.Success? {
              o := o.(status := SentSent, smsId := answer.value);
            } else {
              o := o.(errorMessage := Some(answer.error.message), status := SentFailed);
            }
          }
          return Success(o);
      }
    }

    /** add_to_queue for the pending-queue entry `entryId`. */
    method AddToQueue(db: Database, entryId: nat) returns (r: Result<(), Crash>)
      requires Linked(db.State()) && entryId < |db.pending|
      modifies this, db
      ensures (r, db.State()) == AddToQueueSpec(db.env, kind, old(db.State()), entryId)
    {
      var entry := db.pending[entryId];
      if kind == Twilio && db.env.settings.enableProxy {
        db.calls := db.calls + [ProxyPublish(db.env.settings.dispatcherChannel, entry.fromPhone)];
        return Success(());
      }
      if entry.message.None? {
        return Failure(if kind == Abstract then NotImplemented else AttributeError);
      }
      var k := entry.message.value;
      var sentOut := Send(db, db.sent[k]);
      if sentOut.Failure? {
        return Failure(sentOut.error);
      }
      db.sent := db.sent[k := sentOut.value];
      r := Success(());
    }

    /** parse_received: the Twilio engine classifies the payload, saving the error fields of a
        status callback; the other engines raise NotImplementedError. */
    method ParseReceived(db: Database, rawId: nat) returns (r: Result<Outcome, Crash>)
      requires rawId < |db.raws|
      modifies db
      ensures kind != Twilio ==> r == Failure(NotImplemented) && db.State() == old(db.State())
      ensures kind == Twilio ==>
        var (o, s') := ClassifySpec(db.env, old(db.State()), rawId, true);
        db.State() == s' && (if o.Crashed? then r == Failure(o.error) else r == Success(o))
    {
      if kind != Twilio {
        return Failure(NotImplemented);
      }
      var o := Classify(db, rawId, true);
      r := if o.Crashed? then Failure(o.error) else Success(o);
    }
  }

  /** PhonePendingMessages.save. */
  method SavePendingMessage(db: Database, entry: PhonePendingMessages, id: Option<nat>) returns (r: Result<nat, Crash>)
    requires Linked(db.State())
    requires entry.message.Some? ==> entry.message.value < |db.sent|
    requires id.Some? ==> id.value < |db.pending|
    modifies db
    ensures (r, db.State()) == SavePendingSpec(db.env, old(db.State()), entry, id)
  {
    var number := FormatPhone(db.env.lib, entry.fromPhone);
    if number.Failure? {
      return Failure(ParseError);
    }
    var e := entry.(fromPhone := number.value);
    if id.Some? {
      db.pending := db.pending[id.value := e];
      return Success(id.value);
    }
    db.pending := db.pending + [e];
    var rid := |db.pending| - 1;
    var engine := new Engine(db.env.settings.engine);
    var queued := engine.AddToQueue(db, rid);
    r := if queued.Success? then Success(rid) else Failure(queued.error);
  }

  /** PhoneSent.send for the message `id`. */
  method SendPhoneSent(db: Database, id: nat) returns (r: Result<(), Crash>)
    requires Linked(db.State()) && id < |db.sent|
    modifies db
    ensures (r, db.State()) == PhoneSentSendSpec(db.env, old(db.State()), id)
  {
    var m := db.sent[id];
    if !Sendable(m) {
      return Success(());
    }
    var engine := new Engine(db.env.settings.engine);
    var out := engine.Send(db, m);
    r := if out.Success? then Success(()) else Failure(out.error);
  }

  /** get_or_create of the receiver of an incoming message. */
  method GetOrCreateReceiverIn(db: Database, from: Option<string>, to: Option<string>) returns (r: Result<nat, Crash>)
    modifies db
    ensures (r, db.State()) == GetOrCreateReceiver(db.env, old(db.State()), from, to)
  {
    var found := FindReceiver(db.receivers, from, to);
    match found {
      case Found(i) =>
        return Success(i);
      case Multiple =>
        return Failure(MultipleObjectsReturned);
      case NotFound =>
        var saved := SaveReceiver(db.env.lib, PhoneReceiver(from.GetOr(""), to.GetOr(""), false));
        if saved.Failure? {
          return Failure(ParseError);
        }
        if NumberTaken(db.receivers, saved.value.number) {
          return Failure(IntegrityError);
        }
        db.receivers := db.receivers + [saved.value];
        return Success(|db.receivers| - 1);
    }
  }

  /** A received text message. */
  method ReceiveSms(db: Database, rawId: nat, data: map<string, string>) returns (o: Outcome)
    modifies db
    ensures (o, db.State()) == ReceiveSmsSpec(db.env, old(db.State()), rawId, data)
  {
    var res := GetOrCreateReceiverIn(db, Param(data, "From"), Param(data, "To"));
    if res.Failure? {
      return Crashed(res.error);
    }
    o := StoreReceived(db, res.value, rawId, data);
  }

  /** A received text message once its sender's receiver row `i` is known. */
  method StoreReceived(db: Database, i: nat, rawId: nat, data: map<string, string>) returns (o: Outcome)
    requires i < |db.receivers|
    modifies db
    ensures (o, db.State()) == StoreReceivedSpec(db.env, old(db.State()), i, rawId, data)
  {
    var msid := Param(data, "SmsMessageSid").GetOr("");
    if msid != "" {
      var dup := FindReceivedWithSid(db.received, msid);
      if dup.Found? {
        return Duplicate;
      } else if dup.Multiple? {
        return Crashed(MultipleObjectsReturned);
      }
    }
    var text := Param(data, "Body").GetOr("");
    var optOut := false;
    if db.env.lower(text) in db.env.settings.stopWords && !db.receivers[i].isBlocked {
      db.receivers := db.receivers[i := db.receivers[i].(isBlocked := true)];
      optOut := true;
    }
    var msg := PhoneReceived(i, text, Param(data, "MediaUrl0").GetOr(""), Param(data, "SmsSid").GetOr(""),
                             TypeText, Some(rawId), optOut);
    db.received := db.received + [msg];
    if db.env.lower(text) in db.env.settings.startWords && db.receivers[i].isBlocked {
      db.receivers := db.receivers[i := db.receivers[i].(isBlocked := false)];
    }
    o := Completed;
  }

  /** A status callback. */
  method StatusCallback(db: Database, data: map<string, string>, persistErrors: bool) returns (o: Outcome)
    modifies db
    ensures (o, db.State()) == StatusCallbackSpec(db.env, old(db.State()), data, persistErrors)
  {
    var sid := Param(data, "SmsSid");
    if sid.None? {
      return UnknownSid;
    }
    var found := FindSentWithSid(db.sent, sid.value);
    if found.NotFound? {
      return UnknownSid;
    } else if found.Multiple? {
      return Crashed(MultipleObjectsReturned);
    }
    var j := found.index;
    var m := db.sent[j];
    var code := Param(data, "ErrorCode");
    if code.Some? && code.value in db.env.settings.reportErrors {
      db.adminMails := db.adminMails + [IssueSubject];
    }
    var st := Param(data, "SmsStatus");
    if st.None? {
      return Crashed(IntegrityError);
    }
    m := m.(status := st.value);
    if persistErrors {
      m := m.(errorCode := code, errorMessage := Param(data, "ErrorMessage"));
    }
    db.sent := db.sent[j := m];
    o := Completed;
  }

  /** The classification of the payload of raw row `rawId`. */
  method Classify(db: Database, rawId: nat, persistErrors: bool) returns (o: Outcome)
    requires rawId < |db.raws|
    modifies db
    ensures (o, db.State()) == ClassifySpec(db.env, old(db.State()), rawId, persistErrors)
  {
    var raw := db.raws[rawId];
    var data := raw.data;
    if Param(data, "AccountSid") != Some(db.env.settings.twilioAccount) {
      var _ := db.SaveRaw(raw.(status := RawRejected), Some(rawId));
      db.adminMails := db.adminMails + [RejectedSubject];
      return Rejected;
    }
    if Param(data, "Direction") == Some("inbound") {
      // a voice call: the recording is not handled
      return Completed;
    } else if Param(data, "SmsStatus") == Some("received") {
      o := ReceiveSms(db, rawId, data);
    } else {
      o := StatusCallback(db, data, persistErrors);
    }
  }
}
