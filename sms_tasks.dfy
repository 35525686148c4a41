/**
  The Twilio tasks: parse_received_message_task, which moves a raw webhook row from pending to
  pass, fail or rejected, and send_message_task, which finds or creates the receiver of an
  outgoing message and creates its PhoneSent row; and send_sms, which runs the latter at once or
  hands it to the Celery queue.
*/
module SmsTasks {
  import opened Wrappers
  import opened Text
  import opened SmsModels
  import opened SmsEngines

  /** The text stored as the exception of a raw row whose parsing raised: the exception's name
      (the traceback itself is not modelled). */
  function CrashName(e: Crash): (r: string)
    ensures r != ""
  {
    match e
    case NotImplemented => "NotImplementedError"
    case ParseError => "NumberParseException"
    case IntegrityError => "IntegrityError"
    case MultipleObjectsReturned => "MultipleObjectsReturned"
    case AttributeError => "AttributeError"
    case ProviderException(_) => "Exception"  // the client's own exception class is not modelled
  }

  // ---------------------------------------------------------------------------------------------
  // parse_received_message_task

  /** parse_received_message_task(message_id): only a raw row that exists and is pending is
      processed. A completed classification saves it as pass, an exception as fail with the
      exception; a rejection has already saved it; the early returns leave it pending. */
  function ParseTaskSpec(env: Env, s: DbState, messageId: int): (s': DbState)
    ensures |s'.raws| == |s.raws|
    ensures s'.phones == s.phones && s'.pending == s.pending && s'.calls == s.calls && s'.sendQueue == s.sendQueue
  {
    if !(0 <= messageId < |s.raws|) || s.raws[messageId].status != RawPending then s
    else
      var raw := s.raws[messageId];
      var (o, s1) := ClassifySpec(env, s, messageId, false);
      match o
      case Completed => SaveRawSpec(s1, raw.(status := RawPass), Some(messageId)).1
      case Crashed(e) => SaveRawSpec(s1, raw.(status := RawFail, exception := CrashName(e)), Some(messageId)).1
      case _ => s1
  }

  /** A row that is missing or not pending is left alone: nothing changes. */
  lemma OnlyPendingRowsParsed(env: Env, s: DbState, messageId: int)
    requires !(0 <= messageId < |s.raws|) || s.raws[messageId].status != RawPending
    ensures ParseTaskSpec(env, s, messageId) == s
  {
  }

  /** Where a pending row ends up: rejected for another account, pass when the classification
      completes, fail (with the exception's name) when it raises, still pending after a duplicate
      or a callback for an unknown message. Its payload is never changed, and no other raw row is. */
  lemma {:induction false} ParseTaskFinalStatus(env: Env, s: DbState, messageId: nat)
    requires messageId < |s.raws| && s.raws[messageId].status == RawPending
    ensures var s' := ParseTaskSpec(env, s, messageId);
      var o := ClassifySpec(env, s, messageId, false).0;
      && |s'.raws| == |s.raws|
      && s'.raws[messageId].data == s.raws[messageId].data
      && (forall k :: 0 <= k < |s.raws| && k != messageId ==> s'.raws[k] == s.raws[k])
      && (o == Rejected <==> s'.raws[messageId].status == RawRejected)
      && (o == Completed <==> s'.raws[messageId].status == RawPass)
      && (o.Crashed? <==> s'.raws[messageId].status == RawFail)
      && (o.Crashed? ==> s'.raws[messageId].exception == CrashName(o.error))
      && (o == Duplicate || o == UnknownSid <==> s'.raws[messageId].status == RawPending)
  {
    var (o, s1) := ClassifySpec(env, s, messageId, false);
    ClassifyLeavesOtherRaws(env, s, messageId);
  }

  /** The classification writes no raw row but its own, and that one only to reject it. */
  lemma ClassifyLeavesOtherRaws(env: Env, s: DbState, rawId: nat)
    requires rawId < |s.raws|
    ensures var (o, s1) := ClassifySpec(env, s, rawId, false);
      && (o == Rejected ==> s1.raws == s.raws[rawId := s.raws[rawId].(status := RawRejected)])
      && (o != Rejected ==> s1.raws == s.raws)
  {
  }

  /** The parse job never queues another parse: every save it makes is of a status other than pending. */
  lemma ParseTaskQueuesNothing(env: Env, s: DbState, messageId: int)
    ensures ParseTaskSpec(env, s, messageId).parseQueue == s.parseQueue
  {
    if 0 <= messageId < |s.raws| && s.raws[messageId].status == RawPending {
      var (o, s1) := ClassifySpec(env, s, messageId, false);
      assert s1.parseQueue == s.parseQueue;
    }
  }

  lemma {:induction false} ParseTaskKeepsConsistent(env: Env, s: DbState, messageId: int)
    requires Consistent(env.lib, s)
    ensures Consistent(env.lib, ParseTaskSpec(env, s, messageId))
  {
    if 0 <= messageId < |s.raws| && s.raws[messageId].status == RawPending {
      var raw := s.raws[messageId];
      var (o, s1) := ClassifySpec(env, s, messageId, false);
      ClassifyKeepsConsistent(env, s, messageId, false);
      match o
      case Completed =>
        var raw' := raw.(status := RawPass);
        SaveRawKeepsConsistent(env.lib, s1, raw', Some(messageId));
        assert ParseTaskSpec(env, s, messageId) == SaveRawSpec(s1, raw', Some(messageId)).1;
      case Crashed(e) =>
        var raw' := raw.(status := RawFail, exception := CrashName(e));
        SaveRawKeepsConsistent(env.lib, s1, raw', Some(messageId));
        assert ParseTaskSpec(env, s, messageId) == SaveRawSpec(s1, raw', Some(messageId)).1;
      case _ =>
        assert ParseTaskSpec(env, s, messageId) == s1;
    }
  }

  method ParseReceivedMessageTask(db: Database, messageId: int)
    requires db.Valid()
    modifies db
    ensures db.State() == ParseTaskSpec(db.env, old(db.State()), messageId)
    ensures db.Valid()
  {
    ParseTaskKeepsConsistent(db.env, db.State(), messageId);
    if !(0 <= messageId < |db.raws|) || db.raws[messageId].status != RawPending {
      return;
    }
    var raw := db.raws[messageId];
    var o := Classify(db, messageId, false);
    match o {
      case Completed =>
        var _ := db.SaveRaw(raw.(status := RawPass), Some(messageId));
      case Crashed(e) =>
        var _ := db.SaveRaw(raw.(status := RawFail, exception := CrashName(e)), Some(messageId));
      case _ =>
    }
  }

  // ---------------------------------------------------------------------------------------------
  // send_message_task

  /** PhoneReceiver.objects.get(number=to_number): the manager normalises the number; one that
      does not parse is DoesNotExist. */
  function FindReceiverByNumber(lib: PhoneLib, receivers: seq<PhoneReceiver>, number: string): (r: GetResult)
    ensures FormatPhone(lib, number).Failure? ==> r == NotFound
    ensures r.Found? ==> r.index < |receivers| && Success(receivers[r.index].number) == FormatPhone(lib, number)
    ensures r.Found? ==> forall j :: 0 <= j < |receivers| && j != r.index ==> Success(receivers[j].number) != FormatPhone(lib, number)
  {
    match FormatFields(lib, map["number" := number])
    case Failure(_) => NotFound
    case Success(f) => Get(receivers, (r: PhoneReceiver) => r.number == f["number"])
  }

  /** The PhoneSent row send_message_task creates for receiver `i`, and what follows: a blocked
      receiver gets a failed message and nothing else; in proxy mode the message is queued and a
      PhonePendingMessages entry is saved for it; otherwise it stays pending. */
  function CreateSentSpec(env: Env, s: DbState, i: nat, text: string, media: Option<string>, priority: int): (r: (Result<(), Crash>, DbState))
    requires Linked(s) && i < |s.receivers|
    ensures |r.1.sent| == |s.sent| + 1 && r.1.sent[..|s.sent|] == s.sent
    ensures r.1.sent[|s.sent|].receiver == i && r.1.receivers == s.receivers
    ensures s.receivers[i].isBlocked ==> r.1.sent[|s.sent|].status == SentFailed
  {
    var obj := PhoneSent(i, CleanText(text), "", SentPending, None, None, media, None);
    if s.receivers[i].isBlocked then (Success(()), s.(sent := s.sent + [obj.(status := SentFailed)]))
    else if !env.settings.enableProxy then (Success(()), s.(sent := s.sent + [obj]))
    else
      var s1 := s.(sent := s.sent + [obj.(status := SentQueued)]);
      var (r, s2) := SavePendingSpec(env, s1, PhonePendingMessages(s.receivers[i].serviceNumber, priority, Some(|s.sent|)), None);
      (if r.Success? then Success(()) else Failure(r.error), s2)
  }

  /** The receiver of a number with none yet: created on the least used phone of the pool,
      whose use count then grows by one. Without a phone the job returns under TESTING (None) and
      fails on `phone.number` otherwise. */
  function AllocateReceiverSpec(env: Env, s: DbState, to: string): (r: (Result<Option<nat>, Crash>, DbState))
    requires Linked(s)
    ensures Linked(r.1)
    ensures r.0.Success? && r.0.value.Some? ==> r.0.value.value < |r.1.receivers|
    ensures r.1.sent == s.sent && r.1.pending == s.pending && r.1.calls == s.calls
  {
    match LeastUsed(s.phones)
    case None => if env.settings.testing then (Success(None), s) else (Failure(AttributeError), s)
    case Some(p) =>
      match SaveReceiver(env.lib, PhoneReceiver(to, s.phones[p].number, false))
      case Failure(_) => (Failure(ParseError), s)
      case Success(rec) =>
        if NumberTaken(s.receivers, rec.number) then (Failure(IntegrityError), s)
        else
          // the phone's number parsed as the receiver's service number, so its save succeeds
          var q := SavePhone(env.lib, s.phones[p].(usedCount := s.phones[p].usedCount + 1));
          assert q.Success?;
          (Success(Some(|s.receivers|)), s.(receivers := s.receivers + [rec], phones := s.phones[p := q.value]))
  }

  /** send_message_task(to_number, text, media, priority). */
  function SendMessageTaskSpec(env: Env, s: DbState, to: string, text: string, media: Option<string>, priority: int): (r: (Result<(), Crash>, DbState))
    requires Linked(s)
    ensures s.sent <= r.1.sent && |r.1.sent| <= |s.sent| + 1
    ensures s.receivers <= r.1.receivers
    ensures FindReceiverByNumber(env.lib, s.receivers, to).Found? ==> |r.1.sent| == |s.sent| + 1
  {
    match FindReceiverByNumber(env.lib, s.receivers, to)
    case Multiple => (Failure(MultipleObjectsReturned), s)
    case Found(i) => CreateSentSpec(env, s, i, text, media, priority)
    case NotFound =>
      var (r, s1) := AllocateReceiverSpec(env, s, to);
      if r.Failure? then (Failure(r.error), s1)
      else if r.value.None? then (Success(()), s1)
      else CreateSentSpec(env, s1, r.value.value, text, media, priority)
  }

  /** A blocked receiver gets one failed message and nothing else: no queue entry, no call. */
  lemma BlockedReceiverFails(env: Env, s: DbState, i: nat, text: string, media: Option<string>, priority: int)
    requires Linked(s) && i < |s.receivers| && s.receivers[i].isBlocked
    ensures CreateSentSpec(env, s, i, text, media, priority) ==
      (Success(()), s.(sent := s.sent + [PhoneSent(i, CleanText(text), "", SentFailed, None, None, media, None)]))
  {
  }

  /** Without the proxy the message is stored pending and nothing sends it. */
  lemma WithoutProxyStaysPending(env: Env, s: DbState, i: nat, text: string, media: Option<string>, priority: int)
    requires Linked(s) && i < |s.receivers| && !s.receivers[i].isBlocked && !env.settings.enableProxy
    ensures CreateSentSpec(env, s, i, text, media, priority) ==
      (Success(()), s.(sent := s.sent + [PhoneSent(i, CleanText(text), "", SentPending, None, None, media, None)]))
  {
  }

  /** In proxy mode the message is stored queued, and one PhonePendingMessages entry with the
      receiver's service number, the priority and the new message is appended; with the Twilio
      engine the entry's number is then published to the dispatcher and no provider is called. */
  lemma {:induction false} ProxyQueuesMessage(env: Env, s: DbState, i: nat, text: string, media: Option<string>, priority: int)
    requires Consistent(env.lib, s) && i < |s.receivers| && !s.receivers[i].isBlocked
    requires env.settings.enableProxy && env.settings.engine == Twilio
    ensures var n := s.receivers[i].serviceNumber;
      CreateSentSpec(env, s, i, text, media, priority) ==
        (Success(()), s.(sent := s.sent + [PhoneSent(i, CleanText(text), "", SentQueued, None, None, media, None)],
                        pending := s.pending + [PhonePendingMessages(n, priority, Some(|s.sent|))],
                        calls := s.calls + [ProxyPublish(env.settings.dispatcherChannel, n)]))
  {
    var n := s.receivers[i].serviceNumber;
    assert Formatted(env.lib, n);
  }

  /** For a number with no receiver yet, a receiver is created with the normalised number and the
      number of a least used phone as its service number, and that phone's use count, and no
      other, grows by one. */
  lemma {:induction false} NewNumberGetsLeastUsedPhone(env: Env, s: DbState, to: string)
    requires Consistent(env.lib, s)
    requires FormatPhone(env.lib, to).Success?
    requires !NumberTaken(s.receivers, FormatPhone(env.lib, to).value)
    requires s.phones != []
    ensures var (r, s') := AllocateReceiverSpec(env, s, to);
      exists p :: 0 <= p < |s.phones|
        && (forall j :: 0 <= j < |s.phones| ==> s.phones[p].usedCount <= s.phones[j].usedCount)
        && r == Success(Some(|s.receivers|))
        && s' == s.(phones := s.phones[p := s.phones[p].(usedCount := s.phones[p].usedCount + 1)],
                    receivers := s.receivers + [PhoneReceiver(FormatPhone(env.lib, to).value, s.phones[p].number, false)])
  {
    var n := FormatPhone(env.lib, to).value;
    var p := LeastUsed(s.phones).value;
    var svc := s.phones[p].number;
    assert Formatted(env.lib, svc);
    assert SaveReceiver(env.lib, PhoneReceiver(to, svc, false)) == Success(PhoneReceiver(n, svc, false));
    var q := s.phones[p].(usedCount := s.phones[p].usedCount + 1);
    assert Formatted(env.lib, q.number);
    assert SavePhone(env.lib, q) == Success(q);
    var rs := AllocateReceiverSpec(env, s, to);
    assert rs.0 == Success(Some(|s.receivers|));
    assert rs.1 == s.(phones := s.phones[p := q], receivers := s.receivers + [PhoneReceiver(n, svc, false)]);
    assert forall j :: 0 <= j < |s.phones| ==> s.phones[p].usedCount <= s.phones[j].usedCount;
  }

  /** A number that does not parse has no receiver: the lookup misses. */
  lemma UnparseableNumberNotFound(env: Env, s: DbState, to: string)
    requires FormatPhone(env.lib, to).Failure?
    ensures FindReceiverByNumber(env.lib, s.receivers, to) == NotFound
  {
  }

  /** A number whose normalised form no receiver holds is not found. */
  lemma NewNumberNotFound(env: Env, s: DbState, to: string)
    requires FormatPhone(env.lib, to).Success?
    requires !NumberTaken(s.receivers, FormatPhone(env.lib, to).value)
    ensures FindReceiverByNumber(env.lib, s.receivers, to) == NotFound
  {
    var n := FormatPhone(env.lib, to).value;
    var f := map["number" := to];
    assert FormatFields(env.lib, f) == Success(f["number" := n]);
  }

  /** Without a phone in the pool, a task for an unknown number under TESTING creates nothing. */
  lemma NoPoolInTestingCreatesNothing(env: Env, s: DbState, to: string, text: string, media: Option<string>, priority: int)
    requires Linked(s) && s.phones == [] && env.settings.testing
    requires FindReceiverByNumber(env.lib, s.receivers, to) == NotFound
    ensures SendMessageTaskSpec(env, s, to, text, media, priority) == (Success(()), s)
  {
  }

  lemma {:induction false} CreateSentKeepsConsistent(env: Env, s: DbState, i: nat, text: string, media: Option<string>, priority: int)
    requires Consistent(env.lib, s) && i < |s.receivers|
    ensures Consistent(env.lib, CreateSentSpec(env, s, i, text, media, priority).1)
  {
    var obj := PhoneSent(i, CleanText(text), "", SentPending, None, None, media, None);
    if !s.receivers[i].isBlocked && env.settings.enableProxy {
      var s1 := s.(sent := s.sent + [obj.(status := SentQueued)]);
      assert Consistent(env.lib, s1);
      SavePendingKeepsConsistent(env, s1, PhonePendingMessages(s.receivers[i].serviceNumber, priority, Some(|s.sent|)), None);
    }
  }

  /** A normalised receiver whose number no row holds can be appended. */
  lemma NewReceiverKeepsConsistent(lib: PhoneLib, s: DbState, rec: PhoneReceiver)
    requires Consistent(lib, s)
    requires Formatted(lib, rec.number) && Formatted(lib, rec.serviceNumber)
    requires !NumberTaken(s.receivers, rec.number)
    ensures Consistent(lib, s.(receivers := s.receivers + [rec]))
  {
    var rs := s.receivers + [rec];
    forall i, j | 0 <= i < j < |rs|
      ensures rs[i].number != rs[j].number
    {
      if j == |s.receivers| {
        assert rs[i] == s.receivers[i];
      }
    }
  }

  /** A phone whose number stays the same can be rewritten. */
  lemma CountKeepsConsistent(lib: PhoneLib, s: DbState, p: nat, q: Phone)
    requires Consistent(lib, s) && p < |s.phones| && q.number == s.phones[p].number
    ensures Consistent(lib, s.(phones := s.phones[p := q]))
  {
  }

  lemma {:induction false} AllocateKeepsConsistent(env: Env, s: DbState, to: string)
    requires Consistent(env.lib, s)
    ensures Consistent(env.lib, AllocateReceiverSpec(env, s, to).1)
  {
    if s.phones != [] {
      var p := LeastUsed(s.phones).value;
      var x := PhoneReceiver(to, s.phones[p].number, false);
      if SaveReceiver(env.lib, x).Success? {
        var rec := SaveReceiver(env.lib, x).value;
        SavedRowsFormatted(env.lib, Phone("", 0, 0), x);
        if !NumberTaken(s.receivers, rec.number) {
          var s1 := s.(receivers := s.receivers + [rec]);
          NewReceiverKeepsConsistent(env.lib, s, rec);
          var q := s.phones[p].(usedCount := s.phones[p].usedCount + 1);
          ResaveUnchanged(env.lib, q, rec);
          CountKeepsConsistent(env.lib, s1, p, q);
        }
      }
    }
  }

  lemma {:induction false} SendTaskKeepsConsistent(env: Env, s: DbState, to: string, text: string, media: Option<string>, priority: int)
    requires Consistent(env.lib, s)
    ensures Consistent(env.lib, SendMessageTaskSpec(env, s, to, text, media, priority).1)
  {
    match FindReceiverByNumber(env.lib, s.receivers, to)
    case Multiple =>
    case Found(i) =>
      CreateSentKeepsConsistent(env, s, i, text, media, priority);
    case NotFound =>
      var (r, s1) := AllocateReceiverSpec(env, s, to);
      AllocateKeepsConsistent(env, s, to);
      if r.Success? && r.value.Some? {
        CreateSentKeepsConsistent(env, s1, r.value.value, text, media, priority);
      }
  }

  /** The tail of send_message_task, once the receiver `i` is known. */
  method CreateSent(db: Database, i: nat, text: string, media: Option<string>, priority: int) returns (r: Result<(), Crash>)
    requires Linked(db.State()) && i < |db.receivers|
    modifies db
    ensures (r, db.State()) == CreateSentSpec(db.env, old(db.State()), i, text, media, priority)
  {
    var obj := PhoneSent(i, CleanText(text), "", SentPending, None, None, media, None);
    if db.receivers[i].isBlocked {
      obj := obj.(status := SentFailed);
      db.sent := db.sent + [obj];
      return Success(());
    }
    var enableProxy := db.env.settings.enableProxy;
    if enableProxy {
      obj := obj.(status := SentQueued);
    }
    db.sent := db.sent + [obj];
    if enableProxy {
      var entry := PhonePendingMessages(db.receivers[i].serviceNumber, priority, Some(|db.sent| - 1));
      var saved := SavePendingMessage(db, entry, None);
      r := if saved.Success? then Success(()) else Failure(saved.error);
    } else {
      r := Success(());
    }
  }

  /** The receiver allocation of send_message_task. */
  method AllocateReceiver(db: Database, to: string) returns (r: Result<Option<nat>, Crash>)
    requires Linked(db.State())
    modifies db
    ensures (r, db.State()) == AllocateReceiverSpec(db.env, old(db.State()), to)
  {
    var least := LeastUsed(db.phones);
    if least.None? {
      if db.env.settings.testing {
        return Success(None);
      }
      return Failure(AttributeError);
    }
    var p := least.value;
    var phone := db.phones[p];
    var created := SaveReceiver(db.env.lib, PhoneReceiver(to, phone.number, false));
    if created.Failure? {
      return Failure(ParseError);
    }
    if NumberTaken(db.receivers, created.value.number) {
      return Failure(IntegrityError);
    }
    db.receivers := db.receivers + [created.value];
    phone := phone.(usedCount := phone.usedCount + 1);
    var saved := SavePhone(db.env.lib, phone);
    db.phones := db.phones[p := saved.value];
    r := Success(Some(|db.receivers| - 1));
  }

  method SendMessageTask(db: Database, to: string, text: string, media: Option<string>, priority: int) returns (r: Result<(), Crash>)
    requires db.Valid()
    modifies db
    ensures (r, db.State()) == SendMessageTaskSpec(db.env, old(db.State()), to, text, media, priority)
    ensures db.Valid()
  {
    SendTaskKeepsConsistent(db.env, db.State(), to, text, media, priority);
    var found := FindReceiverByNumber(db.env.lib, db.receivers, to);
    if found.Multiple? {
      return Failure(MultipleObjectsReturned);
    }
    if found.Found? {
      r := CreateSent(db, found.index, text, media, priority);
      return;
    }
    var created := AllocateReceiver(db, to);
    if created.Failure? {
      return Failure(created.error);
    }
    if created.value.None? {
      return Success(());
    }
    r := CreateSent(db, created.value.value, text, media, priority);
  }

  // ---------------------------------------------------------------------------------------------
  // send_sms

  const DefaultPriority := 9999

  /** send_sms(to_number, text, media=None, priority=9999, send_async=True): queue send_message_task, or
      run it now. */
  method SendSms(db: Database, to: string, text: string, media: Option<string> := None,
                 priority: int := DefaultPriority, sendAsync: bool := true) returns (r: Result<(), Crash>)
    requires db.Valid()
    modifies db
    ensures sendAsync ==>
      r == Success(()) && db.State() == old(db.State()).(sendQueue := old(db.sendQueue) + [SendTask(to, text, media, priority)])
    ensures !sendAsync ==> (r, db.State()) == SendMessageTaskSpec(db.env, old(db.State()), to, text, media, priority)
    ensures db.Valid()
  {
    if sendAsync {
      db.sendQueue := db.sendQueue + [SendTask(to, text, media, priority)];
      r := Success(());
    } else {
      r := SendMessageTask(db, to, text, media, priority);
    }
  }
}
