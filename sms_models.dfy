/**
  The SMS tables of universal_notifications.models: Phone (the pool of service numbers),
  PhoneReceiver, PhoneSent, PhoneReceivedRaw, PhoneReceived and PhonePendingMessages, with the
  normalisation their save methods apply, the lookups the managers perform, and the invariant the
  tables keep when every row is written through save.

  A row is a value; a table is a sequence of rows whose index is the row id; a foreign key is the
  index of the referenced row.
*/
module SmsModels {
  import opened Wrappers
  import opened Text

  // PhoneSent.status values.
  const SentPending := "pending"
  const SentQueued := "queued"
  const SentFailed := "failed"
  const SentSent := "sent"
  const SentDelivered := "delivered"
  const SentUndelivered := "undelivered"
  const SentNoAnswer := "no_answer"

  // PhoneReceivedRaw.status values.
  const RawPending := "pending"
  const RawPass := "pass"
  const RawFail := "fail"
  const RawRejected := "rejected"

  /** PhoneReceived.type of an incoming text message. */
  const TypeText := "text"

  /** Default of the messages rate of a service number (UNIVERSAL_NOTIFICATIONS_TWILIO_MAX_RATE). */
  const TwilioMaxRate := 6

  datatype Phone = Phone(number: string, rate: int, usedCount: int)

  datatype PhoneReceiver = PhoneReceiver(number: string, serviceNumber: string, isBlocked: bool)

  /** An outgoing message; `receiver` is the index of its PhoneReceiver row. */
  datatype PhoneSent = PhoneSent(
    receiver: nat,
    text: string,
    smsId: string,
    status: string,
    errorCode: Option<string>,
    errorMessage: Option<string>,
    mediaRaw: Option<string>,
    media: Option<string>)

  /** A webhook payload as it arrived, with its processing status. */
  datatype PhoneReceivedRaw = PhoneReceivedRaw(status: string, data: map<string, string>, exception: string)

  /** An incoming message; `raw` is the index of the PhoneReceivedRaw row it was parsed from. */
  datatype PhoneReceived = PhoneReceived(
    receiver: nat,
    text: string,
    media: string,
    smsId: string,
    kind: string,
    raw: Option<nat>,
    isOptOut: bool)

  /** A queue entry for the proxy dispatcher; `message` is the index of its PhoneSent row. */
  datatype PhonePendingMessages = PhonePendingMessages(fromPhone: string, priority: int, message: Option<nat>)

  /** A call to a provider or to the proxy dispatcher's channel. */
  datatype ProviderCall =
    | TwilioCreate(body: string, to: string, from: string, mediaUrl: Option<string>)
    | SnsPublish(phoneNumber: string, message: string)
    | ProxyPublish(channel: string, number: string)

  /** A send_message_task handed to the Celery queue. */
  datatype SendTask = SendTask(toNumber: string, text: string, media: Option<string>, priority: int)

  /** The tables, and the traces left outside them: parse tasks queued (by raw id), send tasks
      queued, provider calls made, and the subjects of the mails sent to the admins. */
  datatype DbState = DbState(
    phones: seq<Phone>,
    receivers: seq<PhoneReceiver>,
    sent: seq<PhoneSent>,
    raws: seq<PhoneReceivedRaw>,
    received: seq<PhoneReceived>,
    pending: seq<PhonePendingMessages>,
    parseQueue: seq<nat>,
    sendQueue: seq<SendTask>,
    calls: seq<ProviderCall>,
    adminMails: seq<string>)

  /** Phone.save: the number is stored in E.164 form; a number that does not parse aborts the save. */
  function SavePhone(lib: PhoneLib, p: Phone): (r: Result<Phone, NumberParseError>)
    ensures r.Failure? <==> FormatPhone(lib, p.number).Failure?
    ensures r.Success? ==> r.value.rate == p.rate && r.value.usedCount == p.usedCount
    ensures r.Success? ==> Success(r.value.number) == FormatPhone(lib, p.number)
  {
    match FormatPhone(lib, p.number)
    case Failure(e) => Failure(e)
    case Success(n) => Success(p.(number := n))
  }

  /** PhoneReceiver.save: both the number and the service number are stored in E.164 form. */
  function SaveReceiver(lib: PhoneLib, r0: PhoneReceiver): (r: Result<PhoneReceiver, NumberParseError>)
    ensures r.Failure? <==> FormatPhone(lib, r0.number).Failure? || FormatPhone(lib, r0.serviceNumber).Failure?
    ensures r.Success? ==> r.value.isBlocked == r0.isBlocked
    ensures r.Success? ==> Success(r.value.number) == FormatPhone(lib, r0.number)
    ensures r.Success? ==> Success(r.value.serviceNumber) == FormatPhone(lib, r0.serviceNumber)
  {
    match FormatPhone(lib, r0.number)
    case Failure(e) => Failure(e)
    case Success(n) =>
      match FormatPhone(lib, r0.serviceNumber)
      case Failure(e) => Failure(e)
      case Success(s) => Success(r0.(number := n, serviceNumber := s))
  }

  /** Whatever save stores is a fixed point of the normalisation, for a library that is Stable. */
  lemma SavedRowsFormatted(lib: PhoneLib, p: Phone, r0: PhoneReceiver)
    requires Stable(lib)
    ensures SavePhone(lib, p).Success? ==> Formatted(lib, SavePhone(lib, p).value.number)
    ensures SaveReceiver(lib, r0).Success? ==>
      Formatted(lib, SaveReceiver(lib, r0).value.number) && Formatted(lib, SaveReceiver(lib, r0).value.serviceNumber)
  {
    if SavePhone(lib, p).Success? {
      FormatPhoneIdempotent(lib, p.number);
    }
    if SaveReceiver(lib, r0).Success? {
      FormatPhoneIdempotent(lib, r0.number);
      FormatPhoneIdempotent(lib, r0.serviceNumber);
    }
  }

  /** Saving a row that is already normalised stores it unchanged. */
  lemma ResaveUnchanged(lib: PhoneLib, p: Phone, r0: PhoneReceiver)
    requires Formatted(lib, p.number)
    requires Formatted(lib, r0.number) && Formatted(lib, r0.serviceNumber)
    ensures SavePhone(lib, p) == Success(p)
    ensures SaveReceiver(lib, r0) == Success(r0)
  {
  }

  /** The error PhoneReceiverManager raises when a filter value is not a phone number. */
  datatype DoesNotExist = DoesNotExist

  /** PhoneReceiverManager.format_fields. The loop over ("number", "service_number") returns at
      the end of its first pass, so only "number" is normalised; "service_number" is passed through
      as given. */
  function FormatFields(lib: PhoneLib, filters: map<string, string>): (r: Result<map<string, string>, DoesNotExist>)
    ensures "number" !in filters ==> r == Success(filters)
    ensures "number" in filters ==> (r.Failure? <==> FormatPhone(lib, filters["number"]).Failure?)
    ensures r.Success? ==> r.value.Keys == filters.Keys
    ensures r.Success? ==> forall k :: k in filters && k != "number" ==> r.value[k] == filters[k]
    ensures r.Success? && "number" in filters ==> Success(r.value["number"]) == FormatPhone(lib, filters["number"])
  {
    if "number" in filters then
      match FormatPhone(lib, filters["number"])
      case Failure(_) => Failure(DoesNotExist)
      case Success(n) => Success(filters["number" := n])
    else Success(filters)
  }

  /** The service number given to a lookup is compared as written, normalised or not. */
  lemma ServiceNumberNotNormalised(lib: PhoneLib, number: string, service: string)
    requires FormatFields(lib, map["number" := number, "service_number" := service]).Success?
    ensures FormatFields(lib, map["number" := number, "service_number" := service]).value["service_number"] == service
  {
  }

  /** The indices (from `i` on) of the rows that satisfy `p`, in increasing order. */
  function MatchingFrom<T>(rows: seq<T>, p: T -> bool, i: nat): (r: seq<nat>)
    requires i <= |rows|
    ensures forall k :: k in r <==> i <= k < |rows| && p(rows[k])
    ensures forall a, b :: 0 <= a < b < |r| ==> r[a] < r[b]
    decreases |rows| - i
  {
    if i == |rows| then []
    else if p(rows[i]) then
      var rest := MatchingFrom(rows, p, i + 1);
      assert forall b :: 0 <= b < |rest| ==> rest[b] in rest;
      [i] + rest
    else MatchingFrom(rows, p, i + 1)
  }

  /** What Manager.get(...) finds: exactly one row, none (DoesNotExist) or several
      (MultipleObjectsReturned). */
  datatype GetResult = Found(index: nat) | NotFound | Multiple

  function Get<T>(rows: seq<T>, p: T -> bool): (r: GetResult)
    ensures r == NotFound <==> forall i :: 0 <= i < |rows| ==> !p(rows[i])
    ensures r.Found? ==> r.index < |rows| && p(rows[r.index])
    ensures r.Found? ==> forall j :: 0 <= j < |rows| && j != r.index ==> !p(rows[j])
    ensures r == Multiple <==> exists i, j :: 0 <= i < j < |rows| && p(rows[i]) && p(rows[j])
  {
    var m := MatchingFrom(rows, p, 0);
    if |m| == 0 then NotFound
    else if |m| == 1 then
      assert m[0] in m;
      assert forall k :: k in m ==> k == m[0];
      Found(m[0])
    else
      assert m[0] in m && m[1] in m;
      Multiple
  }

  /** Phone.objects.all().order_by('used_count').first(): a phone with the least use count, the
      first such one in table order; None for an empty pool. */
  function LeastUsed(phones: seq<Phone>): (r: Option<nat>)
    ensures r.None? <==> phones == []
    ensures r.Some? ==> r.value < |phones|
    ensures r.Some? ==> forall j :: 0 <= j < |phones| ==> phones[r.value].usedCount <= phones[j].usedCount
    ensures r.Some? ==> forall j :: 0 <= j < r.value ==> phones[j].usedCount > phones[r.value].usedCount
    decreases |phones|
  {
    if phones == [] then None
    else
      var last := |phones| - 1;
      match LeastUsed(phones[..last])
      case None => Some(last)
      case Some(k) =>
        assert forall j :: 0 <= j < last ==> phones[..last][j] == phones[j];
        if phones[k].usedCount <= phones[last].usedCount then Some(k) else Some(last)
  }

  /** Every foreign key refers to an existing row. */
  predicate Linked(s: DbState) {
    && (forall i :: 0 <= i < |s.sent| ==> s.sent[i].receiver < |s.receivers|)
    && (forall i :: 0 <= i < |s.received| ==> s.received[i].receiver < |s.receivers|)
    && (forall i :: 0 <= i < |s.received| ==> s.received[i].raw.Some? ==> s.received[i].raw.value < |s.raws|)
    && (forall i :: 0 <= i < |s.pending| ==> s.pending[i].message.Some? ==> s.pending[i].message.value < |s.sent|)
  }

  /** The invariant of the tables when every row has been written through save: the foreign keys
      hold, stored numbers are normalised, and the numbers of phones and of receivers are unique. */
  ghost predicate Consistent(lib: PhoneLib, s: DbState) {
    && Stable(lib)
    && Linked(s)
    && (forall i :: 0 <= i < |s.phones| ==> Formatted(lib, s.phones[i].number))
    && (forall i, j :: 0 <= i < j < |s.phones| ==> s.phones[i].number != s.phones[j].number)
    && (forall i :: 0 <= i < |s.receivers| ==> Formatted(lib, s.receivers[i].number))
    && (forall i :: 0 <= i < |s.receivers| ==> Formatted(lib, s.receivers[i].serviceNumber))
    && (forall i, j :: 0 <= i < j < |s.receivers| ==> s.receivers[i].number != s.receivers[j].number)
    && (forall i :: 0 <= i < |s.pending| ==> Formatted(lib, s.pending[i].fromPhone))
  }

  /** In a consistent database a receiver lookup by number never finds several rows. */
  lemma ReceiverLookupUnique(lib: PhoneLib, s: DbState, p: PhoneReceiver -> bool, number: string)
    requires Consistent(lib, s)
    requires forall r :: p(r) ==> r.number == number
    ensures Get(s.receivers, p) != Multiple
  {
    assert forall i, j :: 0 <= i < j < |s.receivers| && p(s.receivers[i]) ==> !p(s.receivers[j]);
  }

  /** PhoneSent.send acts only on a message that is pending or queued. */
  predicate Sendable(m: PhoneSent) {
    m.status == SentPending || m.status == SentQueued
  }
}
