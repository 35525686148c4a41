/**
  The legacy APNS binary interface: assembling the JSON payload of a notification, refusing a
  payload above the provider's size limit, packing the notification frame (command 2 with five
  items), and decoding the 6-byte error reply. Sockets and TLS are not modelled: `ApnsSend`
  returns the frame that would be written. JSON encoding is an oracle.
*/
module Apns {
  import opened Wrappers
  import JsonField

  type byte = x: int | 0 <= x < 256

  // ---------------------------------------------------------------- big-endian integers

  function Be16(n: nat): (r: seq<byte>)
    requires n < 0x1_0000
    ensures |r| == 2
  {
    [n / 0x100, n % 0x100]
  }

  function Be16Value(b: seq<byte>): nat
    requires |b| == 2
  {
    (b[0] as int) * 0x100 + (b[1] as int)
  }

  function Be32(n: nat): (r: seq<byte>)
    requires n < 0x1_0000_0000
    ensures |r| == 4
  {
    Be16(n / 0x1_0000) + Be16(n % 0x1_0000)
  }

  function Be32Value(b: seq<byte>): nat
    requires |b| == 4
  {
    Be16Value(b[..2]) * 0x1_0000 + Be16Value(b[2..])
  }

  lemma Be16RoundTrip(n: nat)
    requires n < 0x1_0000
    ensures Be16Value(Be16(n)) == n
  {
  }

  lemma Be32RoundTrip(n: nat)
    requires n < 0x1_0000_0000
    ensures Be32Value(Be32(n)) == n
  {
    var b := Be32(n);
    assert b[..2] == Be16(n / 0x1_0000);
    assert b[2..] == Be16(n % 0x1_0000);
    Be16RoundTrip(n / 0x1_0000);
    Be16RoundTrip(n % 0x1_0000);
  }

  // ---------------------------------------------------------------- hex tokens

  function HexDigit(c: char): Option<nat> {
    if '0' <= c <= '9' then Some(c as int - '0' as int)
    else if 'a' <= c <= 'f' then Some(c as int - 'a' as int + 10)
    else if 'A' <= c <= 'F' then Some(c as int - 'A' as int + 10)
    else None
  }

  /** binascii.unhexlify: None for odd-length text or a non-hex character. */
  function Unhexlify(s: string): (r: Option<seq<byte>>)
    ensures r.Some? ==> 2 * |r.value| == |s|
  {
    if s == [] then Some([])
    else if |s| == 1 then None
    else match (HexDigit(s[0]), HexDigit(s[1]), Unhexlify(s[2..])) {
      case (Some(hi), Some(lo), Some(rest)) =>
        if hi < 16 && lo < 16 then Some([hi * 16 + lo] + rest) else None
      case _ => None
    }
  }

  function HexChar(d: nat): (c: char)
    requires d < 16
    ensures HexDigit(c) == Some(d)
  {
    if d < 10 then ('0' as int + d) as char else ('a' as int + d - 10) as char
  }

  /** binascii.hexlify, lower case. */
  function Hexlify(b: seq<byte>): (s: string)
    ensures |s| == 2 * |b|
  {
    if b == [] then [] else [HexChar(b[0] / 16), HexChar(b[0] % 16)] + Hexlify(b[1..])
  }

  /** Every byte string is the unhexlified form of its hex rendering. */
  lemma {:induction false} UnhexlifyHexlify(b: seq<byte>)
    ensures Unhexlify(Hexlify(b)) == Some(b)
  {
    if b != [] {
      UnhexlifyHexlify(b[1..]);
      var s := Hexlify(b);
      assert s[2..] == Hexlify(b[1..]);
      assert [b[0]] + b[1..] == b;
    }
  }

  // ---------------------------------------------------------------- the notification frame

  /** One frame item: a 1-byte item id, a 2-byte big-endian length, the data. */
  function Item(id: byte, data: seq<byte>): (r: seq<byte>)
    requires |data| < 0x1_0000
    ensures |r| == 3 + |data|
  {
    [id] + Be16(|data|) + data
  }

  datatype FrameError = InvalidToken | StructError

  /** The frame_len field: five 3-byte item prefixes, the token, the payload, 4 + 4 + 1 bytes. */
  function FrameLength(tokenLength: nat, payloadLength: nat): nat {
    3 * 5 + tokenLength + payloadLength + 4 + 4 + 1
  }

  /** The five items: token, payload, identifier, expiration, priority. */
  function Items(token: seq<byte>, payload: seq<byte>, identifier: nat, expiration: nat, priority: byte): (r: seq<byte>)
    requires |token| < 0x1_0000 && |payload| < 0x1_0000
    requires identifier < 0x1_0000_0000 && expiration < 0x1_0000_0000
    ensures |r| == FrameLength(|token|, |payload|)
  {
    Item(1, token) + Item(2, payload) + Tail(identifier, expiration, priority)
  }

  /** Items 3 to 5, of fixed sizes 4, 4 and 1. */
  function Tail(identifier: nat, expiration: nat, priority: byte): (r: seq<byte>)
    requires identifier < 0x1_0000_0000 && expiration < 0x1_0000_0000
    ensures |r| == 3 * 3 + 4 + 4 + 1
  {
    Item(3, Be32(identifier)) + Item(4, Be32(expiration)) + Item(5, [priority])
  }

  /** The widths the packed frame gives its fields: two-byte item lengths, a four-byte frame
      length, identifier and expiration, a one-byte priority. */
  predicate FrameFits(tokenLength: nat, payloadLength: nat, identifier: int, expiration: int, priority: int) {
    && tokenLength < 0x1_0000 && payloadLength < 0x1_0000
    && FrameLength(tokenLength, payloadLength) < 0x1_0000_0000
    && 0 <= identifier < 0x1_0000_0000 && 0 <= expiration < 0x1_0000_0000 && 0 <= priority < 0x100
  }

  /** _apns_pack_frame: unhexlify raises on a malformed token, struct.pack when a value does not
      fit its field. */
  function PackFrame(tokenHex: string, payload: seq<byte>, identifier: int, expiration: int, priority: int): (r: Result<seq<byte>, FrameError>)
    ensures Unhexlify(tokenHex) == None ==> r == Failure(InvalidToken)
    ensures r.Success? <==>
      Unhexlify(tokenHex).Some? && FrameFits(|Unhexlify(tokenHex).value|, |payload|, identifier, expiration, priority)
    ensures Unhexlify(tokenHex).Some? && !FrameFits(|Unhexlify(tokenHex).value|, |payload|, identifier, expiration, priority)
      ==> r == Failure(StructError)
    ensures r.Success? ==> |r.value| == 5 + FrameLength(|tokenHex| / 2, |payload|)
  {
    match Unhexlify(tokenHex) {
      case None => Failure(InvalidToken)
      case Some(token) =>
        if FrameFits(|token|, |payload|, identifier, expiration, priority)
        then Success([2] + Be32(FrameLength(|token|, |payload|)) + Items(token, payload, identifier, expiration, priority))
        else Failure(StructError)
    }
  }

  /** The fields a notification frame carries. */
  datatype Notification = Notification(token: seq<byte>, payload: seq<byte>, identifier: nat, expiration: nat, priority: nat)

  /** Reads one item with the expected id; returns its data and what follows. */
  function ParseItem(id: byte, b: seq<byte>): (r: Option<(seq<byte>, seq<byte>)>)
    ensures r.Some? ==> |r.value.1| < |b|
  {
    if |b| < 3 || b[0] != id then None
    else
      var n := Be16Value(b[1..3]);
      if |b| < 3 + n then None else Some((b[3..3 + n], b[3 + n..]))
  }

  /** An independent reader of the frame format: command 2, the length of the rest, then the
      items 1 to 5 in order. */
  function ParseFrame(f: seq<byte>): Option<Notification> {
    if |f| < 5 || f[0] != 2 || |f| != 5 + Be32Value(f[1..5]) then None
    else ParseItems(f[5..])
  }

  function ParseItems(b: seq<byte>): Option<Notification> {
    match ParseItem(1, b)
    case None => None
    case Some((token, r1)) =>
      match ParseItem(2, r1)
      case None => None
      case Some((payload, r2)) =>
        match ParseTail(r2)
        case None => None
        case Some((identifier, expiration, priority)) =>
          Some(Notification(token, payload, identifier, expiration, priority))
  }

  /** Items 3 and 4 must hold four bytes, item 5 one byte, and nothing may follow. */
  function ParseTail(b: seq<byte>): Option<(nat, nat, nat)> {
    match ParseItem(3, b)
    case None => None
    case Some((ident, r3)) =>
      match ParseItem(4, r3)
      case None => None
      case Some((expiry, r4)) =>
        match ParseItem(5, r4)
        case None => None
        case Some((prio, r5)) =>
          if |ident| == 4 && |expiry| == 4 && |prio| == 1 && r5 == [] then
            Some((Be32Value(ident), Be32Value(expiry), prio[0] as nat))
          else None
  }

  lemma ParseItemOfItem(id: byte, data: seq<byte>, rest: seq<byte>)
    requires |data| < 0x1_0000
    ensures ParseItem(id, Item(id, data) + rest) == Some((data, rest))
  {
    var b := Item(id, data) + rest;
    assert b[1..3] == Be16(|data|);
    Be16RoundTrip(|data|);
    assert b[3..3 + |data|] == data;
    assert b[3 + |data|..] == rest;
  }

  lemma ParseTailOfTail(identifier: nat, expiration: nat, priority: byte)
    requires identifier < 0x1_0000_0000 && expiration < 0x1_0000_0000
    ensures ParseTail(Tail(identifier, expiration, priority)) == Some((identifier, expiration, priority as nat))
  {
    var i3, i4, i5 := Item(3, Be32(identifier)), Item(4, Be32(expiration)), Item(5, [priority]);
    assert Tail(identifier, expiration, priority) == i3 + (i4 + i5);
    ParseItemOfItem(3, Be32(identifier), i4 + i5);
    ParseItemOfItem(4, Be32(expiration), i5);
    assert i5 + [] == i5;
    ParseItemOfItem(5, [priority], []);
    Be32RoundTrip(identifier);
    Be32RoundTrip(expiration);
  }

  lemma ParseItemsOfItems(token: seq<byte>, payload: seq<byte>, identifier: nat, expiration: nat, priority: byte)
    requires |token| < 0x1_0000 && |payload| < 0x1_0000
    requires identifier < 0x1_0000_0000 && expiration < 0x1_0000_0000
    ensures ParseItems(Items(token, payload, identifier, expiration, priority))
      == Some(Notification(token, payload, identifier, expiration, priority))
  {
    var tail := Tail(identifier, expiration, priority);
    assert Items(token, payload, identifier, expiration, priority) == Item(1, token) + (Item(2, payload) + tail);
    ParseItemOfItem(1, token, Item(2, payload) + tail);
    ParseItemOfItem(2, payload, tail);
    ParseTailOfTail(identifier, expiration, priority);
  }

  /** Every frame PackFrame builds reads back as the notification it was built from. */
  lemma PackThenParse(tokenHex: string, payload: seq<byte>, identifier: int, expiration: int, priority: int)
    requires PackFrame(tokenHex, payload, identifier, expiration, priority).Success?
    ensures ParseFrame(PackFrame(tokenHex, payload, identifier, expiration, priority).value)
      == Some(Notification(Unhexlify(tokenHex).value, payload, identifier, expiration, priority))
  {
    var token := Unhexlify(tokenHex).value;
    var frameLen := FrameLength(|token|, |payload|);
    var items := Items(token, payload, identifier, expiration, priority);
    var f := [2] + Be32(frameLen) + items;
    assert f == PackFrame(tokenHex, payload, identifier, expiration, priority).value;
    assert f[1..5] == Be32(frameLen);
    Be32RoundTrip(frameLen);
    assert f[5..] == items;
    ParseItemsOfItems(token, payload, identifier, expiration, priority);
  }

  // ---------------------------------------------------------------- the error reply

  /** The outcome of reading the 6-byte error reply. */
  datatype ReplyCheck =
    | NoError                                 // no reply, or status 0
    | ServerError(status: nat, identifier: nat) // APNSServerError
    | BadCommand                              // the assertion that the command is 8
    | Malformed                               // struct.error: not exactly 6 bytes

  /** The decode part of _apns_check_errors, unpacking "!BBI". */
  function DecodeReply(data: seq<byte>): (r: ReplyCheck)
    ensures data == [] ==> r == NoError
    ensures data != [] && |data| != 6 ==> r == Malformed
    ensures r.ServerError? ==> |data| == 6 && data[0] == 8 && r.status != 0
    ensures |data| == 6 && data[0] != 8 ==> r == BadCommand
    ensures |data| == 6 && data[0] == 8 && data[1] == 0 ==> r == NoError
    ensures |data| == 6 && data[0] == 8 && data[1] != 0 ==> r == ServerError(data[1], Be32Value(data[2..]))
  {
    if data == [] then NoError
    else if |data| != 6 then Malformed
    else if data[0] != 8 then BadCommand
    else if data[1] != 0 then ServerError(data[1], Be32Value(data[2..]))
    else NoError
  }

  /** The reply the service sends: command 8, a status byte, the notification identifier. */
  function EncodeReply(status: byte, identifier: nat): (r: seq<byte>)
    requires identifier < 0x1_0000_0000
    ensures |r| == 6
  {
    [8, status] + Be32(identifier)
  }

  /** A well-formed reply decodes to its status and identifier; status 0 is not an error. */
  lemma DecodeEncodeReply(status: byte, identifier: nat)
    requires identifier < 0x1_0000_0000
    ensures DecodeReply(EncodeReply(status, identifier))
      == if status == 0 then NoError else ServerError(status, identifier)
  {
    assert EncodeReply(status, identifier)[2..] == Be32(identifier);
    Be32RoundTrip(identifier);
  }

  // ---------------------------------------------------------------- the payload

  /** The keyword arguments of _apns_send (app_id and the socket excepted). */
  datatype SendArgs = SendArgs(
    alert: Option<string>,
    badge: Option<int>,
    sound: Option<string>,
    category: Option<string>,
    contentAvailable: bool,
    actionLocKey: Option<string>,
    locKey: Option<string>,
    locArgs: seq<string>,
    extra: map<string, JsonField.Value>,
    identifier: int,
    expiration: Option<int>,
    priority: int)

  /** The arguments apns_send_message passes to _apns_send for a message with no extra data: the
      message as the alert and every other parameter at its default. */
  function DefaultArgs(alert: Option<string>): (a: SendArgs)
    ensures a.alert == alert
    ensures a.badge == None && a.sound == None && a.category == None && !a.contentAvailable
    ensures a.actionLocKey == None && a.locKey == None && a.locArgs == [] && a.extra == map[]
    ensures a.identifier == 0 && a.expiration == None && a.priority == 10
  {
    SendArgs(alert, None, None, None, false, None, None, [], map[], 0, None, 10)
  }

  /** Python truthiness of an optional string. */
  predicate Set(s: Option<string>) {
    s.Some? && s.value != ""
  }

  /** A localisation key or arguments turn the alert into a dictionary. */
  predicate Localised(a: SendArgs) {
    Set(a.actionLocKey) || Set(a.locKey) || a.locArgs != []
  }

  /** The JSON list of `loc_args`: each argument as a JSON string, in order. */
  function Strs(ss: seq<string>): (r: seq<JsonField.Value>)
    ensures |r| == |ss|
    ensures forall i :: 0 <= i < |ss| ==> r[i] == JsonField.Str(ss[i])
  {
    if ss == [] then [] else [JsonField.Str(ss[0])] + Strs(ss[1..])
  }

  /** The value stored under "alert", if any. */
  function Alert(a: SendArgs): (r: Option<JsonField.Value>)
    ensures Localised(a) ==> (
      && r.Some? && r.value.Dict?
      && ("body" in r.value.entries <==> Set(a.alert))
      && ("action-loc-key" in r.value.entries <==> Set(a.actionLocKey))
      && ("loc-key" in r.value.entries <==> Set(a.locKey))
      && ("loc-args" in r.value.entries <==> a.locArgs != [])
      && r.value.entries.Keys <= {"body", "action-loc-key", "loc-key", "loc-args"})
    ensures Localised(a) && Set(a.alert) ==> r.value.entries["body"] == JsonField.Str(a.alert.value)
    ensures Localised(a) && Set(a.actionLocKey) ==> r.value.entries["action-loc-key"] == JsonField.Str(a.actionLocKey.value)
    ensures Localised(a) && Set(a.locKey) ==> r.value.entries["loc-key"] == JsonField.Str(a.locKey.value)
    ensures Localised(a) && a.locArgs != [] ==> r.value.entries["loc-args"] == JsonField.List(Strs(a.locArgs))
    ensures !Localised(a) ==> r == (if a.alert.Some? then Some(JsonField.Str(a.alert.value)) else None)
  {
    if Localised(a) then
      var d0: map<string, JsonField.Value> := if Set(a.alert) then map["body" := JsonField.Str(a.alert.value)] else map[];
      var d1 := if Set(a.actionLocKey) then d0["action-loc-key" := JsonField.Str(a.actionLocKey.value)] else d0;
      var d2 := if Set(a.locKey) then d1["loc-key" := JsonField.Str(a.locKey.value)] else d1;
      var d3 := if a.locArgs != [] then d2["loc-args" := JsonField.List(Strs(a.locArgs))] else d2;
      Some(JsonField.Dict(d3))
    else if a.alert.Some? then Some(JsonField.Str(a.alert.value))
    else None
  }

  /** The "aps" dictionary: only the fields that are not None, and content-available 1 when asked. */
  function Aps(a: SendArgs): (aps: map<string, JsonField.Value>)
    ensures "alert" in aps <==> Alert(a).Some?
    ensures "badge" in aps <==> a.badge.Some?
    ensures "sound" in aps <==> a.sound.Some?
    ensures "category" in aps <==> a.category.Some?
    ensures "content-available" in aps <==> a.contentAvailable
    ensures "alert" in aps ==> aps["alert"] == Alert(a).value
    ensures a.badge.Some? ==> aps["badge"] == JsonField.Int(a.badge.value)
    ensures a.sound.Some? ==> aps["sound"] == JsonField.Str(a.sound.value)
    ensures a.category.Some? ==> aps["category"] == JsonField.Str(a.category.value)
    ensures a.contentAvailable ==> aps["content-available"] == JsonField.Int(1)
    ensures aps.Keys <= {"alert", "badge", "sound", "category", "content-available"}
  {
    var m0: map<string, JsonField.Value> := if Alert(a).Some? then map["alert" := Alert(a).value] else map[];
    var m1 := if a.badge.Some? then m0["badge" := JsonField.Int(a.badge.value)] else m0;
    var m2 := if a.sound.Some? then m1["sound" := JsonField.Str(a.sound.value)] else m1;
    var m3 := if a.category.Some? then m2["category" := JsonField.Str(a.category.value)] else m2;
    if a.contentAvailable then m3["content-available" := JsonField.Int(1)] else m3
  }

  /** The whole payload: "aps" first, then `extra` merged on top, so `extra` wins on a clash. */
  function Payload(a: SendArgs): (p: map<string, JsonField.Value>)
    ensures p.Keys == {"aps"} + a.extra.Keys
    ensures "aps" !in a.extra ==> p["aps"] == JsonField.Dict(Aps(a))
    ensures forall k :: k in a.extra ==> p[k] == a.extra[k]
  {
    map["aps" := JsonField.Dict(Aps(a))] + a.extra
  }

  /** Thirty days, the default lifetime of a notification. */
  const DefaultLifetime: int := 2592000

  datatype SendError = DataOverflow | NotSerialisable | Frame(e: FrameError)

  /** _apns_send up to the socket write: encode the payload, refuse it when it is longer than
      `maxSize`, default the expiration to `now` plus thirty days, and pack the frame. */
  function ApnsSend(tokenHex: string, a: SendArgs, encode: JsonField.Value -> Option<seq<byte>>, maxSize: nat, now: int): (r: Result<seq<byte>, SendError>)
    ensures encode(JsonField.Dict(Payload(a))) == None ==> r == Failure(NotSerialisable)
    ensures r == Failure(DataOverflow) <==>
      (encode(JsonField.Dict(Payload(a))).Some? && |encode(JsonField.Dict(Payload(a))).value| > maxSize)
    ensures r.Success? ==>
      var json := encode(JsonField.Dict(Payload(a))).value;
      |json| <= maxSize &&
      PackFrame(tokenHex, json, a.identifier, a.expiration.GetOr(now + DefaultLifetime), a.priority) == Success(r.value)
  {
    match encode(JsonField.Dict(Payload(a))) {
      case None => Failure(NotSerialisable)
      case Some(json) =>
        if |json| > maxSize then Failure(DataOverflow)
        else
          var expiration := if a.expiration.Some? then a.expiration.value else now + DefaultLifetime;
          match PackFrame(tokenHex, json, a.identifier, expiration, a.priority) {
            case Failure(e) => Failure(Frame(e))
            case Success(f) => Success(f)
          }
    }
  }

  /** A frame that is sent carries the encoded payload and, when none was given, an expiration
      thirty days after `now`. */
  lemma SentFrameContents(tokenHex: string, a: SendArgs, encode: JsonField.Value -> Option<seq<byte>>, maxSize: nat, now: int)
    requires ApnsSend(tokenHex, a, encode, maxSize, now).Success?
    ensures var n := ParseFrame(ApnsSend(tokenHex, a, encode, maxSize, now).value);
      && n.Some?
      && n.value.payload == encode(JsonField.Dict(Payload(a))).value
      && |n.value.payload| <= maxSize
      && (a.expiration == None ==> n.value.expiration == now + DefaultLifetime)
      && (a.expiration.Some? ==> n.value.expiration == a.expiration.value)
      && n.value.identifier == a.identifier && n.value.priority == a.priority
      && n.value.token == Unhexlify(tokenHex).value
  {
    var json := encode(JsonField.Dict(Payload(a))).value;
    PackThenParse(tokenHex, json, a.identifier, a.expiration.GetOr(now + DefaultLifetime), a.priority);
  }

  /** The payload of a plain message: {"aps": {"alert": message}}, or {"aps": {}} without one. */
  function PlainPayload(alert: Option<string>): map<string, JsonField.Value>
  {
    map["aps" := JsonField.Dict(if alert.Some? then map["alert" := JsonField.Str(alert.value)] else map[])]
  }

  /** apns_send_message with no extra data sends exactly the plain payload. */
  lemma PlainMessagePayload(alert: Option<string>)
    ensures Payload(DefaultArgs(alert)) == PlainPayload(alert)
  {
    var a := DefaultArgs(alert);
    assert !Localised(a);
    var aps: map<string, JsonField.Value> := if alert.Some? then map["alert" := JsonField.Str(alert.value)] else map[];
    assert Aps(a).Keys == aps.Keys;
    assert Aps(a) == aps;
  }

  /** The frame of a plain message carries that payload, identifier 0, priority 10 and an expiry
      thirty days from now. */
  lemma PlainMessageFrame(tokenHex: string, alert: Option<string>, encode: JsonField.Value -> Option<seq<byte>>, maxSize: nat, now: int)
    requires ApnsSend(tokenHex, DefaultArgs(alert), encode, maxSize, now).Success?
    ensures var n := ParseFrame(ApnsSend(tokenHex, DefaultArgs(alert), encode, maxSize, now).value);
      && n.Some?
      && encode(JsonField.Dict(PlainPayload(alert))) == Some(n.value.payload)
      && n.value.identifier == 0 && n.value.priority == 10 && n.value.expiration == now + DefaultLifetime
  {
    PlainMessagePayload(alert);
    SentFrameContents(tokenHex, DefaultArgs(alert), encode, maxSize, now);
  }
}
