/**
  The per-notification logic of the dispatch engine: the notification classes and their channels,
  the category check, the subscription filter, receiver and message preparation, what send_inner
  hands to each transport, and the history rows. The pipeline that strings these together, and
  the chaining interpreter, are in module Dispatch.
*/
module Notifications {
  import opened Wrappers
  import Text
  import Devices

  /** The item a notification is about, and the free-form context; both are opaque to the engine. */
  type Item = map<string, string>
  type Context = map<string, string>

  /** A user as the engine sees it. Django compares model instances by primary key, so two
      receivers are "the same user" when their ids agree. */
  datatype Receiver = Receiver(id: int, email: string, phone: string, firstName: string, lastName: string)

  /** Template rendering of a template with the context {"item": item}, and the serializer named by
      `serializer` applied to (item, context, many); both are outside the model. */
  datatype Renderer = Renderer(
    render: (string, Item) -> string,
    serialize: (string, Item, Context, bool) -> string)

  /** The four concrete notification classes with their class attributes. */
  datatype Channel =
    | WebSocket(message: string, serializer: string, serializerMany: bool)
    | Sms(template: string)
    | Email(emailName: string, emailSubject: string)
    | Push(template: string)

  const PriorityCategory: string := "system"
  const DefaultCategory: string := "default"

  /** What send_inner returns; every channel returns None. */
  datatype SendResult = NoneResult

  type Transform = (Item, seq<Receiver>, Context) -> (Item, seq<Receiver>, Context)
  type Condition = (Item, seq<Receiver>, Context, SendResult) -> bool

  /** A user-defined notification class. `name` is the Python class name; `category` defaults to
      DefaultCategory and `checkSubscription` to true, except for WebSocket classes where it
      defaults to false. An empty category stands for any falsy value (None or ""). */
  datatype NotificationClass = NotificationClass(
    name: string,
    channel: Channel,
    category: string,
    checkSubscription: bool,
    chaining: seq<ChainConf>)

  /** One entry of `chaining`: the class to send, the delay in seconds, and the optional
      transform and condition. */
  datatype ChainConf = ChainConf(
    cls: NotificationClass,
    delay: int,
    transform: Option<Transform>,
    condition: Option<Condition>)

  function TypeName(ch: Channel): string
  {
    match ch
    case WebSocket(_, _, _) => "WebSocket"
    case Sms(_) => "SMS"
    case Email(_, _) => "Email"
    case Push(_) => "Push"
  }

  /** The key under which settings and subscriptions are stored: get_type().lower(). */
  function TypeKey(ch: Channel): string
  {
    Text.Lower(TypeName(ch))
  }

  /* ---------------- category check ---------------- */

  datatype ConfigError =
    | CategoryRequired
    | CategoriesNotDefined
    | NoSuchCategory(typeName: string, category: string)

  /** The UNIVERSAL_NOTIFICATIONS_CATEGORIES setting: None when it is not defined, otherwise the
      category keys configured for each lower-cased type. */
  type CategorySettings = Option<map<string, set<string>>>

  function CheckCategory(cls: NotificationClass, settings: CategorySettings): (r: Result<(), ConfigError>)
    ensures cls.category == PriorityCategory ==> r.Success?
    ensures r.Success? <==>
      cls.category == PriorityCategory ||
      (cls.category != "" && settings.Some? &&
       TypeKey(cls.channel) in settings.value && cls.category in settings.value[TypeKey(cls.channel)])
    ensures r == Failure(CategoryRequired) <==> cls.category == ""
    ensures r == Failure(CategoriesNotDefined) <==>
      cls.category != PriorityCategory && cls.category != "" && settings.None?
    ensures r.Failure? && r.error.NoSuchCategory? ==>
      r.error == NoSuchCategory(TypeName(cls.channel), cls.category)
  {
    if cls.category == PriorityCategory then Success(())
    else if cls.category == "" then Failure(CategoryRequired)
    else if settings.None? then Failure(CategoriesNotDefined)
    else
      var categories := if TypeKey(cls.channel) in settings.value then settings.value[TypeKey(cls.channel)] else {};
      if cls.category !in categories then Failure(NoSuchCategory(TypeName(cls.channel), cls.category))
      else Success(())
  }

  /* ---------------- subscription filter ---------------- */

  /** A row of the UnsubscribedUser table. */
  datatype UnsubscribedUser = UnsubscribedUser(user: int, fromAll: bool, unsubscribed: map<string, seq<string>>)

  /** Whether a row removes its user from notifications of this class. The "all" marker written
      by the subscription serializer is not consulted here. */
  predicate Unsubscribes(u: UnsubscribedUser, cls: NotificationClass)
  {
    u.fromAll ||
    (TypeKey(cls.channel) in u.unsubscribed && cls.category in u.unsubscribed[TypeKey(cls.channel)])
  }

  function Ids(rs: seq<Receiver>): set<int>
  {
    set r | r in rs :: r.id
  }

  /** The rows whose user is among `ids`, in table order. */
  function Query(table: seq<UnsubscribedUser>, ids: set<int>): (q: seq<UnsubscribedUser>)
    ensures forall u :: u in q <==> u in table && u.user in ids
  {
    if table == [] then []
    else (if table[0].user in ids then [table[0]] else []) + Query(table[1..], ids)
  }

  /** list.remove by user identity: drops the first receiver with that id, or fails (ValueError)
      when there is none. */
  function RemoveFirst(rs: seq<Receiver>, id: int): (r: Option<seq<Receiver>>)
    ensures r.None? <==> id !in Ids(rs)
    ensures r.Some? ==> |r.value| == |rs| - 1
    ensures r.Some? ==> forall x :: x in r.value ==> x in rs
  {
    if rs == [] then None
    else if rs[0].id == id then Some(rs[1..])
    else match RemoveFirst(rs[1..], id)
      case None => None
      case Some(t) => Some([rs[0]] + t)
  }

  /** Concatenation regroups freely. */
  lemma SeqAssoc<X>(a: seq<X>, b: seq<X>, c: seq<X>)
    ensures (a + b) + c == a + (b + c)
  {
  }

  /** The position of the first receiver with the id, or |rs| when there is none. */
  function FirstIndexOf(rs: seq<Receiver>, id: int): (k: nat)
    ensures k <= |rs|
    ensures k < |rs| ==> rs[k].id == id
    ensures forall j :: 0 <= j < k ==> rs[j].id != id
  {
    if rs == [] then 0
    else if rs[0].id == id then 0
    else 1 + FirstIndexOf(rs[1..], id)
  }

  /** What list.remove removes: the receiver at the first position holding the id; the receivers
      before and after it keep their order; with no such position, ValueError. */
  lemma {:induction false} RemoveFirstAtFirstIndex(rs: seq<Receiver>, id: int)
    ensures var k := FirstIndexOf(rs, id);
      RemoveFirst(rs, id) == if k == |rs| then None else Some(rs[..k] + rs[k + 1..])
  {
    if rs != [] && rs[0].id != id {
      var t := rs[1..];
      RemoveFirstAtFirstIndex(t, id);
      var k' := FirstIndexOf(t, id);
      if k' < |t| {
        var k := k' + 1;
        assert rs[..k] == [rs[0]] + t[..k'];
        assert rs[k + 1..] == t[k' + 1..];
        SeqAssoc([rs[0]], t[..k'], t[k' + 1..]);
      }
    } else if rs != [] {
      assert rs[..0] + rs[1..] == rs[1..];
    }
  }

  datatype SendError =
    | Misconfigured(config: ConfigError)
    | NotInList(user: int)
    | TransportError(message: string)  // an exception raised by a transport call of send_inner

  /** The removal loop over the queried rows: the list after it, and the error that stopped it. */
  function Removals(rs: seq<Receiver>, rows: seq<UnsubscribedUser>, cls: NotificationClass): (r: (seq<Receiver>, Option<SendError>))
    ensures |r.0| <= |rs| && forall x :: x in r.0 ==> x in rs
    ensures r.1.Some? ==> r.1.value.NotInList? && r.1.value.user !in Ids(r.0)
    ensures (forall u :: u in rows ==> !Unsubscribes(u, cls)) ==> r == (rs, None)
    decreases rows
  {
    if rows == [] then (rs, None)
    else if !Unsubscribes(rows[0], cls) then Removals(rs, rows[1..], cls)
    else match RemoveFirst(rs, rows[0].user)
      case None => (rs, Some(NotInList(rows[0].user)))
      case Some(t) => Removals(t, rows[1..], cls)
  }

  /** One step of the removal loop, at row i. */
  lemma RemovalsStep(rs: seq<Receiver>, rows: seq<UnsubscribedUser>, i: nat, cls: NotificationClass)
    requires i < |rows|
    ensures Removals(rs, rows[i..], cls) ==
      if !Unsubscribes(rows[i], cls) then Removals(rs, rows[i + 1..], cls)
      else match RemoveFirst(rs, rows[i].user)
        case None => (rs, Some(NotInList(rows[i].user)))
        case Some(t) => Removals(t, rows[i + 1..], cls)
  {
    assert rows[i..][1..] == rows[i + 1..];
  }

  predicate SkipsFilter(cls: NotificationClass)
  {
    !cls.checkSubscription || cls.category == PriorityCategory
  }

  /** verify_receivers_subscriptions: the receiver list it leaves behind and the error it raises. */
  function Filtered(cls: NotificationClass, rs: seq<Receiver>, table: seq<UnsubscribedUser>): (r: (seq<Receiver>, Option<SendError>))
    ensures SkipsFilter(cls) ==> r == (rs, None)
    ensures |r.0| <= |rs| && forall x :: x in r.0 ==> x in rs
    ensures r.1.Some? ==> r.1.value.NotInList? && r.1.value.user !in Ids(r.0)
  {
    if SkipsFilter(cls) then (rs, None)
    else Removals(rs, Query(table, Ids(rs)), cls)
  }

  /** The receivers whose id is not in `blocked`, in their original order. */
  function FilterOut(rs: seq<Receiver>, blocked: set<int>): (r: seq<Receiver>)
    ensures forall x :: x in r <==> x in rs && x.id !in blocked
  {
    if rs == [] then []
    else (if rs[0].id in blocked then [] else [rs[0]]) + FilterOut(rs[1..], blocked)
  }

  /** The users that some row of the table unsubscribes from this class. */
  function Blocked(table: seq<UnsubscribedUser>, cls: NotificationClass): set<int>
  {
    set u | u in table && Unsubscribes(u, cls) :: u.user
  }

  predicate DistinctIds(rs: seq<Receiver>)
  {
    forall i, j :: 0 <= i < j < |rs| ==> rs[i].id != rs[j].id
  }

  predicate OneRowPerUser(table: seq<UnsubscribedUser>)
  {
    forall i, j :: 0 <= i < j < |table| ==> table[i].user != table[j].user
  }

  lemma {:induction false} RemoveFirstDistinct(rs: seq<Receiver>, id: int)
    requires DistinctIds(rs) && id in Ids(rs)
    ensures RemoveFirst(rs, id) == Some(FilterOut(rs, {id}))
  {
    assert DistinctIds(rs[1..]);
    if rs[0].id == id {
      forall x | x in rs[1..] ensures x.id !in {id} {
        var k :| 0 <= k < |rs[1..]| && rs[1..][k] == x;
        assert rs[k + 1] == x;
      }
      FilterOutNone(rs[1..], {id});
      assert FilterOut(rs, {id}) == [] + FilterOut(rs[1..], {id});
      assert [] + rs[1..] == rs[1..];
    } else {
      assert id in Ids(rs[1..]) by {
        var x :| x in rs && x.id == id;
        var k :| 0 <= k < |rs| && rs[k] == x;
        assert k != 0;
        assert rs[1..][k - 1] == x;
      }
      RemoveFirstDistinct(rs[1..], id);
      assert FilterOut(rs, {id}) == [rs[0]] + FilterOut(rs[1..], {id});
    }
  }

  lemma {:induction false} FilterOutNone(rs: seq<Receiver>, blocked: set<int>)
    requires forall x :: x in rs ==> x.id !in blocked
    ensures FilterOut(rs, blocked) == rs
  {
    if rs != [] {
      var x, tail := rs[0], rs[1..];
      assert rs == [x] + tail;
      assert x in rs;
      forall y | y in tail
        ensures y.id !in blocked
      {
        assert y in rs;
      }
      FilterOutNone(tail, blocked);
    }
  }

  lemma FilterOutCons(x: Receiver, rs: seq<Receiver>, a: set<int>)
    ensures FilterOut([x] + rs, a) == (if x.id in a then [] else [x]) + FilterOut(rs, a)
  {
    assert ([x] + rs)[1..] == rs;
  }

  lemma {:induction false} FilterOutTwice(rs: seq<Receiver>, a: set<int>, b: set<int>)
    ensures FilterOut(FilterOut(rs, a), b) == FilterOut(rs, a + b)
  {
    if rs != [] {
      var x, tail := rs[0], rs[1..];
      assert rs == [x] + tail;
      FilterOutTwice(tail, a, b);
      FilterOutCons(x, tail, a);
      FilterOutCons(x, tail, a + b);
      if x.id in a {
        assert FilterOut(rs, a) == FilterOut(tail, a);
        assert FilterOut(rs, a + b) == FilterOut(tail, a + b);
      } else {
        assert FilterOut(rs, a) == [x] + FilterOut(tail, a);
        FilterOutCons(x, FilterOut(tail, a), b);
      }
    }
  }

  lemma {:induction false} FilterOutAgree(rs: seq<Receiver>, a: set<int>, b: set<int>)
    requires forall x :: x in rs ==> (x.id in a <==> x.id in b)
    ensures FilterOut(rs, a) == FilterOut(rs, b)
  {
    if rs != [] {
      FilterOutAgree(rs[1..], a, b);
    }
  }

  lemma {:induction false} FilterOutKeepsDistinct(rs: seq<Receiver>, a: set<int>)
    requires DistinctIds(rs)
    ensures DistinctIds(FilterOut(rs, a))
  {
    if rs != [] {
      assert DistinctIds(rs[1..]);
      FilterOutKeepsDistinct(rs[1..], a);
      var t := FilterOut(rs[1..], a);
      forall x | x in t ensures x.id != rs[0].id {
        var k :| 0 <= k < |rs[1..]| && rs[1..][k] == x;
        assert rs[k + 1] == x;
      }
      var r := FilterOut(rs, a);
      assert r == (if rs[0].id in a then [] else [rs[0]]) + t;
      forall i, j | 0 <= i < j < |r| ensures r[i].id != r[j].id {
        if rs[0].id !in a && i == 0 {
          assert r[j] == t[j - 1];
          assert r[j] in t;
        }
      }
    }
  }

  /** The users a list of rows unsubscribes from this class. */
  function RowBlocked(rows: seq<UnsubscribedUser>, cls: NotificationClass): set<int>
  {
    set u | u in rows && Unsubscribes(u, cls) :: u.user
  }

  lemma RowBlockedCons(rows: seq<UnsubscribedUser>, cls: NotificationClass)
    requires rows != []
    ensures RowBlocked(rows, cls) ==
      (if Unsubscribes(rows[0], cls) then {rows[0].user} else {}) + RowBlocked(rows[1..], cls)
  {
    assert forall v :: v in rows <==> v == rows[0] || v in rows[1..] by {
      assert rows == [rows[0]] + rows[1..];
    }
  }

  lemma LaterRowsOtherUsers(rows: seq<UnsubscribedUser>)
    requires rows != [] && OneRowPerUser(rows)
    ensures OneRowPerUser(rows[1..])
    ensures forall v :: v in rows[1..] ==> v.user != rows[0].user
  {
    forall v | v in rows[1..] ensures v.user != rows[0].user {
      var k :| 0 <= k < |rows[1..]| && rows[1..][k] == v;
      assert rows[k + 1] == v;
    }
  }

  /** With one row per user, every row's user present once in the list, the removal loop never
      fails and removes exactly the unsubscribed users. */
  lemma {:induction false} RemovalsDistinct(rs: seq<Receiver>, rows: seq<UnsubscribedUser>, cls: NotificationClass)
    requires DistinctIds(rs) && OneRowPerUser(rows)
    requires forall u :: u in rows ==> u.user in Ids(rs)
    ensures Removals(rs, rows, cls) == (FilterOut(rs, RowBlocked(rows, cls)), None)
    decreases rows
  {
    if rows == [] {
      FilterOutNone(rs, {});
      assert RowBlocked(rows, cls) == {};
    } else {
      var u, rest := rows[0], rows[1..];
      LaterRowsOtherUsers(rows);
      RowBlockedCons(rows, cls);
      if Unsubscribes(u, cls) {
        RemoveFirstDistinct(rs, u.user);
        var t := FilterOut(rs, {u.user});
        FilterOutKeepsDistinct(rs, {u.user});
        forall v | v in rest ensures v.user in Ids(t) {
          var x :| x in rs && x.id == v.user;
          assert x in t;
        }
        RemovalsDistinct(t, rest, cls);
        FilterOutTwice(rs, {u.user}, RowBlocked(rest, cls));
      } else {
        forall v | v in rest ensures v.user in Ids(rs) {
          assert v in rows;
        }
        RemovalsDistinct(rs, rest, cls);
        assert RowBlocked(rows, cls) == RowBlocked(rest, cls);
        assert Removals(rs, rows, cls) == Removals(rs, rest, cls);
      }
    }
  }

  lemma {:induction false} QueryOneRowPerUser(table: seq<UnsubscribedUser>, ids: set<int>)
    requires OneRowPerUser(table)
    ensures OneRowPerUser(Query(table, ids))
  {
    if table != [] {
      assert OneRowPerUser(table[1..]);
      QueryOneRowPerUser(table[1..], ids);
      forall v | v in Query(table[1..], ids) ensures v.user != table[0].user {
        var k :| 0 <= k < |table[1..]| && table[1..][k] == v;
        assert table[k + 1] == v;
      }
    }
  }

  /** With distinct receivers and one UnsubscribedUser row per user, filtering raises nothing and
      leaves exactly the receivers that no row unsubscribes, in their original order. */
  lemma FilteredDistinct(cls: NotificationClass, rs: seq<Receiver>, table: seq<UnsubscribedUser>)
    requires DistinctIds(rs) && OneRowPerUser(table)
    ensures Filtered(cls, rs, table).1 == None
    ensures !SkipsFilter(cls) ==> Filtered(cls, rs, table).0 == FilterOut(rs, Blocked(table, cls))
    ensures SkipsFilter(cls) ==> Filtered(cls, rs, table).0 == rs
  {
    if !SkipsFilter(cls) {
      var q := Query(table, Ids(rs));
      QueryOneRowPerUser(table, Ids(rs));
      RemovalsDistinct(rs, q, cls);
      FilterOutAgree(rs, RowBlocked(q, cls), Blocked(table, cls));
    }
  }

  /** A user listed twice keeps one entry: list.remove drops only the first occurrence. */
  lemma DuplicateSurvives(cls: NotificationClass)
    requires !SkipsFilter(cls)
    ensures var a := Receiver(1, "a@example.com", "", "", "");
      Filtered(cls, [a, a], [UnsubscribedUser(1, true, map[])]) == ([a], None)
  {
    var a := Receiver(1, "a@example.com", "", "", "");
    var row := UnsubscribedUser(1, true, map[]);
    assert a in [a, a];
    assert 1 in Ids([a, a]);
    assert Query([row], Ids([a, a])) == [row] + Query([], Ids([a, a]));
    assert [a, a][1..] == [a];
    assert RemoveFirst([a, a], 1) == Some([a]);
    assert Removals([a, a], [row], cls) == Removals([a], [], cls);
  }

  /** Two rows for the same user make the second removal raise ValueError. */
  lemma SecondRowRaises(cls: NotificationClass)
    requires !SkipsFilter(cls)
    ensures var a := Receiver(1, "a@example.com", "", "", "");
      var row := UnsubscribedUser(1, true, map[]);
      Filtered(cls, [a], [row, row]) == ([], Some(NotInList(1)))
  {
    var a := Receiver(1, "a@example.com", "", "", "");
    var row := UnsubscribedUser(1, true, map[]);
    assert a in [a];
    assert 1 in Ids([a]);
    assert [row, row][1..] == [row];
    assert Query([row], Ids([a])) == [row] + Query([], Ids([a]));
    assert Query([row, row], Ids([a])) == [row, row];
    assert RemoveFirst([a], 1) == Some([]);
    assert Ids([]) == {};
    assert Removals([a], [row, row], cls) == Removals([], [row], cls);
  }

  /* ---------------- receiver preparation ---------------- */

  function KeysOf<T(==), K>(xs: seq<T>, key: T -> K): set<K>
  {
    set x | x in xs :: key(x)
  }

  /** The first element of each key, in order of first occurrence (a Python set, with its
      iteration order fixed to insertion order). */
  function DedupBy<T(==), K(==)>(xs: seq<T>, key: T -> K): (r: seq<T>)
    ensures forall i, j :: 0 <= i < j < |r| ==> key(r[i]) != key(r[j])
    ensures forall x :: x in r ==> x in xs
    ensures KeysOf(r, key) == KeysOf(xs, key)
    ensures |r| <= |xs|
  {
    if xs == [] then []
    else
      var init, x := xs[..|xs| - 1], xs[|xs| - 1];
      assert xs == init + [x];
      assert KeysOf(xs, key) == KeysOf(init, key) + {key(x)};
      var d := DedupBy(init, key);
      if key(x) in KeysOf(d, key) then d
      else
        assert KeysOf(d + [x], key) == KeysOf(d, key) + {key(x)};
        d + [x]
  }

  /** A prepared receiver: a user (WebSocket, Email, Push) or a phone number (SMS). */
  datatype Target = User(receiver: Receiver) | Number(phone: string)

  predicate TargetsFit(ch: Channel, targets: seq<Target>)
  {
    forall k :: 0 <= k < |targets| ==> (targets[k].Number? <==> ch.Sms?)
  }

  function Phones(rs: seq<Receiver>): (ps: seq<string>)
    ensures forall p :: p in ps <==> exists x :: x in rs && x.phone == p
  {
    if rs == [] then [] else [rs[0].phone] + Phones(rs[1..])
  }

  function Id(r: Receiver): int { r.id }
  function Same(p: string): string { p }

  function Numbers(ps: seq<string>): (r: seq<Target>)
    ensures |r| == |ps| && forall i :: 0 <= i < |ps| ==> r[i] == Number(ps[i])
  {
    if ps == [] then [] else [Number(ps[0])] + Numbers(ps[1..])
  }

  function Users(d: seq<Receiver>): (r: seq<Target>)
    ensures |r| == |d| && forall i :: 0 <= i < |d| ==> r[i] == User(d[i])
  {
    if d == [] then [] else [User(d[0])] + Users(d[1..])
  }

  /** prepare_receivers of SMS: each phone number of the receivers, once. */
  function PhoneTargets(rs: seq<Receiver>): (r: seq<Target>)
    ensures forall t :: t in r ==> t.Number?
    ensures forall p :: Number(p) in r <==> exists x :: x in rs && x.phone == p
    ensures forall i, j :: 0 <= i < j < |r| ==> r[i] != r[j]
  {
    var d := DedupBy(Phones(rs), Same);
    var r := Numbers(d);
    forall p ensures Number(p) in r <==> p in d {
      if p in d {
        var k :| 0 <= k < |d| && d[k] == p;
        assert r[k] == Number(p);
      }
    }
    forall p ensures p in d <==> p in Phones(rs) {
      assert Same(p) == p;
      if p in Phones(rs) {
        assert p in KeysOf(Phones(rs), Same);
        assert p in KeysOf(d, Same);
      }
    }
    r
  }

  lemma UsersFrom(d: seq<Receiver>, rs: seq<Receiver>)
    requires forall x :: x in d ==> x in rs
    ensures forall t :: t in Users(d) ==> t.User? && t.receiver in rs
  {
    var r := Users(d);
    forall t | t in r ensures t.User? && t.receiver in rs {
      var k :| 0 <= k < |r| && r[k] == t;
      assert d[k] in d;
    }
  }

  lemma UsersDistinct(d: seq<Receiver>)
    requires forall i, j :: 0 <= i < j < |d| ==> Id(d[i]) != Id(d[j])
    ensures forall i, j :: 0 <= i < j < |Users(d)| ==> Users(d)[i].receiver.id != Users(d)[j].receiver.id
  {
  }

  lemma UsersCover(d: seq<Receiver>, rs: seq<Receiver>)
    requires KeysOf(d, Id) == KeysOf(rs, Id)
    ensures forall x :: x in rs ==> exists t :: t in Users(d) && t.receiver.id == x.id
  {
    var r := Users(d);
    forall x | x in rs ensures exists t :: t in r && t.receiver.id == x.id {
      assert Id(x) in KeysOf(rs, Id);
      var y :| y in d && Id(y) == Id(x);
      var k :| 0 <= k < |d| && d[k] == y;
      assert r[k] in r;
    }
  }

  /** prepare_receivers of the other channels: each user once, by primary key. */
  function UserTargets(rs: seq<Receiver>): (r: seq<Target>)
    ensures forall t :: t in r ==> t.User? && t.receiver in rs
    ensures forall x :: x in rs ==> exists t :: t in r && t.receiver.id == x.id
    ensures forall i, j :: 0 <= i < j < |r| ==> r[i].receiver.id != r[j].receiver.id
  {
    var d := DedupBy(rs, Id);
    UsersFrom(d, rs);
    UsersDistinct(d);
    UsersCover(d, rs);
    Users(d)
  }

  /** prepare_receivers: the set of phone numbers for SMS, the set of users otherwise. */
  function PrepareReceivers(ch: Channel, rs: seq<Receiver>): (r: seq<Target>)
    ensures TargetsFit(ch, r)
    ensures ch.Sms? ==> forall p :: Number(p) in r <==> exists x :: x in rs && x.phone == p
    ensures ch.Sms? ==> forall i, j :: 0 <= i < j < |r| ==> r[i] != r[j]
    ensures !ch.Sms? ==> forall t :: t in r ==> t.receiver in rs
    ensures !ch.Sms? ==> forall x :: x in rs ==> exists t :: t in r && t.receiver.id == x.id
    ensures !ch.Sms? ==> forall i, j :: 0 <= i < j < |r| ==> r[i].receiver.id != r[j].receiver.id
  {
    if ch.Sms? then PhoneTargets(rs) else UserTargets(rs)
  }

  /* ---------------- message preparation ---------------- */

  datatype Message =
    | WsMessage(message: string, serialized: string)
    | SmsText(text: string)
    | EmailMessage(item: Item)
    | PushMessage(message: string, data: map<string, string>)

  /** prepare_message of each channel. */
  function PrepareMessage(ch: Channel, item: Item, ctx: Context, renderer: Renderer): (m: Message)
    ensures ch.WebSocket? <==> m.WsMessage?
    ensures ch.Sms? <==> m.SmsText?
    ensures ch.Email? <==> m.EmailMessage?
    ensures ch.Push? <==> m.PushMessage?
    ensures ch.Sms? ==> m.text == renderer.render(ch.template, item)
    ensures ch.Push? ==> m.message == renderer.render(ch.template, item) && m.data == map[]
    ensures ch.WebSocket? ==> m == WsMessage(ch.message, renderer.serialize(ch.serializer, item, ctx, ch.serializerMany))
    ensures ch.Email? ==> m.item == item
  {
    match ch
    case WebSocket(message, serializer, many) => WsMessage(message, renderer.serialize(serializer, item, ctx, many))
    case Sms(template) => SmsText(renderer.render(template, item))
    case Email(_, _) => EmailMessage(item)
    case Push(template) => PushMessage(renderer.render(template, item), map[])
  }

  /** Only the WebSocket message depends on the context: the SMS and Push templates are rendered
      with the item alone, and the Email message carries the item but not the context. */
  lemma ContextOnlyReachesWebSocket(ch: Channel, item: Item, c1: Context, c2: Context, renderer: Renderer)
    requires !ch.WebSocket?
    ensures PrepareMessage(ch, item, c1, renderer) == PrepareMessage(ch, item, c2, renderer)
    ensures ch.Email? ==> PrepareMessage(ch, item, c1, renderer) == EmailMessage(item)
    ensures ch.Push? ==> PrepareMessage(ch, item, c1, renderer).data == map[]
  {
  }

  /* ---------------- transport calls ---------------- */

  /** One call made by send_inner. */
  datatype Delivery =
    | Publish(receiver: Receiver, message: Message)
    | SmsCall(phone: string, text: string)
    | EmailCall(emailName: string, to: string, subject: string, item: Item, receiver: Receiver)
    | PushCall(dispatch: Devices.Dispatch)

  /** EmailNotification.format_receiver: "first last <email>". */
  function FormatReceiver(r: Receiver): (s: string)
    ensures var f, l := |r.firstName|, |r.lastName|;
      && |s| == f + l + |r.email| + 4
      && s[..f] == r.firstName && s[f] == ' '
      && s[f + 1..f + 1 + l] == r.lastName
      && s[f + 1 + l..f + 3 + l] == " <"
      && s[f + 3 + l..|s| - 1] == r.email && s[|s| - 1] == '>'
  {
    r.firstName + " " + r.lastName + " <" + r.email + ">"
  }

  function MessageText(m: Message): string
  {
    match m
    case WsMessage(message, _) => message
    case SmsText(text) => text
    case EmailMessage(_) => ""
    case PushMessage(message, _) => message
  }

  function AsText(s: string): string { s }

  /** The pushes to one user: its active devices in table order, each sent the rendered message
      with no extra data. */
  function DevicePushes(devices: seq<Devices.Device>, user: int, message: string): (r: seq<Delivery>)
    ensures |r| <= |devices|
  {
    if devices == [] then []
    else
      var d := devices[|devices| - 1];
      var prefix := DevicePushes(devices[..|devices| - 1], user, message);
      if d.user == user && d.isActive then prefix + [PushCall(Devices.SendMessage(d, message, map[], AsText))]
      else prefix
  }

  /** What send_inner does for one prepared receiver. */
  function DeliveriesFor(ch: Channel, t: Target, msg: Message, item: Item, renderer: Renderer, devices: seq<Devices.Device>): (r: seq<Delivery>)
    requires t.Number? <==> ch.Sms?
    ensures !ch.Push? ==> |r| == 1
    ensures ch.Push? ==> |r| <= |devices|
    ensures ch.WebSocket? ==> r[0].Publish? && r[0].receiver == t.receiver && r[0].message == msg
    ensures ch.Sms? ==> r[0].SmsCall? && r[0].phone == t.phone
    ensures ch.Email? ==> r[0].EmailCall? && r[0].receiver == t.receiver && r[0].to == FormatReceiver(t.receiver)
  {
    match ch
    case WebSocket(_, _, _) => [Publish(t.receiver, msg)]
    case Sms(_) => [SmsCall(t.phone, MessageText(msg))]
    case Email(emailName, emailSubject) =>
      [EmailCall(emailName, FormatReceiver(t.receiver), renderer.render(emailSubject, item), item, t.receiver)]
    case Push(_) => DevicePushes(devices, t.receiver.id, MessageText(msg))
  }

  /** send_inner: the calls it makes, receiver by receiver. */
  function Deliveries(ch: Channel, targets: seq<Target>, msg: Message, item: Item, renderer: Renderer, devices: seq<Devices.Device>): (r: seq<Delivery>)
    requires TargetsFit(ch, targets)
    ensures !ch.Push? ==> |r| == |targets|
    ensures targets == [] ==> r == []
  {
    if targets == [] then []
    else
      Deliveries(ch, targets[..|targets| - 1], msg, item, renderer, devices) +
      DeliveriesFor(ch, targets[|targets| - 1], msg, item, renderer, devices)
  }

  /** Every one of the calls returns. */
  predicate AllReturn(calls: seq<Delivery>, fails: Delivery -> Option<string>)
  {
    forall k :: 0 <= k < |calls| ==> fails(calls[k]).None?
  }

  /** The index of the first call from i on that raises, or |calls| when none does. */
  function FirstRaise(calls: seq<Delivery>, fails: Delivery -> Option<string>, i: nat): (k: nat)
    requires i <= |calls|
    ensures i <= k <= |calls|
    ensures k < |calls| ==> fails(calls[k]).Some?
    ensures forall m :: i <= m < k ==> fails(calls[m]).None?
    decreases |calls| - i
  {
    if i == |calls| || fails(calls[i]).Some? then i else FirstRaise(calls, fails, i + 1)
  }

  /** The transport calls made, in order, when `fails` gives the exception each call raises
      (None when it returns): every call up to and including the first one that raises, and that
      exception. send_inner catches nothing, so the first exception ends it. */
  function Attempt(calls: seq<Delivery>, fails: Delivery -> Option<string>): (r: (seq<Delivery>, Option<string>))
    ensures r.1.None? <==> AllReturn(calls, fails)
    ensures r.1.None? ==> r.0 == calls
    ensures r.1.Some? ==> 0 < |r.0| <= |calls| && r.0 == calls[..|r.0|] && r.1 == fails(calls[|r.0| - 1])
    ensures r.1.Some? ==> forall m :: 0 <= m < |r.0| - 1 ==> fails(calls[m]).None?
  {
    var k := FirstRaise(calls, fails, 0);
    if k == |calls| then (calls, None) else (calls[..k + 1], fails(calls[k]))
  }

  /** When the k-th call is the first that raises, the calls made are the first k + 1. */
  lemma AttemptAt(calls: seq<Delivery>, fails: Delivery -> Option<string>, k: nat)
    requires k < |calls| && fails(calls[k]).Some?
    requires forall m :: 0 <= m < k ==> fails(calls[m]).None?
    ensures Attempt(calls, fails) == (calls[..k + 1], fails(calls[k]))
  {
    var j := FirstRaise(calls, fails, 0);
    assert j <= k;
    assert j >= k;
  }

  /** A push reaches only an active device of the user it is for, in the device table, with the
      rendered message and no extra data; every call made is a device push. */
  lemma {:induction false} DevicePushesReachActiveDevices(devices: seq<Devices.Device>, user: int, message: string)
    ensures var r := DevicePushes(devices, user, message);
      |r| <= |devices| &&
      forall k :: 0 <= k < |r| ==> r[k].PushCall? && (r[k].dispatch.Routed? ==>
        r[k].dispatch.device in devices && r[k].dispatch.device.isActive &&
        r[k].dispatch.device.user == user && r[k].dispatch.message == message && r[k].dispatch.data == map[])
  {
    if devices != [] {
      var init := devices[..|devices| - 1];
      DevicePushesReachActiveDevices(init, user, message);
      assert forall d :: d in init ==> d in devices;
    }
  }

  function TargetIds(targets: seq<Target>): set<int>
  {
    set t | t in targets && t.User? :: t.receiver.id
  }

  /** Outside Push, send_inner makes exactly one call per prepared receiver, in order. */
  lemma {:induction false} OneCallPerTarget(ch: Channel, targets: seq<Target>, msg: Message, item: Item, renderer: Renderer, devices: seq<Devices.Device>)
    requires TargetsFit(ch, targets) && !ch.Push?
    ensures var r := Deliveries(ch, targets, msg, item, renderer, devices);
      |r| == |targets| &&
      forall i :: 0 <= i < |targets| ==> [r[i]] == DeliveriesFor(ch, targets[i], msg, item, renderer, devices)
  {
    if targets != [] {
      var init := targets[..|targets| - 1];
      OneCallPerTarget(ch, init, msg, item, renderer, devices);
    }
  }

  /** A push reaches only an active device of one of the prepared users. */
  predicate PushOk(d: Delivery, devices: seq<Devices.Device>, ids: set<int>, message: string)
  {
    d.PushCall? && (d.dispatch.Routed? ==>
      d.dispatch.device.isActive && d.dispatch.device in devices &&
      d.dispatch.device.user in ids && d.dispatch.message == message && d.dispatch.data == map[])
  }

  lemma {:induction false} PushAt(ch: Channel, targets: seq<Target>, msg: Message, item: Item, renderer: Renderer, devices: seq<Devices.Device>, k: nat)
    requires TargetsFit(ch, targets) && ch.Push?
    requires k < |Deliveries(ch, targets, msg, item, renderer, devices)|
    ensures PushOk(Deliveries(ch, targets, msg, item, renderer, devices)[k], devices, TargetIds(targets), MessageText(msg))
  {
    var init, t := targets[..|targets| - 1], targets[|targets| - 1];
    var p := Deliveries(ch, init, msg, item, renderer, devices);
    var q := DevicePushes(devices, t.receiver.id, MessageText(msg));
    assert Deliveries(ch, targets, msg, item, renderer, devices) == p + q;
    TargetIdsSnoc(targets);
    if k < |p| {
      PushAt(ch, init, msg, item, renderer, devices, k);
    } else {
      DevicePushesReachActiveDevices(devices, t.receiver.id, MessageText(msg));
      assert q[k - |p|] == Deliveries(ch, targets, msg, item, renderer, devices)[k];
    }
  }

  lemma TargetIdsSnoc(targets: seq<Target>)
    requires targets != [] && targets[|targets| - 1].User?
    ensures TargetIds(targets[..|targets| - 1]) <= TargetIds(targets)
    ensures targets[|targets| - 1].receiver.id in TargetIds(targets)
  {
    assert forall x :: x in targets[..|targets| - 1] ==> x in targets;
    assert targets[|targets| - 1] in targets;
  }

  /** Push: every call of send_inner that reaches a sender goes to an active device, in the device
      table, of one of the prepared users, with the rendered message and no extra data. */
  lemma PushesReachActiveDevices(ch: Channel, targets: seq<Target>, msg: Message, item: Item, renderer: Renderer, devices: seq<Devices.Device>)
    requires TargetsFit(ch, targets) && ch.Push?
    ensures var r := Deliveries(ch, targets, msg, item, renderer, devices);
      forall k :: 0 <= k < |r| ==> PushOk(r[k], devices, TargetIds(targets), MessageText(msg))
  {
    var r := Deliveries(ch, targets, msg, item, renderer, devices);
    forall k | 0 <= k < |r| ensures PushOk(r[k], devices, TargetIds(targets), MessageText(msg)) {
      PushAt(ch, targets, msg, item, renderer, devices, k);
    }
  }

  lemma DeliveriesSnoc(ch: Channel, targets: seq<Target>, i: nat, msg: Message, item: Item, renderer: Renderer, devices: seq<Devices.Device>)
    requires TargetsFit(ch, targets) && i < |targets|
    ensures TargetsFit(ch, targets[..i]) && TargetsFit(ch, targets[..i + 1])
    ensures Deliveries(ch, targets[..i + 1], msg, item, renderer, devices) ==
      Deliveries(ch, targets[..i], msg, item, renderer, devices) + DeliveriesFor(ch, targets[i], msg, item, renderer, devices)
  {
    assert targets[..i + 1][..i] == targets[..i];
  }

  /** The calls for the first i + 1 prepared receivers come first among the calls for all of them. */
  lemma {:induction false} DeliveriesPrefix(ch: Channel, targets: seq<Target>, i: nat, msg: Message, item: Item, renderer: Renderer, devices: seq<Devices.Device>)
    requires TargetsFit(ch, targets) && i < |targets|
    ensures TargetsFit(ch, targets[..i + 1])
    ensures Deliveries(ch, targets[..i + 1], msg, item, renderer, devices) <= Deliveries(ch, targets, msg, item, renderer, devices)
    decreases |targets|
  {
    if i + 1 < |targets| {
      var init := targets[..|targets| - 1];
      DeliveriesPrefix(ch, init, i, msg, item, renderer, devices);
      assert init[..i + 1] == targets[..i + 1];
      assert Deliveries(ch, targets, msg, item, renderer, devices) ==
        Deliveries(ch, init, msg, item, renderer, devices) + DeliveriesFor(ch, targets[|targets| - 1], msg, item, renderer, devices);
    } else {
      assert targets[..i + 1] == targets;
    }
  }

  /** One turn of send_inner's loop: when the calls for the first i receivers all returned, the
      calls for receiver i either all return too, or the first of them that raises ends the
      whole send_inner. */
  lemma AttemptStep(ch: Channel, targets: seq<Target>, i: nat, msg: Message, item: Item, renderer: Renderer,
                    devices: seq<Devices.Device>, fails: Delivery -> Option<string>)
    requires TargetsFit(ch, targets) && i < |targets|
    requires TargetsFit(ch, targets[..i])
    requires AllReturn(Deliveries(ch, targets[..i], msg, item, renderer, devices), fails)
    ensures TargetsFit(ch, targets[..i + 1])
    ensures var done := Deliveries(ch, targets[..i], msg, item, renderer, devices);
      var a := Attempt(DeliveriesFor(ch, targets[i], msg, item, renderer, devices), fails);
      var next := Deliveries(ch, targets[..i + 1], msg, item, renderer, devices);
      && (a.1.None? ==> next == done + a.0 && AllReturn(next, fails))
      && (a.1.Some? ==> Attempt(Deliveries(ch, targets, msg, item, renderer, devices), fails) == (done + a.0, a.1))
  {
    DeliveriesSnoc(ch, targets, i, msg, item, renderer, devices);
    DeliveriesPrefix(ch, targets, i, msg, item, renderer, devices);
    AttemptAfter(Deliveries(ch, targets[..i], msg, item, renderer, devices),
                 DeliveriesFor(ch, targets[i], msg, item, renderer, devices),
                 Deliveries(ch, targets, msg, item, renderer, devices), fails);
  }

  /** Once the calls in done have all returned, attempting the next batch either returns too,
      or raises at the same call the attempt of the whole sequence raises at. */
  lemma AttemptAfter(done: seq<Delivery>, calls: seq<Delivery>, all: seq<Delivery>, fails: Delivery -> Option<string>)
    requires done + calls <= all && AllReturn(done, fails)
    ensures var a := Attempt(calls, fails);
      && (a.1.None? ==> AllReturn(done + calls, fails))
      && (a.1.Some? ==> Attempt(all, fails) == (done + a.0, a.1))
  {
    var a := Attempt(calls, fails);
    if a.1.Some? {
      var k := |a.0| - 1;
      forall m | 0 <= m < |done| + k ensures fails(all[m]).None? {
        if m < |done| {
          assert all[m] == done[m];
        } else {
          assert all[m] == calls[m - |done|];
        }
      }
      assert all[|done| + k] == calls[k];
      AttemptAt(all, fails, |done| + k);
      assert all[..|done| + k + 1] == done + a.0;
    } else {
      assert forall m :: |done| <= m < |done + calls| ==> (done + calls)[m] == calls[m - |done|];
    }
  }

  /* ---------------- history ---------------- */

  datatype Details = TextDetails(text: string) | PushDetails(message: string, data: map<string, string>)

  /** A NotificationHistory row. */
  datatype HistoryRow = HistoryRow(group: string, klass: string, receiver: string, details: Details, category: string)

  /** format_receiver_for_notification_history: the e-mail address, or the phone number for SMS. */
  function HistoryReceiver(t: Target): (s: string)
    ensures t.User? ==> s == t.receiver.email
    ensures t.Number? ==> s == t.phone
  {
    match t
    case User(r) => r.email
    case Number(p) => p
  }

  /** get_notification_history_details of each channel. */
  function HistoryDetails(ch: Channel, item: Item, renderer: Renderer): (d: Details)
    ensures d.PushDetails? <==> ch.Push?
    ensures ch.Push? ==> d.data == map[]
    ensures ch.Email? ==> d == TextDetails(ch.emailName)
    ensures ch.WebSocket? ==>
      && Text.StartsWith(d.text, "message: " + ch.message)
      && Text.EndsWith(d.text, ", serializer: " + ch.serializer)
      && |d.text| == |"message: "| + |ch.message| + |", serializer: "| + |ch.serializer|
  {
    match ch
    case WebSocket(message, serializer, _) => TextDetails("message: " + message + ", serializer: " + serializer)
    case Sms(template) => TextDetails(renderer.render(template, item))
    case Email(emailName, _) => TextDetails(emailName)
    case Push(template) => PushDetails(renderer.render(template, item), map[])
  }

  /** The history of an SMS or a push records the text that was sent, and for a push the data. */
  lemma HistoryRecordsSentText(ch: Channel, item: Item, ctx: Context, renderer: Renderer)
    requires ch.Sms? || ch.Push?
    ensures var m := PrepareMessage(ch, item, ctx, renderer);
      HistoryDetails(ch, item, renderer) ==
        if ch.Sms? then TextDetails(MessageText(m)) else PushDetails(MessageText(m), m.data)
  {
  }

  /** save_notifications: one row per prepared receiver, in order. */
  function HistoryRows(cls: NotificationClass, targets: seq<Target>, item: Item, renderer: Renderer): (rows: seq<HistoryRow>)
    ensures |rows| == |targets|
    ensures forall i :: 0 <= i < |rows| ==>
      rows[i] == HistoryRow(TypeName(cls.channel), cls.name, HistoryReceiver(targets[i]),
                            HistoryDetails(cls.channel, item, renderer), cls.category)
  {
    if targets == [] then []
    else HistoryRows(cls, targets[..|targets| - 1], item, renderer) +
         [HistoryRow(TypeName(cls.channel), cls.name, HistoryReceiver(targets[|targets| - 1]),
                     HistoryDetails(cls.channel, item, renderer), cls.category)]
  }
}
