/**
  NotificationBase.send and the chaining interpreter process_chained_notification.

  A send reads the settings and two tables (UnsubscribedUser, Device) and leaves three kinds of
  trace: NotificationHistory rows, calls to the transports, and chained sends handed to the Celery
  queue. SendSpec, ChainSpec and ProcessChainedSpec say what a send does to those traces and to
  the caller's receiver list; the classes below do it step by step, as the source does, and are
  proved to agree with them.
*/
module Dispatch {
  import opened Wrappers
  import opened Notifications
  import Devices

  /** process_chained_notification.apply_async(args, countdown=delay): the receivers are the
      list's contents at the moment the Celery job is queued. */
  datatype ScheduledChain = ScheduledChain(
    conf: ChainConf,
    item: Item,
    receivers: seq<Receiver>,
    context: Context,
    parentResult: SendResult,
    countdown: int)

  /** What a send reads: the category settings, the UnsubscribedUser and Device tables in table
      order, the template renderer, and `fails`, the exception a transport call raises (None when
      it returns): an e-mail that cannot be sent, a push payload over the APNS maximum, a
      publish that fails. */
  datatype Env = Env(
    settings: CategorySettings,
    unsubscribed: seq<UnsubscribedUser>,
    devices: seq<Devices.Device>,
    renderer: Renderer,
    fails: Delivery -> Option<string>)

  /** What sends leave behind: history rows, transport calls and queued chained sends. */
  datatype World = World(history: seq<HistoryRow>, outbox: seq<Delivery>, tasks: seq<ScheduledChain>)

  /** The result of a call (or the exception it raised), the caller's receiver list after it, and
      the traces after it. */
  datatype Outcome = Outcome(result: Result<SendResult, SendError>, receivers: seq<Receiver>, world: World)

  /** The arguments a chained class is built with: transformed when a transform is configured. */
  function ChainArgs(conf: ChainConf, item: Item, rs: seq<Receiver>, ctx: Context): (Item, seq<Receiver>, Context)
  {
    if conf.transform.Some? then conf.transform.value(item, rs, ctx) else (item, rs, ctx)
  }

  /** NotificationBase.send. */
  function SendSpec(cls: NotificationClass, item: Item, rs: seq<Receiver>, ctx: Context, env: Env, w: World): (o: Outcome)
    ensures CheckCategory(cls, env.settings).Failure? ==>
      o == Outcome(Failure(Misconfigured(CheckCategory(cls, env.settings).error)), rs, w)
    ensures CheckCategory(cls, env.settings).Success? && Filtered(cls, rs, env.unsubscribed).1.Some? ==>
      o == Outcome(Failure(Filtered(cls, rs, env.unsubscribed).1.value), Filtered(cls, rs, env.unsubscribed).0, w)
    ensures forall x :: x in o.receivers ==> x in rs
    decreases cls, 2
  {
    match CheckCategory(cls, env.settings)
    case Failure(e) => Outcome(Failure(Misconfigured(e)), rs, w)
    case Success(_) =>
      var filtered := Filtered(cls, rs, env.unsubscribed);
      if filtered.1.Some? then Outcome(Failure(filtered.1.value), filtered.0, w)
      else
        Deliver(cls, item, filtered.0, ctx, env, w)
  }

  /** send once the receivers are filtered: send_inner, save_notifications, then the chain. An
      exception from a transport call leaves send_inner and send: no history, no chain. */
  function Deliver(cls: NotificationClass, item: Item, kept: seq<Receiver>, ctx: Context, env: Env, w: World): (o: Outcome)
    ensures var targets := PrepareReceivers(cls.channel, kept);
      var calls := Attempt(Deliveries(cls.channel, targets, PrepareMessage(cls.channel, item, ctx, env.renderer), item, env.renderer, env.devices), env.fails);
      calls.1.Some? ==> (o.result == Failure(TransportError(calls.1.value)) && o.receivers == kept &&
                         o.world.history == w.history && o.world.tasks == w.tasks)
    ensures forall x :: x in o.receivers ==> x in kept
    decreases cls, 1
  {
    var targets := PrepareReceivers(cls.channel, kept);
    var msg := PrepareMessage(cls.channel, item, ctx, env.renderer);
    var calls := Attempt(Deliveries(cls.channel, targets, msg, item, env.renderer, env.devices), env.fails);
    if calls.1.Some? then
      Outcome(Failure(TransportError(calls.1.value)), kept, w.(outbox := w.outbox + calls.0))
    else
      var sent := World(w.history + HistoryRows(cls, targets, item, env.renderer), w.outbox + calls.0, w.tasks);
      ChainSpec(cls, 0, item, kept, ctx, NoneResult, env, sent)
  }

  /** The chaining loop of send, from entry i on. */
  function ChainSpec(cls: NotificationClass, i: nat, item: Item, rs: seq<Receiver>, ctx: Context,
                     result: SendResult, env: Env, w: World): (o: Outcome)
    requires i <= |cls.chaining|
    ensures (forall k :: i <= k < |cls.chaining| ==> cls.chaining[k].delay > 0) ==> o.result.Success? && o.receivers == rs
    ensures forall x :: x in o.receivers ==> x in rs
    decreases cls, 0, |cls.chaining| - i
  {
    if i == |cls.chaining| then Outcome(Success(result), rs, w)
    else
      var conf := cls.chaining[i];
      if conf.delay > 0 then
        ChainSpec(cls, i + 1, item, rs, ctx, result, env,
                  w.(tasks := w.tasks + [ScheduledChain(conf, item, rs, ctx, result, conf.delay)]))
      else
        var o := ProcessChainedSpec(conf, item, rs, ctx, result, env, w);
        if o.result.Failure? then o
        else ChainSpec(cls, i + 1, item, o.receivers, ctx, result, env, o.world)
  }

  /** process_chained_notification run inline. Without a transform the child shares the
      parent's receiver list, so the child's filtering is seen by the parent afterwards; a
      transform hands the child a list of its own. */
  function ProcessChainedSpec(conf: ChainConf, item: Item, rs: seq<Receiver>, ctx: Context,
                              parent: SendResult, env: Env, w: World): (o: Outcome)
    ensures conf.transform.Some? ==> o.receivers == rs
    ensures forall x :: x in o.receivers ==> x in rs
    ensures var args := ChainArgs(conf, item, rs, ctx);
      conf.condition.Some? && !conf.condition.value(args.0, args.1, args.2, parent) ==> o == Outcome(Success(NoneResult), rs, w)
    decreases conf.cls, 3
  {
    var args := ChainArgs(conf, item, rs, ctx);
    if conf.condition.Some? && !conf.condition.value(args.0, args.1, args.2, parent) then
      Outcome(Success(NoneResult), rs, w)
    else
      var o := SendSpec(conf.cls, args.0, args.1, args.2, env, w);
      Outcome(o.result, if conf.transform.Some? then rs else o.receivers, o.world)
  }

  /* ---------------- the objects ---------------- */

  /** A Python list of receivers, shared by reference between a notification and the chained
      notifications it runs inline without a transform. */
  class ReceiverList {
    var items: seq<Receiver>

    constructor (items0: seq<Receiver>)
      ensures items == items0
    {
      items := items0;
    }
  }

  /** The database tables and queues a send writes to, with the environment it reads. */
  class Store {
    const env: Env
    var history: seq<HistoryRow>
    var outbox: seq<Delivery>
    var tasks: seq<ScheduledChain>

    function State(): World
      reads this
    {
      World(history, outbox, tasks)
    }

    /** Makes the given transport calls in order, stopping at the first one that raises. */
    method MakeCalls(calls: seq<Delivery>) returns (err: Option<string>)
      modifies this
      ensures outbox == old(outbox) + Attempt(calls, env.fails).0 && err == Attempt(calls, env.fails).1
      ensures history == old(history) && tasks == old(tasks)
    {
      var j := 0;
      while j < |calls|
        invariant 0 <= j <= |calls|
        invariant outbox == old(outbox) + calls[..j]
        invariant AllReturn(calls[..j], env.fails)
        invariant history == old(history) && tasks == old(tasks)
      {
        outbox := outbox + [calls[j]];
        assert calls[..j] + [calls[j]] == calls[..j + 1];
        var e := env.fails(calls[j]);
        if e.Some? {
          AttemptAt(calls, env.fails, j);
          return e;
        }
        assert forall m :: 0 <= m < j ==> calls[..j + 1][m] == calls[..j][m];
        j := j + 1;
      }
      assert calls[..j] == calls;
      return None;
    }

    /** Only builds the empty tables and queues the proofs start from; the source has no
        counterpart. */
    constructor (env0: Env)
      ensures env == env0 && State() == World([], [], [])
    {
      env := env0;
      history := [];
      outbox := [];
      tasks := [];
    }
  }

  /** An instance of a notification class: NotificationBase(item, receivers, context). */
  class Notification {
    const cls: NotificationClass
    const item: Item
    const receivers: ReceiverList
    const context: Context

    constructor (cls0: NotificationClass, item0: Item, receivers0: ReceiverList, context0: Context)
      ensures cls == cls0 && item == item0 && receivers == receivers0 && context == context0
    {
      cls := cls0;
      item := item0;
      receivers := receivers0;
      context := context0;
    }

    /** verify_receivers_subscriptions: removes each unsubscribed user from the shared list. */
    method VerifyReceiversSubscriptions(store: Store) returns (err: Option<SendError>)
      modifies receivers
      ensures (receivers.items, err) == Filtered(cls, old(receivers.items), store.env.unsubscribed)
    {
      if SkipsFilter(cls) {
        return None;
      }
      var rows := Query(store.env.unsubscribed, Ids(receivers.items));
      err := RemoveUnsubscribed(rows);
    }

    /** The loop of verify_receivers_subscriptions over the queried rows: list.remove for each row
        that unsubscribes its user from this category, stopping at the first ValueError. */
    method RemoveUnsubscribed(rows: seq<UnsubscribedUser>) returns (err: Option<SendError>)
      modifies receivers
      ensures (receivers.items, err) == Removals(old(receivers.items), rows, cls)
    {
      ghost var goal := Removals(receivers.items, rows, cls);
      assert rows[0..] == rows;
      var i := 0;
      while i < |rows|
        invariant 0 <= i <= |rows|
        invariant Removals(receivers.items, rows[i..], cls) == goal
      {
        var u := rows[i];
        RemovalsStep(receivers.items, rows, i, cls);
        if Unsubscribes(u, cls) {
          var removed := RemoveFirst(receivers.items, u.user);
          if removed.None? {
            return Some(NotInList(u.user));
          }
          receivers.items := removed.value;
        }
        i := i + 1;
      }
      return None;
    }

    /** The transport calls send_inner makes for one prepared receiver; for Push, one per
        active device of the user, in table order. */
    method CallsFor(t: Target, msg: Message, subject: string, renderer: Renderer, devices: seq<Devices.Device>)
      returns (calls: seq<Delivery>)
      requires t.Number? <==> cls.channel.Sms?
      requires cls.channel.Email? ==> subject == renderer.render(cls.channel.emailSubject, item)
      ensures calls == DeliveriesFor(cls.channel, t, msg, item, renderer, devices)
    {
      match cls.channel {
        case WebSocket(_, _, _) =>
          calls := [Publish(t.receiver, msg)];
        case Sms(_) =>
          calls := [SmsCall(t.phone, MessageText(msg))];
        case Email(emailName, _) =>
          calls := [EmailCall(emailName, FormatReceiver(t.receiver), subject, item, t.receiver)];
        case Push(_) =>
          calls := [];
          var j := 0;
          while j < |devices|
            invariant 0 <= j <= |devices|
            invariant calls == DevicePushes(devices[..j], t.receiver.id, MessageText(msg))
          {
            var d := devices[j];
            assert devices[..j + 1][..j] == devices[..j];
            if d.user == t.receiver.id && d.isActive {
              calls := calls + [PushCall(Devices.SendMessage(d, MessageText(msg), map[], AsText))];
            }
            j := j + 1;
          }
          assert devices[..j] == devices;
      }
    }

    /** The calls for one prepared receiver, until one raises. */
    method SendTo(store: Store, t: Target, msg: Message, subject: string) returns (err: Option<string>)
      requires t.Number? <==> cls.channel.Sms?
      requires cls.channel.Email? ==> subject == store.env.renderer.render(cls.channel.emailSubject, item)
      modifies store
      ensures var a := Attempt(DeliveriesFor(cls.channel, t, msg, item, store.env.renderer, store.env.devices), store.env.fails);
        store.outbox == old(store.outbox) + a.0 && err == a.1
      ensures store.history == old(store.history) && store.tasks == old(store.tasks)
    {
      var calls := CallsFor(t, msg, subject, store.env.renderer, store.env.devices);
      err := store.MakeCalls(calls);
    }

    /** One turn of send_inner's loop: the calls for the i-th prepared receiver, after those for
        the receivers before it have all returned. */
    method SendStep(store: Store, targets: seq<Target>, i: nat, msg: Message, subject: string, ghost base: seq<Delivery>)
      returns (err: Option<string>)
      requires TargetsFit(cls.channel, targets) && i < |targets|
      requires cls.channel.Email? ==> subject == store.env.renderer.render(cls.channel.emailSubject, item)
      requires TargetsFit(cls.channel, targets[..i])
      requires AllReturn(Deliveries(cls.channel, targets[..i], msg, item, store.env.renderer, store.env.devices), store.env.fails)
      requires store.outbox == base + Deliveries(cls.channel, targets[..i], msg, item, store.env.renderer, store.env.devices)
      modifies store
      ensures TargetsFit(cls.channel, targets[..i + 1])
      ensures err.None? ==>
        var next := Deliveries(cls.channel, targets[..i + 1], msg, item, store.env.renderer, store.env.devices);
        store.outbox == base + next && AllReturn(next, store.env.fails)
      ensures err.Some? ==>
        var a := Attempt(Deliveries(cls.channel, targets, msg, item, store.env.renderer, store.env.devices), store.env.fails);
        store.outbox == base + a.0 && err == a.1
      ensures store.history == old(store.history) && store.tasks == old(store.tasks)
    {
      ghost var done := Deliveries(cls.channel, targets[..i], msg, item, store.env.renderer, store.env.devices);
      ghost var made := Attempt(DeliveriesFor(cls.channel, targets[i], msg, item, store.env.renderer, store.env.devices),
                                store.env.fails).0;
      AttemptStep(cls.channel, targets, i, msg, item, store.env.renderer, store.env.devices, store.env.fails);
      err := SendTo(store, targets[i], msg, subject);
      SeqAssoc(base, done, made);
    }

    /** send_inner: the calls for each prepared receiver in turn, until one raises. The e-mail
        subject is rendered once, before the loop. */
    method SendInner(store: Store, targets: seq<Target>, msg: Message) returns (err: Option<string>)
      requires TargetsFit(cls.channel, targets)
      modifies store
      ensures var calls := Attempt(Deliveries(cls.channel, targets, msg, item, store.env.renderer, store.env.devices),
                                   store.env.fails);
        store.outbox == old(store.outbox) + calls.0 && err == calls.1
      ensures store.history == old(store.history) && store.tasks == old(store.tasks)
    {
      ghost var before := store.outbox;
      var subject := if cls.channel.Email? then store.env.renderer.render(cls.channel.emailSubject, item) else "";
      var i := 0;
      assert targets[..0] == [];
      while i < |targets|
        invariant 0 <= i <= |targets|
        invariant TargetsFit(cls.channel, targets[..i])
        invariant store.outbox == before + Deliveries(cls.channel, targets[..i], msg, item, store.env.renderer, store.env.devices)
        invariant AllReturn(Deliveries(cls.channel, targets[..i], msg, item, store.env.renderer, store.env.devices), store.env.fails)
        invariant store.history == old(store.history) && store.tasks == old(store.tasks)
      {
        err := SendStep(store, targets, i, msg, subject, before);
        if err.Some? {
          return;
        }
        i := i + 1;
      }
      assert targets[..i] == targets;
      return None;
    }

    /** save_notifications: one history row per prepared receiver. */
    method SaveNotifications(store: Store, targets: seq<Target>)
      modifies store
      ensures store.history == old(store.history) + HistoryRows(cls, targets, item, store.env.renderer)
      ensures store.outbox == old(store.outbox) && store.tasks == old(store.tasks)
    {
      var i := 0;
      while i < |targets|
        invariant 0 <= i <= |targets|
        invariant store.history == old(store.history) + HistoryRows(cls, targets[..i], item, store.env.renderer)
        invariant store.outbox == old(store.outbox) && store.tasks == old(store.tasks)
      {
        assert targets[..i + 1][..i] == targets[..i];
        store.history := store.history + [HistoryRow(TypeName(cls.channel), cls.name, HistoryReceiver(targets[i]),
                                                      HistoryDetails(cls.channel, item, store.env.renderer), cls.category)];
        i := i + 1;
      }
      assert targets[..i] == targets;
    }

    /** send: category check, filtering, preparation, send_inner, history, then the chain. */
    method Send(store: Store) returns (r: Result<SendResult, SendError>)
      modifies store, receivers
      decreases cls, 1
      ensures Outcome(r, receivers.items, store.State()) ==
        SendSpec(cls, item, old(receivers.items), context, store.env, old(store.State()))
    {
      var check := CheckCategory(cls, store.env.settings);
      if check.Failure? {
        return Failure(Misconfigured(check.error));
      }
      var err := VerifyReceiversSubscriptions(store);
      if err.Some? {
        return Failure(err.value);
      }
      var targets := PrepareReceivers(cls.channel, receivers.items);
      var msg := PrepareMessage(cls.channel, item, context, store.env.renderer);
      var raised := SendInner(store, targets, msg);
      if raised.Some? {
        return Failure(TransportError(raised.value));
      }
      SaveNotifications(store, targets);
      r := RunChain(store, NoneResult);
    }

    /** The chaining loop at the end of send: a delayed entry is queued as a Celery job, any other
        is processed inline, and the first failure ends the loop. */
    method RunChain(store: Store, result: SendResult) returns (r: Result<SendResult, SendError>)
      modifies store, receivers
      decreases cls, 0
      ensures Outcome(r, receivers.items, store.State()) ==
        ChainSpec(cls, 0, item, old(receivers.items), context, result, store.env, old(store.State()))
    {
      ghost var goal := ChainSpec(cls, 0, item, receivers.items, context, result, store.env, store.State());
      var i := 0;
      while i < |cls.chaining|
        invariant 0 <= i <= |cls.chaining|
        invariant ChainSpec(cls, i, item, receivers.items, context, result, store.env, store.State()) == goal
      {
        var conf := cls.chaining[i];
        if conf.delay > 0 {
          store.tasks := store.tasks + [ScheduledChain(conf, item, receivers.items, context, result, conf.delay)];
        } else {
          var child := ProcessChainedNotification(conf, item, receivers, context, result, store);
          if child.Failure? {
            return child;
          }
        }
        i := i + 1;
      }
      return Success(result);
    }
  }

  /** process_chained_notification: transform, then condition, then build and send the child. */
  method ProcessChainedNotification(conf: ChainConf, item: Item, receivers: ReceiverList, context: Context,
                                    parentResult: SendResult, store: Store)
    returns (r: Result<SendResult, SendError>)
    modifies store, receivers
    decreases conf.cls, 2
    ensures Outcome(r, receivers.items, store.State()) ==
      ProcessChainedSpec(conf, item, old(receivers.items), context, parentResult, store.env, old(store.State()))
  {
    var item', context' := item, context;
    var list := receivers;
    if conf.transform.Some? {
      var args := conf.transform.value(item, receivers.items, context);
      item', context' := args.0, args.2;
      list := new ReceiverList(args.1);
    }
    if conf.condition.Some? && !conf.condition.value(item', list.items, context', parentResult) {
      return Success(NoneResult);
    }
    var child := new Notification(conf.cls, item', list, context');
    r := child.Send(store);
  }

  /* ---------------- properties of a send ---------------- */

  /** A category error is raised before anything else: no filtering, no transport call, no history
      row, no chained send. */
  lemma CategoryErrorChangesNothing(cls: NotificationClass, item: Item, rs: seq<Receiver>, ctx: Context, env: Env, w: World)
    requires CheckCategory(cls, env.settings).Failure?
    ensures SendSpec(cls, item, rs, ctx, env, w) ==
      Outcome(Failure(Misconfigured(CheckCategory(cls, env.settings).error)), rs, w)
  {
  }

  /** Without chaining, a send whose transport calls all return adds exactly the history rows of
      its prepared receivers and the transport calls of send_inner, and returns send_inner's
      result. (TransportFailureAborts covers a call that raises.) */
  lemma SendWithoutChaining(cls: NotificationClass, item: Item, rs: seq<Receiver>, ctx: Context, env: Env, w: World)
    requires cls.chaining == []
    requires CheckCategory(cls, env.settings).Success?
    requires Filtered(cls, rs, env.unsubscribed).1.None?
    requires var targets := PrepareReceivers(cls.channel, Filtered(cls, rs, env.unsubscribed).0);
      AllReturn(Deliveries(cls.channel, targets, PrepareMessage(cls.channel, item, ctx, env.renderer), item, env.renderer, env.devices), env.fails)
    ensures var kept := Filtered(cls, rs, env.unsubscribed).0;
      var targets := PrepareReceivers(cls.channel, kept);
      var o := SendSpec(cls, item, rs, ctx, env, w);
      o.result == Success(NoneResult) && o.receivers == kept &&
      o.world.history == w.history + HistoryRows(cls, targets, item, env.renderer) &&
      |o.world.history| == |w.history| + |targets| &&
      o.world.outbox == w.outbox + Deliveries(cls.channel, targets, PrepareMessage(cls.channel, item, ctx, env.renderer), item, env.renderer, env.devices) &&
      o.world.tasks == w.tasks
  {
    var kept := Filtered(cls, rs, env.unsubscribed).0;
    var targets := PrepareReceivers(cls.channel, kept);
    var all := Deliveries(cls.channel, targets, PrepareMessage(cls.channel, item, ctx, env.renderer), item, env.renderer, env.devices);
    assert Attempt(all, env.fails) == (all, None);
    var sent := World(w.history + HistoryRows(cls, targets, item, env.renderer), w.outbox + all, w.tasks);
    assert Deliver(cls, item, kept, ctx, env, w) == ChainSpec(cls, 0, item, kept, ctx, NoneResult, env, sent);
    assert SendSpec(cls, item, rs, ctx, env, w) == Deliver(cls, item, kept, ctx, env, w);
  }

  /** A transport call that raises ends the send: the calls before it and the failing call itself
      are made, the exception is returned, and no history row is written and no chained
      notification is sent or queued. */
  lemma TransportFailureAborts(cls: NotificationClass, item: Item, rs: seq<Receiver>, ctx: Context, env: Env, w: World, k: nat)
    requires CheckCategory(cls, env.settings).Success?
    requires Filtered(cls, rs, env.unsubscribed).1.None?
    requires var targets := PrepareReceivers(cls.channel, Filtered(cls, rs, env.unsubscribed).0);
      var all := Deliveries(cls.channel, targets, PrepareMessage(cls.channel, item, ctx, env.renderer), item, env.renderer, env.devices);
      k < |all| && env.fails(all[k]).Some? && forall m :: 0 <= m < k ==> env.fails(all[m]).None?
    ensures var targets := PrepareReceivers(cls.channel, Filtered(cls, rs, env.unsubscribed).0);
      var all := Deliveries(cls.channel, targets, PrepareMessage(cls.channel, item, ctx, env.renderer), item, env.renderer, env.devices);
      var o := SendSpec(cls, item, rs, ctx, env, w);
      && o.result == Failure(TransportError(env.fails(all[k]).value))
      && o.world == w.(outbox := w.outbox + all[..k + 1])
  {
    var kept := Filtered(cls, rs, env.unsubscribed).0;
    var targets := PrepareReceivers(cls.channel, kept);
    var all := Deliveries(cls.channel, targets, PrepareMessage(cls.channel, item, ctx, env.renderer), item, env.renderer, env.devices);
    AttemptAt(all, env.fails, k);
    assert SendSpec(cls, item, rs, ctx, env, w) == Deliver(cls, item, kept, ctx, env, w);
  }

  /** With distinct receivers and one UnsubscribedUser row per user, no user unsubscribed from the
      class is among the prepared receivers of a WebSocket, Email or Push send, and every number
      of an SMS send belongs to a receiver that is not unsubscribed. */
  lemma NoTargetIsUnsubscribed(cls: NotificationClass, rs: seq<Receiver>, table: seq<UnsubscribedUser>)
    requires DistinctIds(rs) && OneRowPerUser(table) && !SkipsFilter(cls)
    ensures Filtered(cls, rs, table).1.None?
    ensures var targets := PrepareReceivers(cls.channel, Filtered(cls, rs, table).0);
      (!cls.channel.Sms? ==> forall t :: t in targets ==> t.receiver in rs && t.receiver.id !in Blocked(table, cls)) &&
      (cls.channel.Sms? ==> forall t :: t in targets ==>
         exists x :: x in rs && x.phone == t.phone && x.id !in Blocked(table, cls))
  {
    FilteredDistinct(cls, rs, table);
  }

  /** The scheduled sends for chain entries from i on, all of them delayed. */
  function Scheduled(chain: seq<ChainConf>, item: Item, rs: seq<Receiver>, ctx: Context, result: SendResult): seq<ScheduledChain>
  {
    if chain == [] then []
    else [ScheduledChain(chain[0], item, rs, ctx, result, chain[0].delay)] + Scheduled(chain[1..], item, rs, ctx, result)
  }

  /** When every remaining chain entry has a positive delay, the chain only queues tasks, in
      declared order, each with countdown = delay and the current receivers; nothing is sent now. */
  lemma {:induction false} DelayedChainOnlySchedules(cls: NotificationClass, i: nat, item: Item, rs: seq<Receiver>, ctx: Context,
                                                      result: SendResult, env: Env, w: World)
    requires i <= |cls.chaining|
    requires forall k :: i <= k < |cls.chaining| ==> cls.chaining[k].delay > 0
    ensures ChainSpec(cls, i, item, rs, ctx, result, env, w) ==
      Outcome(Success(result), rs, w.(tasks := w.tasks + Scheduled(cls.chaining[i..], item, rs, ctx, result)))
    decreases |cls.chaining| - i
  {
    if i < |cls.chaining| {
      var conf := cls.chaining[i];
      var w' := w.(tasks := w.tasks + [ScheduledChain(conf, item, rs, ctx, result, conf.delay)]);
      DelayedChainOnlySchedules(cls, i + 1, item, rs, ctx, result, env, w');
      assert cls.chaining[i..][1..] == cls.chaining[i + 1..];
    }
  }

  /** A condition that rejects the (transformed) arguments and the parent's result means no child
      is built or sent, and the caller's list is untouched. */
  lemma FalseConditionSkips(conf: ChainConf, item: Item, rs: seq<Receiver>, ctx: Context, parent: SendResult, env: Env, w: World)
    requires conf.condition.Some?
    requires var args := ChainArgs(conf, item, rs, ctx); !conf.condition.value(args.0, args.1, args.2, parent)
    ensures ProcessChainedSpec(conf, item, rs, ctx, parent, env, w) == Outcome(Success(NoneResult), rs, w)
  {
  }

  /** With a transform, the child notification is built from the transformed arguments, and the
      condition (when there is one and it accepts them) sees those arguments too. */
  lemma TransformFeedsChild(conf: ChainConf, item: Item, rs: seq<Receiver>, ctx: Context, parent: SendResult, env: Env, w: World)
    requires conf.transform.Some?
    requires var args := conf.transform.value(item, rs, ctx);
      conf.condition.None? || conf.condition.value(args.0, args.1, args.2, parent)
    ensures var args := conf.transform.value(item, rs, ctx);
      var o := SendSpec(conf.cls, args.0, args.1, args.2, env, w);
      ProcessChainedSpec(conf, item, rs, ctx, parent, env, w) == Outcome(o.result, rs, o.world)
  {
  }

  /** With neither transform nor condition, the chained class is sent with the parent's item,
      receiver list and context unchanged, and the parent sees the child's filtering of the list. */
  lemma PlainChainSendsUnchanged(conf: ChainConf, item: Item, rs: seq<Receiver>, ctx: Context, parent: SendResult, env: Env, w: World)
    requires conf.transform.None? && conf.condition.None?
    ensures ProcessChainedSpec(conf, item, rs, ctx, parent, env, w) == SendSpec(conf.cls, item, rs, ctx, env, w)
  {
  }

  ghost predicate Extends(w: World, w': World)
  {
    w.history <= w'.history && w.outbox <= w'.outbox && w.tasks <= w'.tasks
  }

  /** Sending, chaining and inline chained sends only append to the history, the transport calls
      and the queue; nothing already recorded is changed or lost. */
  lemma {:induction false} SendAppends(cls: NotificationClass, item: Item, rs: seq<Receiver>, ctx: Context, env: Env, w: World)
    ensures Extends(w, SendSpec(cls, item, rs, ctx, env, w).world)
    decreases cls, 1
  {
    if CheckCategory(cls, env.settings).Success? {
      var filtered := Filtered(cls, rs, env.unsubscribed);
      if filtered.1.None? {
        assert SendSpec(cls, item, rs, ctx, env, w) == Deliver(cls, item, filtered.0, ctx, env, w);
        DeliverAppends(cls, item, filtered.0, ctx, env, w);
      }
    }
  }

  lemma {:induction false} DeliverAppends(cls: NotificationClass, item: Item, kept: seq<Receiver>, ctx: Context, env: Env, w: World)
    ensures Extends(w, Deliver(cls, item, kept, ctx, env, w).world)
    decreases cls, 0, |cls.chaining| + 1
  {
    var targets := PrepareReceivers(cls.channel, kept);
    var msg := PrepareMessage(cls.channel, item, ctx, env.renderer);
    var calls := Attempt(Deliveries(cls.channel, targets, msg, item, env.renderer, env.devices), env.fails);
    if calls.1.None? {
      var sent := World(w.history + HistoryRows(cls, targets, item, env.renderer), w.outbox + calls.0, w.tasks);
      assert Extends(w, sent);
      ChainAppends(cls, 0, item, kept, ctx, NoneResult, env, sent);
    }
  }

  lemma {:induction false} ChainAppends(cls: NotificationClass, i: nat, item: Item, rs: seq<Receiver>, ctx: Context,
                                        result: SendResult, env: Env, w: World)
    requires i <= |cls.chaining|
    ensures Extends(w, ChainSpec(cls, i, item, rs, ctx, result, env, w).world)
    decreases cls, 0, |cls.chaining| - i
  {
    if i < |cls.chaining| {
      var conf := cls.chaining[i];
      if conf.delay > 0 {
        var w' := w.(tasks := w.tasks + [ScheduledChain(conf, item, rs, ctx, result, conf.delay)]);
        ChainAppends(cls, i + 1, item, rs, ctx, result, env, w');
      } else {
        var o := ProcessChainedSpec(conf, item, rs, ctx, result, env, w);
        ProcessAppends(conf, item, rs, ctx, result, env, w);
        if o.result.Success? {
          ChainAppends(cls, i + 1, item, o.receivers, ctx, result, env, o.world);
        }
      }
    }
  }

  lemma {:induction false} ProcessAppends(conf: ChainConf, item: Item, rs: seq<Receiver>, ctx: Context,
                                          parent: SendResult, env: Env, w: World)
    ensures Extends(w, ProcessChainedSpec(conf, item, rs, ctx, parent, env, w).world)
    decreases conf.cls, 2
  {
    var args := ChainArgs(conf, item, rs, ctx);
    if !(conf.condition.Some? && !conf.condition.value(args.0, args.1, args.2, parent)) {
      SendAppends(conf.cls, args.0, args.1, args.2, env, w);
    }
  }
}
