/**
  UnsubscribedSerializer: the translation between a stored UnsubscribedUser row and the
  per-type, per-category booleans a client reads and writes.

  The configuration (which categories each notification type offers to the current user) is an
  input: it comes from a user-type mapping that is not part of this model. It is None when no
  authenticated user is present, and is kept in the order the mapping yields its types.
*/
module Subscriptions {
  import opened Wrappers
  import Notifications

  type Row = Notifications.UnsubscribedUser

  const FromAllKey: string := "unsubscribed_from_all"
  const AllMarker: string := "all"

  /** The configured types, each with its category keys, in iteration order. */
  type Configuration = Option<seq<(string, seq<string>)>>

  /** UNIVERSAL_NOTIFICATIONS_CATEGORIES: the label of each category of each type. */
  type LabelSettings = map<string, map<string, string>>

  predicate DistinctTypes<X>(config: seq<(string, X)>)
  {
    forall i, j :: 0 <= i < j < |config| ==> config[i].0 != config[j].0
  }

  function ConfiguredTypes(config: Configuration): set<string>
  {
    if config.None? then {} else set i | 0 <= i < |config.value| :: config.value[i].0
  }

  /** obj.unsubscribed.get(ntype, []). */
  function Stored(obj: Row, ntype: string): seq<string>
  {
    if ntype in obj.unsubscribed then obj.unsubscribed[ntype] else []
  }

  /* ---------------- reading: to_representation ---------------- */

  /** The booleans shown for one type: the type-level flag first, then one entry per category
      key (a key spelled like the flag overwrites it). */
  function TypeView(stored: seq<string>, keys: seq<string>): (view: map<string, bool>)
    ensures FromAllKey in view
    ensures forall k :: k in view ==> k == FromAllKey || k in keys
  {
    if keys == [] then map[FromAllKey := AllMarker in stored]
    else TypeView(stored, keys[..|keys| - 1])[keys[|keys| - 1] := keys[|keys| - 1] !in stored]
  }

  /** Each configured category shows whether it is absent from the stored list; the type-level
      flag shows whether "all" is in it, unless a category key is spelled like the flag. */
  lemma {:induction false} TypeViewMeaning(stored: seq<string>, keys: seq<string>)
    ensures TypeView(stored, keys).Keys == {FromAllKey} + set k | k in keys
    ensures forall k :: k in keys ==> TypeView(stored, keys)[k] == (k !in stored)
    ensures FromAllKey !in keys ==> TypeView(stored, keys)[FromAllKey] == (AllMarker in stored)
  {
    if keys != [] {
      var init, k := keys[..|keys| - 1], keys[|keys| - 1];
      assert forall x :: x in keys <==> x in init || x == k by {
        assert keys == init + [k];
      }
      TypeViewMeaning(stored, init);
    }
  }

  /** The labels shown for one type, or None when a key has no configured label (KeyError). A
      type without keys looks nothing up. */
  function TypeLabels(labels: LabelSettings, ntype: string, keys: seq<string>): (r: Option<map<string, string>>)
    ensures keys != [] && ntype !in labels ==> r == None
    ensures r.Some? ==> forall k :: k in r.value ==> k in keys
  {
    if keys == [] then Some(map[])
    else
      var k := keys[|keys| - 1];
      match TypeLabels(labels, ntype, keys[..|keys| - 1])
      case None => None
      case Some(m) => if ntype in labels && k in labels[ntype] then Some(m[k := labels[ntype][k]]) else None
  }

  /** The labels are found exactly when every key has one, and then they are the configured ones. */
  lemma {:induction false} TypeLabelsMeaning(labels: LabelSettings, ntype: string, keys: seq<string>)
    ensures TypeLabels(labels, ntype, keys).Some? <==> forall k :: k in keys ==> ntype in labels && k in labels[ntype]
    ensures TypeLabels(labels, ntype, keys).Some? ==>
      TypeLabels(labels, ntype, keys).value.Keys == (set k | k in keys) &&
      forall k :: k in keys ==> TypeLabels(labels, ntype, keys).value[k] == labels[ntype][k]
  {
    if keys != [] {
      var init, k := keys[..|keys| - 1], keys[|keys| - 1];
      assert forall x :: x in keys <==> x in init || x == k by {
        assert keys == init + [k];
      }
      TypeLabelsMeaning(labels, ntype, init);
      assert k in keys;
      if TypeLabels(labels, ntype, init).None? {
        var x :| x in init && !(ntype in labels && x in labels[ntype]);
        assert x in keys;
      }
    }
  }

  predicate Labelled(config: seq<(string, seq<string>)>, labels: LabelSettings)
  {
    forall i :: 0 <= i < |config| ==> TypeLabels(labels, config[i].0, config[i].1).Some?
  }

  datatype Representation = Representation(
    unsubscribedFromAll: bool,
    types: map<string, map<string, bool>>,
    labels: map<string, map<string, string>>)

  /** A category without a label in the settings raises KeyError. */
  datatype SerializerError = KeyError

  /** A key without a label makes the whole lookup raise KeyError. */
  lemma MissingLabel(labels: LabelSettings, ntype: string, keys: seq<string>, k: nat)
    requires k < |keys| && !(ntype in labels && keys[k] in labels[ntype])
    ensures TypeLabels(labels, ntype, keys) == None
  {
    TypeLabelsMeaning(labels, ntype, keys);
    assert keys[k] in keys;
  }

  /** The first k keys of a type are shown: their booleans and their labels. */
  predicate EntryPrefix(stored: seq<string>, labels: LabelSettings, ntype: string, keys: seq<string>, k: nat,
                        view: map<string, bool>, typeLabels: map<string, string>)
    requires k <= |keys|
  {
    view == TypeView(stored, keys[..k]) && TypeLabels(labels, ntype, keys[..k]) == Some(typeLabels)
  }

  /** One more labelled key: its boolean and its label are added to the prefix's. */
  lemma EntryStep(stored: seq<string>, labels: LabelSettings, ntype: string, keys: seq<string>, k: nat,
                  view: map<string, bool>, typeLabels: map<string, string>)
    requires k < |keys| && ntype in labels && keys[k] in labels[ntype]
    requires EntryPrefix(stored, labels, ntype, keys, k, view, typeLabels)
    ensures EntryPrefix(stored, labels, ntype, keys, k + 1,
                        view[keys[k] := keys[k] !in stored], typeLabels[keys[k] := labels[ntype][keys[k]]])
  {
    assert keys[..k + 1][..k] == keys[..k];
  }

  /** The inner loop of to_representation for one type: its booleans and its labels, or None
      when a label lookup raises KeyError. */
  method TypeEntry(obj: Row, ntype: string, keys: seq<string>, labels: LabelSettings)
    returns (r: Option<(map<string, bool>, map<string, string>)>)
    ensures r.Some? <==> TypeLabels(labels, ntype, keys).Some?
    ensures r.Some? ==> r.value.0 == TypeView(Stored(obj, ntype), keys) && Some(r.value.1) == TypeLabels(labels, ntype, keys)
  {
    var stored := Stored(obj, ntype);
    var view := map[FromAllKey := AllMarker in stored];
    var typeLabels: map<string, string> := map[];
    var k := 0;
    assert keys[..0] == [];
    while k < |keys|
      invariant 0 <= k <= |keys|
      invariant EntryPrefix(stored, labels, ntype, keys, k, view, typeLabels)
    {
      if ntype !in labels || keys[k] !in labels[ntype] {
        MissingLabel(labels, ntype, keys, k);
        return None;
      }
      EntryStep(stored, labels, ntype, keys, k, view, typeLabels);
      view := view[keys[k] := keys[k] !in stored];
      typeLabels := typeLabels[keys[k] := labels[ntype][keys[k]]];
      k := k + 1;
    }
    assert keys[..k] == keys;
    return Some((view, typeLabels));
  }

  /** The first n configured types are serialized: each has its booleans and its labels. */
  predicate RepresentsPrefix(obj: Row, c: seq<(string, seq<string>)>, labels: LabelSettings, n: nat,
                             types: map<string, map<string, bool>>, shown: map<string, map<string, string>>)
    requires n <= |c|
  {
    && types.Keys == (set j | 0 <= j < n :: c[j].0) == shown.Keys
    && forall j :: 0 <= j < n ==>
        TypeLabels(labels, c[j].0, c[j].1).Some? &&
        types[c[j].0] == TypeView(Stored(obj, c[j].0), c[j].1) &&
        Some(shown[c[j].0]) == TypeLabels(labels, c[j].0, c[j].1)
  }

  /** Adding the entry of the next distinct type name keeps the earlier entries. */
  lemma MapSnoc<X, V>(c: seq<(string, X)>, i: nat, m: map<string, V>, v: V)
    requires DistinctTypes(c) && i < |c|
    requires m.Keys == set j | 0 <= j < i :: c[j].0
    ensures m[c[i].0 := v].Keys == set j | 0 <= j < i + 1 :: c[j].0
    ensures forall j :: 0 <= j < i ==> m[c[i].0 := v][c[j].0] == m[c[j].0]
  {
    forall j | 0 <= j < i
      ensures m[c[i].0 := v][c[j].0] == m[c[j].0]
    {
      assert c[j].0 != c[i].0;
    }
  }

  /** One more type serialized. */
  lemma RepresentationStep(obj: Row, c: seq<(string, seq<string>)>, labels: LabelSettings, i: nat,
                           types: map<string, map<string, bool>>, shown: map<string, map<string, string>>,
                           e: (map<string, bool>, map<string, string>))
    requires DistinctTypes(c) && i < |c|
    requires RepresentsPrefix(obj, c, labels, i, types, shown)
    requires e.0 == TypeView(Stored(obj, c[i].0), c[i].1) && Some(e.1) == TypeLabels(labels, c[i].0, c[i].1)
    ensures RepresentsPrefix(obj, c, labels, i + 1, types[c[i].0 := e.0], shown[c[i].0 := e.1])
  {
    var t, sh := types[c[i].0 := e.0], shown[c[i].0 := e.1];
    MapSnoc(c, i, types, e.0);
    MapSnoc(c, i, shown, e.1);
    forall j | 0 <= j < i + 1
      ensures TypeLabels(labels, c[j].0, c[j].1).Some?
      ensures t[c[j].0] == TypeView(Stored(obj, c[j].0), c[j].1)
      ensures Some(sh[c[j].0]) == TypeLabels(labels, c[j].0, c[j].1)
    {
      if j < i {
        assert t[c[j].0] == types[c[j].0] && sh[c[j].0] == shown[c[j].0];
      }
    }
  }

  /** to_representation. */
  method ToRepresentation(obj: Row, config: Configuration, labels: LabelSettings)
    returns (r: Result<Representation, SerializerError>)
    requires config.Some? ==> DistinctTypes(config.value)
    ensures r.Success? <==> config.None? || Labelled(config.value, labels)
    ensures r.Success? ==> r.value.unsubscribedFromAll == obj.fromAll
    ensures r.Success? ==> r.value.types.Keys == ConfiguredTypes(config) == r.value.labels.Keys
    ensures r.Success? && config.Some? ==> forall i :: 0 <= i < |config.value| ==>
      r.value.types[config.value[i].0] == TypeView(Stored(obj, config.value[i].0), config.value[i].1) &&
      Some(r.value.labels[config.value[i].0]) == TypeLabels(labels, config.value[i].0, config.value[i].1)
  {
    var types: map<string, map<string, bool>> := map[];
    var shown: map<string, map<string, string>> := map[];
    if config.None? {
      return Success(Representation(obj.fromAll, types, shown));
    }
    var c := config.value;
    var i := 0;
    while i < |c|
      invariant 0 <= i <= |c|
      invariant RepresentsPrefix(obj, c, labels, i, types, shown)
    {
      var entry := TypeEntry(obj, c[i].0, c[i].1, labels);
      if entry.None? {
        assert TypeLabels(labels, c[i].0, c[i].1).None?;
        return Failure(KeyError);
      }
      RepresentationStep(obj, c, labels, i, types, shown, entry.value);
      types := types[c[i].0 := entry.value.0];
      shown := shown[c[i].0 := entry.value.1];
      i := i + 1;
    }
    return Success(Representation(obj.fromAll, types, shown));
  }

  /* ---------------- writing: validate and update ---------------- */

  /** request.data[ntype].get(key, default) for a type's sent booleans. */
  function Get(sent: map<string, bool>, key: string, default: bool): bool
  {
    if key in sent then sent[key] else default
  }

  /** The list validate builds for a type that was sent: per configured key, the key when it was
      sent as false, then "all" when the type-level flag was sent as true. */
  function Unsubscriptions(sent: map<string, bool>, keys: seq<string>): (r: seq<string>)
    ensures |r| <= 2 * |keys|
    ensures Get(sent, FromAllKey, false) ==> |r| >= |keys|
    ensures forall x :: x in r ==> x in keys || x == AllMarker
  {
    if keys == [] then []
    else
      var k := keys[|keys| - 1];
      Unsubscriptions(sent, keys[..|keys| - 1]) +
      (if !Get(sent, k, true) then [k] else []) +
      (if Get(sent, FromAllKey, false) then [AllMarker] else [])
  }

  /** The validated data: the top-level flag when it was sent, and the new stored map. */
  datatype Validated = Validated(unsubscribedFromAll: Option<bool>, unsubscribed: map<string, seq<string>>)

  /** The stored list for one type of the configuration, given what the request sent. */
  function StoredFor(request: map<string, map<string, bool>>, ntype: string, keys: seq<string>): seq<string>
  {
    if ntype in request then Unsubscriptions(request[ntype], keys) else []
  }

  /** The stored map holds, for the first n configured types, what the request sent for them. */
  predicate ValidatedPrefix(request: map<string, map<string, bool>>, c: seq<(string, seq<string>)>, n: nat,
                            unsubscribed: map<string, seq<string>>)
    requires n <= |c|
  {
    && unsubscribed.Keys == (set j | 0 <= j < n :: c[j].0)
    && forall j :: 0 <= j < n ==> unsubscribed[c[j].0] == StoredFor(request, c[j].0, c[j].1)
  }

  /** One more type validated. */
  lemma ValidationStep(request: map<string, map<string, bool>>, c: seq<(string, seq<string>)>, i: nat,
                       unsubscribed: map<string, seq<string>>)
    requires DistinctTypes(c) && i < |c|
    requires ValidatedPrefix(request, c, i, unsubscribed)
    ensures ValidatedPrefix(request, c, i + 1, unsubscribed[c[i].0 := StoredFor(request, c[i].0, c[i].1)])
  {
    var list := StoredFor(request, c[i].0, c[i].1);
    MapSnoc(c, i, unsubscribed, list);
    var u := unsubscribed[c[i].0 := list];
    forall j | 0 <= j < i + 1
      ensures u[c[j].0] == StoredFor(request, c[j].0, c[j].1)
    {
    }
  }

  /** The loop over one type's category keys. */
  method CollectUnsubscriptions(sent: map<string, bool>, keys: seq<string>) returns (list: seq<string>)
    ensures list == Unsubscriptions(sent, keys)
  {
    list := [];
    var k := 0;
    while k < |keys|
      invariant 0 <= k <= |keys|
      invariant list == Unsubscriptions(sent, keys[..k])
    {
      assert keys[..k + 1][..k] == keys[..k];
      if !Get(sent, keys[k], true) {
        list := list + [keys[k]];
      }
      if Get(sent, FromAllKey, false) {
        list := list + [AllMarker];
      }
      k := k + 1;
    }
    assert keys[..k] == keys;
  }

  /** validate: every configured type gets a fresh list (so an omitted type becomes fully
      subscribed: the stored map is replaced, not merged); keys outside the configuration are
      ignored. */
  method Validate(fromAll: Option<bool>, request: map<string, map<string, bool>>, config: Configuration)
    returns (v: Validated)
    requires config.Some? ==> DistinctTypes(config.value)
    ensures v.unsubscribedFromAll == fromAll
    ensures v.unsubscribed.Keys == ConfiguredTypes(config)
    ensures config.Some? ==> forall i :: 0 <= i < |config.value| ==>
      v.unsubscribed[config.value[i].0] ==
        if config.value[i].0 in request then Unsubscriptions(request[config.value[i].0], config.value[i].1) else []
  {
    var unsubscribed: map<string, seq<string>> := map[];
    if config.None? {
      return Validated(fromAll, unsubscribed);
    }
    var c := config.value;
    var i := 0;
    while i < |c|
      invariant 0 <= i <= |c|
      invariant ValidatedPrefix(request, c, i, unsubscribed)
    {
      var ntype, keys := c[i].0, c[i].1;
      var list: seq<string> := [];
      if ntype in request {
        list := CollectUnsubscriptions(request[ntype], keys);
      }
      ValidationStep(request, c, i, unsubscribed);
      unsubscribed := unsubscribed[ntype := list];
      i := i + 1;
    }
    return Validated(fromAll, unsubscribed);
  }

  /** The UnsubscribedUser instance the view fetches (get_or_create). The serializer's update sets
      its attributes in memory; nothing calls save(), so the stored row keeps its old values. */
  class UnsubscribedUserRecord {
    const user: int
    var fromAll: bool
    var unsubscribed: map<string, seq<string>>

    function Row(): Row
      reads this
    {
      Notifications.UnsubscribedUser(user, fromAll, unsubscribed)
    }

    constructor (user0: int)
      ensures Row() == Notifications.UnsubscribedUser(user0, false, map[])
    {
      user := user0;
      fromAll := false;
      unsubscribed := map[];
    }

    /** update: copies every validated field onto the row; the flag only when it was sent. */
    method Update(v: Validated)
      modifies this
      ensures unsubscribed == v.unsubscribed
      ensures fromAll == if v.unsubscribedFromAll.Some? then v.unsubscribedFromAll.value else old(fromAll)
    {
      if v.unsubscribedFromAll.Some? {
        fromAll := v.unsubscribedFromAll.value;
      }
      unsubscribed := v.unsubscribed;
    }
  }

  /* ---------------- properties ---------------- */

  /** With "all" not a category key, a key is in a sent type's list exactly when it is configured
      and was sent as false, and "all" is in it exactly when the type-level flag was sent as true
      and the type has at least one key. */
  lemma {:induction false} UnsubscriptionsMeaning(sent: map<string, bool>, keys: seq<string>)
    requires AllMarker !in keys
    ensures forall k :: k != AllMarker ==> (k in Unsubscriptions(sent, keys) <==> k in keys && !Get(sent, k, true))
    ensures AllMarker in Unsubscriptions(sent, keys) <==> |keys| > 0 && Get(sent, FromAllKey, false)
  {
    if keys != [] {
      var init, k := keys[..|keys| - 1], keys[|keys| - 1];
      assert keys == init + [k];
      UnsubscriptionsMeaning(sent, init);
    }
  }

  /** "all" is appended once per configured key, not once per type. */
  lemma {:induction false} AllOncePerKey(sent: map<string, bool>, keys: seq<string>)
    requires AllMarker !in keys
    ensures multiset(Unsubscriptions(sent, keys))[AllMarker] == if Get(sent, FromAllKey, false) then |keys| else 0
  {
    if keys != [] {
      var init, k := keys[..|keys| - 1], keys[|keys| - 1];
      assert keys == init + [k];
      AllOncePerKey(sent, init);
    }
  }

  /** The PUT's response, the representation of the updated instance: for a type that was sent,
      every configured category shows the boolean sent for it (true when omitted), and the
      type-level flag shows whether it was sent as true (for a type with at least one key). The
      instance is not saved, so a later GET does not show this. */
  lemma PutThenGet(sent: map<string, bool>, keys: seq<string>)
    requires AllMarker !in keys && FromAllKey !in keys
    ensures var view := TypeView(Unsubscriptions(sent, keys), keys);
      (forall k :: k in keys ==> k in view && view[k] == Get(sent, k, true)) &&
      FromAllKey in view && view[FromAllKey] == (|keys| > 0 && Get(sent, FromAllKey, false))
  {
    UnsubscriptionsMeaning(sent, keys);
    TypeViewMeaning(Unsubscriptions(sent, keys), keys);
  }

  /** A configured type with nothing stored (in particular one omitted from the last PUT) reads as
      fully subscribed. */
  lemma OmittedTypeFullySubscribed(keys: seq<string>)
    requires FromAllKey !in keys
    ensures var view := TypeView([], keys);
      FromAllKey in view && !view[FromAllKey] && forall k :: k in keys ==> k in view && view[k]
  {
    TypeViewMeaning([], keys);
  }
}
