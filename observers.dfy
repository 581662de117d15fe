/**
 * Observers and the value of an observer registry (class puremvc.Observer and
 * the `observerMap` of class puremvc.Observed), with the specification
 * functions that say what registering, removing and broadcasting do to it.
 */
module Observers {
  import opened Wrappers
  import opened Notifications

  /**
   * The method an Observer calls back: a mediator's `handleNotification`, the
   * controller's `executeCommand`, or some other application function. Its
   * body is application code and is not modelled.
   */
  datatype Callback = HandleNotification | ExecuteCommand | Custom(id: nat)

  /** A (callback, context) pair. The context is the object the callback runs on. */
  datatype Observer = Observer(notify: Callback, context: object) {
    /**
     * `compareNotifyContext`: the given object is the notify context itself
     * (`===`); it is the test that decides whether removing by `obj` takes this
     * observer out of a list.
     */
    predicate CompareNotifyContext(obj: object): (r: bool)
      ensures r <==> RemoveLast([this], obj) == []
    {
      obj == context
    }
  }

  /** Notification name to the observers registered under it, in registration order. */
  type ObserverMap = map<string, seq<Observer>>

  /** The observers under `name`, in registration order; none when the name has no list. */
  function ObserversOf(m: ObserverMap, name: string): seq<Observer> {
    if name in m then m[name] else []
  }

  /** The registry invariant: a name stays a key only while its list is non-empty. */
  ghost predicate NoEmptyLists(m: ObserverMap) {
    forall n :: n in m ==> m[n] != []
  }

  /** Some entry of `obs` has context `ctx`. */
  ghost predicate HasContext(obs: seq<Observer>, ctx: object) {
    exists i :: 0 <= i < |obs| && obs[i].context == ctx
  }

  /** Index `i` holds the most recently registered entry of `obs` whose context is `ctx`. */
  ghost predicate IsLastMatch(obs: seq<Observer>, ctx: object, i: int) {
    && 0 <= i < |obs|
    && obs[i].context == ctx
    && forall j :: i < j < |obs| ==> obs[j].context != ctx
  }

  /** `registerObserver`: the observer goes to the end of its name's list; a new name gets a one-entry list. */
  function Register(m: ObserverMap, name: string, o: Observer): (r: ObserverMap)
    ensures ObserversOf(r, name) == ObserversOf(m, name) + [o]
    ensures forall n :: n != name ==> ObserversOf(r, n) == ObserversOf(m, n)
    ensures r.Keys == m.Keys + {name}
    ensures NoEmptyLists(m) ==> NoEmptyLists(r)
  {
    m[name := ObserversOf(m, name) + [o]]
  }

  /**
   * The scan-from-the-end of `removeObserver`: `obs` without its most recently
   * registered entry whose context is `ctx`. At most one entry goes.
   */
  function RemoveLast(obs: seq<Observer>, ctx: object): (r: seq<Observer>)
    ensures |r| == if HasContext(obs, ctx) then |obs| - 1 else |obs|
    ensures multiset(r) <= multiset(obs)
  {
    if obs == [] then []
    else
      var init, last := obs[..|obs| - 1], obs[|obs| - 1];
      assert obs == init + [last];
      assert HasContext(obs, ctx) <==> last.context == ctx || HasContext(init, ctx) by {
        if HasContext(init, ctx) {
          var i :| 0 <= i < |init| && init[i].context == ctx;
          assert obs[i] == init[i];
        }
        if HasContext(obs, ctx) && last.context != ctx {
          var i :| 0 <= i < |obs| && obs[i].context == ctx;
          assert i < |init| && init[i] == obs[i];
        }
      }
      if last.context == ctx then init
      else RemoveLast(init, ctx) + [last]
  }

  /**
   * `removeObserver` on the map: `None` when the name has no list (the source
   * then fails); otherwise the list loses its last entry with context `ctx`
   * and the name is deleted when its list becomes empty.
   */
  function Unregister(m: ObserverMap, name: string, ctx: object): (r: Option<ObserverMap>)
    ensures r.None? <==> name !in m
    ensures r.Some? ==> ObserversOf(r.value, name) == RemoveLast(ObserversOf(m, name), ctx)
    ensures r.Some? ==> forall n :: n != name ==> ObserversOf(r.value, n) == ObserversOf(m, n)
    ensures r.Some? ==> r.value.Keys == if RemoveLast(m[name], ctx) == [] then m.Keys - {name} else m.Keys
    ensures r.Some? && NoEmptyLists(m) ==> NoEmptyLists(r.value)
  {
    if name !in m then None
    else
      var rest := RemoveLast(m[name], ctx);
      if rest == [] then Some(m - {name}) else Some(m[name := rest])
  }

  /** `o` repeated `k` times. */
  function Repeat(o: Observer, k: nat): (r: seq<Observer>)
    ensures |r| == k
    ensures forall i :: 0 <= i < k ==> r[i] == o
  {
    if k == 0 then [] else Repeat(o, k - 1) + [o]
  }

  /** How many times `name` occurs in `names`. */
  function Occurrences(names: seq<string>, name: string): nat {
    if names == [] then 0
    else Occurrences(names[..|names| - 1], name) + (if names[|names| - 1] == name then 1 else 0)
  }

  /** The registration loop of `registerMediator`: one shared observer under each name, in order. */
  function RegisterEach(m: ObserverMap, names: seq<string>, o: Observer): (r: ObserverMap)
    ensures NoEmptyLists(m) ==> NoEmptyLists(r)
  {
    if names == [] then m
    else Register(RegisterEach(m, names[..|names| - 1], o), names[|names| - 1], o)
  }

  /** A registry value after a series of edits, and whether every edit succeeded. */
  datatype Applied = Applied(observers: ObserverMap, ok: bool)

  /**
   * The removal loop of `removeMediator`: `Unregister` for each name from the
   * last to the first. The first name without a list stops the loop (the
   * source fails there); the removals made before it stay.
   */
  function UnregisterEach(m: ObserverMap, names: seq<string>, ctx: object): (r: Applied)
    ensures forall n :: n !in names ==> ObserversOf(r.observers, n) == ObserversOf(m, n)
    ensures NoEmptyLists(m) ==> NoEmptyLists(r.observers)
    decreases |names|
  {
    if names == [] then Applied(m, true)
    else
      match Unregister(m, names[|names| - 1], ctx)
      case None => Applied(m, false)
      case Some(m') =>
        assert forall n :: n !in names ==> n !in names[..|names| - 1] && n != names[|names| - 1];
        UnregisterEach(m', names[..|names| - 1], ctx)
  }

  /** One step of the removal loop: the last name is removed first, then the rest from the registry it leaves. */
  lemma UnregisterEachLast(m: ObserverMap, names: seq<string>, ctx: object)
    requires names != []
    ensures var u := Unregister(m, names[|names| - 1], ctx);
            UnregisterEach(m, names, ctx)
            == if u.None? then Applied(m, false) else UnregisterEach(u.value, names[..|names| - 1], ctx)
  {
  }

  /** A registry call a callback makes while it runs. */
  datatype Edit = Subscribe(name: string, observer: Observer) | Unsubscribe(name: string, context: object)

  /** One edit: `registerObserver` or `removeObserver`; `None` when the latter fails. */
  function ApplyEdit(m: ObserverMap, e: Edit): Option<ObserverMap> {
    match e
    case Subscribe(n, o) => Some(Register(m, n, o))
    case Unsubscribe(n, c) => Unregister(m, n, c)
  }

  /** Every edit is a registration. */
  ghost predicate AllSubscribe(edits: seq<Edit>) {
    forall k :: 0 <= k < |edits| ==> edits[k].Subscribe?
  }

  /** The edits in order; the first failing one stops the rest, edits before it stay. */
  function ApplyEdits(m: ObserverMap, edits: seq<Edit>): (r: Applied)
    ensures NoEmptyLists(m) ==> NoEmptyLists(r.observers)
    ensures (forall k :: 0 <= k < |edits| ==> edits[k].Subscribe?) ==> r.ok
  {
    if edits == [] then Applied(m, true)
    else
      var p := ApplyEdits(m, edits[..|edits| - 1]);
      if !p.ok then p
      else match ApplyEdit(p.observers, edits[|edits| - 1])
        case None => Applied(p.observers, false)
        case Some(m') => Applied(m', true)
  }

  /** One more edit after a prefix that succeeded: its outcome decides the outcome of the longer prefix. */
  lemma ApplyEditsStep(m: ObserverMap, edits: seq<Edit>, j: nat, mid: ObserverMap)
    requires j < |edits|
    requires ApplyEdits(m, edits[..j]) == Applied(mid, true)
    ensures ApplyEdits(m, edits[..j + 1])
         == match ApplyEdit(mid, edits[j]) case None => Applied(mid, false) case Some(m') => Applied(m', true)
  {
    assert edits[..j + 1][..j] == edits[..j];
  }

  /**
   * What the callbacks do to the registry: given the observer being notified,
   * the notification and the registry as it is at that moment, the edits the
   * callback performs.
   */
  type Reaction = (Observer, Notification, ObserverMap) -> seq<Edit>

  /** The observers invoked by a broadcast, the registry afterwards, and whether no callback failed. */
  datatype Delivery = Delivery(invoked: seq<Observer>, observers: ObserverMap, ok: bool)

  /**
   * The loop of `notifyObservers` over the copied list `pending`: each observer
   * in turn is invoked and its callback's edits are applied to the registry as
   * it is by then. A failing edit ends the broadcast after the observer whose
   * callback made it. Which observers are invoked depends on `pending` alone,
   * never on what the callbacks do to the registry.
   */
  function Deliver(m: ObserverMap, pending: seq<Observer>, note: Notification, react: Reaction): (r: Delivery)
    ensures r.ok ==> r.invoked == pending
    ensures NoEmptyLists(m) ==> NoEmptyLists(r.observers)
  {
    if pending == [] then Delivery([], m, true)
    else
      var d := Deliver(m, pending[..|pending| - 1], note, react);
      if !d.ok then d
      else
        var a := ApplyEdits(d.observers, react(pending[|pending| - 1], note, d.observers));
        Delivery(d.invoked + [pending[|pending| - 1]], a.observers, a.ok)
  }

  /** The contexts of the entries of `obs`, with multiplicity. */
  function Contexts(obs: seq<Observer>): (r: multiset<object>)
    ensures |r| == |obs|
  {
    if obs == [] then multiset{}
    else Contexts(obs[..|obs| - 1]) + multiset{obs[|obs| - 1].context}
  }

  /** Callbacks that make no registry calls. */
  function NoCalls(): Reaction {
    (o: Observer, note: Notification, m: ObserverMap) => []
  }

  /** Observers that each remove themselves, by their own context, from the name being broadcast. */
  function SelfRemoval(): Reaction {
    (o: Observer, note: Notification, m: ObserverMap) => [Unsubscribe(note.name, o.context)]
  }

  // ---------------------------------------------------------------------------
  // Lemmas

  /** With no entry of context `ctx`, removal leaves the list as it was. */
  lemma {:induction false} RemoveLastNoMatch(obs: seq<Observer>, ctx: object)
    requires !HasContext(obs, ctx)
    ensures RemoveLast(obs, ctx) == obs
  {
    if obs != [] {
      var init := obs[..|obs| - 1];
      assert forall i :: 0 <= i < |init| ==> init[i] == obs[i];
      assert obs[|obs| - 1].context != ctx;
      RemoveLastNoMatch(init, ctx);
      assert obs == init + [obs[|obs| - 1]];
    }
  }

  /**
   * Removal takes out exactly the most recent entry of context `ctx`, at index
   * `i`; every other entry stays, in its relative order.
   */
  lemma {:induction false} RemoveLastAt(obs: seq<Observer>, ctx: object, i: int)
    requires IsLastMatch(obs, ctx, i)
    ensures RemoveLast(obs, ctx) == obs[..i] + obs[i + 1..]
  {
    var init, last := obs[..|obs| - 1], obs[|obs| - 1];
    if i == |obs| - 1 {
      assert obs[..i] + obs[i + 1..] == init;
    } else {
      assert last.context != ctx;
      assert IsLastMatch(init, ctx, i);
      RemoveLastAt(init, ctx, i);
      assert obs[..i] + obs[i + 1..] == init[..i] + init[i + 1..] + [last];
    }
  }

  /**
   * After the registration loop, each name's list is its old list followed by
   * the shared observer once per occurrence of the name among the interests;
   * names that are not interests keep their lists.
   */
  lemma {:induction false} RegisterEachObservers(m: ObserverMap, names: seq<string>, o: Observer, n: string)
    ensures ObserversOf(RegisterEach(m, names, o), n) == ObserversOf(m, n) + Repeat(o, Occurrences(names, n))
  {
    if names != [] {
      var init := names[..|names| - 1];
      RegisterEachObservers(m, init, o, n);
      if names[|names| - 1] == n {
        assert Repeat(o, Occurrences(names, n)) == Repeat(o, Occurrences(init, n)) + [o];
      }
    }
  }

  /** Registering an observer and then removing by its context gives back the registry (no dangling list). */
  lemma UnregisterRegister(m: ObserverMap, name: string, o: Observer)
    requires NoEmptyLists(m)
    ensures Unregister(Register(m, name, o), name, o.context) == Some(m)
  {
    var l := ObserversOf(m, name);
    var m1 := Register(m, name, o);
    assert m1[name] == l + [o];
    assert RemoveLast(l + [o], o.context) == l by {
      assert (l + [o])[..|l + [o]| - 1] == l;
    }
    if name in m {
      assert l != [];
      assert m1[name := l] == m;
    } else {
      assert m1 - {name} == m;
    }
  }

  /**
   * The registry round trip of a mediator: registering one shared observer
   * under each of its interests and then removing it, interest by interest
   * from the last, succeeds and restores the registry exactly.
   */
  lemma {:induction false} UnregisterEachRegisterEach(m: ObserverMap, names: seq<string>, o: Observer)
    requires NoEmptyLists(m)
    ensures UnregisterEach(RegisterEach(m, names, o), names, o.context) == Applied(m, true)
  {
    if names != [] {
      var init, last := names[..|names| - 1], names[|names| - 1];
      var m1 := RegisterEach(m, init, o);
      UnregisterRegister(m1, last, o);
      UnregisterEachRegisterEach(m, init, o);
    }
  }

  /** Once an edit fails, the later edits are not applied. */
  lemma {:induction false} ApplyEditsStopped(m: ObserverMap, edits: seq<Edit>, k: nat)
    requires k <= |edits|
    requires !ApplyEdits(m, edits[..k]).ok
    ensures ApplyEdits(m, edits) == ApplyEdits(m, edits[..k])
    decreases |edits| - k
  {
    if k < |edits| {
      var init := edits[..|edits| - 1];
      assert init[..k] == edits[..k];
      ApplyEditsStopped(m, init, k);
    } else {
      assert edits[..k] == edits;
    }
  }

  /** A broadcast that fails has invoked a non-empty prefix of the copied list, the last of them being the one whose callback failed. */
  lemma {:induction false} DeliverFailedPrefix(m: ObserverMap, pending: seq<Observer>, note: Notification, react: Reaction)
    ensures var r := Deliver(m, pending, note, react);
            !r.ok ==> 0 < |r.invoked| <= |pending| && r.invoked == pending[..|r.invoked|]
  {
    if pending != [] {
      var init := pending[..|pending| - 1];
      DeliverFailedPrefix(m, init, note, react);
      var d := Deliver(m, init, note, react);
      if !d.ok {
        assert pending[..|d.invoked|] == init[..|d.invoked|];
      } else {
        assert init + [pending[|pending| - 1]] == pending;
      }
    }
  }

  /** Once a callback fails, no later observer of the copied list is invoked. */
  lemma {:induction false} DeliverStopped(m: ObserverMap, pending: seq<Observer>, note: Notification, react: Reaction, k: nat)
    requires k <= |pending|
    requires !Deliver(m, pending[..k], note, react).ok
    ensures Deliver(m, pending, note, react) == Deliver(m, pending[..k], note, react)
    decreases |pending| - k
  {
    if k < |pending| {
      var init := pending[..|pending| - 1];
      assert init[..k] == pending[..k];
      DeliverStopped(m, init, note, react, k);
    } else {
      assert pending[..k] == pending;
    }
  }

  /** Removing by a context that occurs takes exactly one occurrence of it out of the contexts. */
  lemma {:induction false} ContextsRemoveLast(obs: seq<Observer>, ctx: object)
    requires ctx in Contexts(obs)
    ensures Contexts(RemoveLast(obs, ctx)) == Contexts(obs) - multiset{ctx}
  {
    var init, last := obs[..|obs| - 1], obs[|obs| - 1];
    assert Contexts(obs) == Contexts(init) + multiset{last.context};
    if last.context == ctx {
      assert RemoveLast(obs, ctx) == init;
    } else {
      assert ctx in Contexts(init);
      ContextsRemoveLast(init, ctx);
      var r := RemoveLast(init, ctx);
      assert RemoveLast(obs, ctx) == r + [last];
      assert (r + [last])[..|r + [last]| - 1] == r;
      assert Contexts(r + [last]) == Contexts(r) + multiset{last.context};
    }
  }

  /**
   * One observer removing itself: when its context occurs under the name,
   * the removal succeeds and takes one occurrence of it out; other names are
   * untouched.
   */
  lemma SelfRemovalStep(m: ObserverMap, note: Notification, o: Observer)
    requires NoEmptyLists(m)
    requires o.context in Contexts(ObserversOf(m, note.name))
    ensures var a := ApplyEdits(m, SelfRemoval()(o, note, m));
            && a.ok && NoEmptyLists(a.observers)
            && Contexts(ObserversOf(a.observers, note.name)) == Contexts(ObserversOf(m, note.name)) - multiset{o.context}
            && forall n :: n != note.name ==> ObserversOf(a.observers, n) == ObserversOf(m, n)
  {
    var cur := ObserversOf(m, note.name);
    assert note.name in m;
    var edits := SelfRemoval()(o, note, m);
    assert edits == [Unsubscribe(note.name, o.context)];
    var u := Unregister(m, note.name, o.context);
    assert ApplyEdits(m, edits) == Applied(u.value, true) by {
      assert edits[..0] == [];
    }
    ContextsRemoveLast(cur, o.context);
  }

  /** Taking the occurrences `taken` and then one more `x` out of `all` is taking `taken + {x}` out. */
  lemma MultisetTakeOne(all: multiset<object>, taken: multiset<object>, x: object)
    requires taken + multiset{x} <= all
    ensures x in all - taken
    ensures all - taken - multiset{x} == all - (taken + multiset{x})
  {
  }

  /**
   * Any observers whose contexts occur under the name, each removing itself
   * in turn: no removal fails, each takes its own context out of the list,
   * and other names are untouched.
   */
  lemma {:induction false} DeliverSelfRemovalEach(m: ObserverMap, pending: seq<Observer>, note: Notification)
    requires NoEmptyLists(m)
    requires Contexts(pending) <= Contexts(ObserversOf(m, note.name))
    ensures var d := Deliver(m, pending, note, SelfRemoval());
            && d.ok
            && Contexts(ObserversOf(d.observers, note.name)) == Contexts(ObserversOf(m, note.name)) - Contexts(pending)
            && forall n :: n != note.name ==> ObserversOf(d.observers, n) == ObserversOf(m, n)
  {
    if pending != [] {
      var init, o := pending[..|pending| - 1], pending[|pending| - 1];
      var all := Contexts(ObserversOf(m, note.name));
      assert Contexts(pending) == Contexts(init) + multiset{o.context};
      DeliverSelfRemovalEach(m, init, note);
      var d := Deliver(m, init, note, SelfRemoval());
      MultisetTakeOne(all, Contexts(init), o.context);
      SelfRemovalStep(d.observers, note, o);
      var a := ApplyEdits(d.observers, SelfRemoval()(o, note, d.observers));
      assert Deliver(m, pending, note, SelfRemoval()) == Delivery(d.invoked + [o], a.observers, a.ok);
    }
  }

  /**
   * Observers that unsubscribe themselves during their own notification do
   * not disturb the broadcast: every observer of the copied list is invoked,
   * in order, no removal fails, and afterwards the name has no list left.
   */
  lemma DeliverSelfRemoval(m: ObserverMap, note: Notification)
    requires NoEmptyLists(m)
    ensures var pending := ObserversOf(m, note.name);
            var d := Deliver(m, pending, note, SelfRemoval());
            && d.ok && d.invoked == pending
            && note.name !in d.observers
            && forall n :: n != note.name ==> ObserversOf(d.observers, n) == ObserversOf(m, n)
  {
    var pending := ObserversOf(m, note.name);
    DeliverSelfRemovalEach(m, pending, note);
  }

  /**
   * A broadcast whose callbacks only register observers never fails: every
   * observer of the copied list is invoked exactly once, in registration
   * order, and none of those registered meanwhile is.
   */
  lemma {:induction false} DeliverOnlySubscribes(m: ObserverMap, pending: seq<Observer>, note: Notification, react: Reaction)
    requires forall o, n, r :: AllSubscribe(react(o, n, r))
    ensures Deliver(m, pending, note, react).ok
    ensures Deliver(m, pending, note, react).invoked == pending
  {
    if pending != [] {
      var init := pending[..|pending| - 1];
      DeliverOnlySubscribes(m, init, note, react);
      var d := Deliver(m, init, note, react);
      assert AllSubscribe(react(pending[|pending| - 1], note, d.observers));
    }
  }

  /** A broadcast whose callbacks make no registry calls invokes the whole copied list and leaves the registry as it was. */
  lemma {:induction false} DeliverNoCalls(m: ObserverMap, pending: seq<Observer>, note: Notification)
    ensures Deliver(m, pending, note, NoCalls()) == Delivery(pending, m, true)
  {
    if pending != [] {
      var init := pending[..|pending| - 1];
      var last := pending[|pending| - 1];
      DeliverNoCalls(m, init, note);
      var d := Deliver(m, init, note, NoCalls());
      assert d.ok && d.invoked == init && d.observers == m;
      var edits := NoCalls()(last, note, m);
      assert edits == [];
      assert ApplyEdits(m, edits) == Applied(m, true);
      assert Deliver(m, pending, note, NoCalls()) == Delivery(init + [last], m, true);
      assert init + [last] == pending;
    }
  }
}
