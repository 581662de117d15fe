/**
 * The observer registry object (class puremvc.Observed): its `observerMap` is
 * edited in place by `registerObserver` and `removeObserver`, and
 * `notifyObservers` broadcasts over a copy of one of its lists.
 */
module ObservedRegistry {
  import opened Wrappers
  import opened Notifications
  import opened Observers

  class Observed {
    /** Notification name to its observer list. */
    var observerMap: ObserverMap

    ghost predicate Valid()
      reads this
    {
      NoEmptyLists(observerMap)
    }

    /** `initialize`: an empty registry. */
    constructor()
      ensures Valid() && observerMap == map[]
    {
      observerMap := map[];
    }

    /** `registerObserver`: push onto the name's list, or start a one-entry list. */
    method RegisterObserver(name: string, observer: Observer)
      requires Valid()
      modifies this
      ensures Valid()
      ensures observerMap == Register(old(observerMap), name, observer)
    {
      if name in observerMap {
        observerMap := observerMap[name := observerMap[name] + [observer]];
      } else {
        assert [] + [observer] == [observer];
        observerMap := observerMap[name := [observer]];
      }
    }

    /**
     * The `while( i-- )` scan of `removeObserver`: the index of the most recently
     * registered entry whose context is `ctx`, or -1 when there is none.
     */
    static method LastMatch(observers: seq<Observer>, ctx: object) returns (i: int)
      ensures -1 <= i < |observers|
      ensures i == -1 <==> !HasContext(observers, ctx)
      ensures i != -1 ==> IsLastMatch(observers, ctx, i)
    {
      i := |observers|;
      while i > 0
        invariant 0 <= i <= |observers|
        invariant forall j :: i <= j < |observers| ==> observers[j].context != ctx
      {
        i := i - 1;
        if observers[i].CompareNotifyContext(ctx) {
          return;
        }
      }
      i := -1;
    }

    /**
     * `removeObserver`: splice out the most recent entry with context `ctx` and
     * delete the name once its list is empty. The source reads the length of
     * the name's list without checking that there is one, so for a name
     * without a list it fails before changing anything: here `ok` is false.
     */
    method RemoveObserver(name: string, ctx: object) returns (ok: bool)
      requires Valid()
      modifies this
      ensures Valid()
      ensures ok <==> name in old(observerMap)
      ensures ok ==> Some(observerMap) == Unregister(old(observerMap), name, ctx)
      ensures !ok ==> observerMap == old(observerMap)
    {
      if name !in observerMap {
        return false;
      }
      var observers := observerMap[name];
      var i := LastMatch(observers, ctx);
      if i != -1 {
        RemoveLastAt(observers, ctx, i);
        observers := observers[..i] + observers[i + 1..];
      } else {
        RemoveLastNoMatch(observers, ctx);
      }
      if |observers| == 0 {
        observerMap := observerMap - {name};
      } else {
        observerMap := observerMap[name := observers];
      }
      ok := true;
    }

    /** One registry call made by a callback: `registerObserver` or `removeObserver`. */
    method Perform(e: Edit) returns (ok: bool)
      requires Valid()
      modifies this
      ensures Valid()
      ensures ok ==> ApplyEdit(old(observerMap), e) == Some(observerMap)
      ensures !ok ==> ApplyEdit(old(observerMap), e) == None && observerMap == old(observerMap)
    {
      match e
      case Subscribe(n, o) =>
        RegisterObserver(n, o);
        ok := true;
      case Unsubscribe(n, c) =>
        ok := RemoveObserver(n, c);
    }

    /**
     * `observer.notifyObserver(note)`: the callback runs and makes the registry
     * calls `react` says it makes; a failing `removeObserver` ends it (`ok` false).
     */
    method Invoke(observer: Observer, note: Notification, react: Reaction) returns (ok: bool)
      requires Valid()
      modifies this
      ensures Valid()
      ensures Applied(observerMap, ok) == ApplyEdits(old(observerMap), react(observer, note, old(observerMap)))
    {
      var edits := react(observer, note, observerMap);
      ghost var m0 := observerMap;
      ok := true;
      var j := 0;
      while j < |edits|
        invariant 0 <= j <= |edits|
        invariant Valid()
        invariant ApplyEdits(m0, edits[..j]) == Applied(observerMap, true)
      {
        ApplyEditsStep(m0, edits, j, observerMap);
        ok := Perform(edits[j]);
        if !ok {
          ApplyEditsStopped(m0, edits, j + 1);
          return;
        }
        j := j + 1;
      }
      assert edits[..j] == edits;
    }

    /**
     * `notifyObservers`: copy the list of the note's name (`slice(0)`), then
     * invoke every observer of the copy in order. The observers invoked are the
     * name's list as the call begins, whatever the callbacks register or remove;
     * an unknown name invokes nobody and changes nothing.
     */
    method NotifyObservers(note: Notification, react: Reaction) returns (invoked: seq<Observer>, ok: bool)
      requires Valid()
      modifies this
      ensures Valid()
      ensures Delivery(invoked, observerMap, ok)
           == Deliver(old(observerMap), ObserversOf(old(observerMap), note.name), note, react)
      ensures ok ==> invoked == ObserversOf(old(observerMap), note.name)
      ensures note.name !in old(observerMap) ==> invoked == [] && ok && observerMap == old(observerMap)
    {
      invoked, ok := [], true;
      if note.name in observerMap {
        var observers := observerMap[note.name];
        ghost var m0 := observerMap;
        var i := 0;
        while i < |observers|
          invariant 0 <= i <= |observers|
          invariant Valid()
          invariant Deliver(m0, observers[..i], note, react) == Delivery(invoked, observerMap, true)
        {
          assert observers[..i + 1][..i] == observers[..i];
          invoked := invoked + [observers[i]];
          ok := Invoke(observers[i], note, react);
          if !ok {
            DeliverStopped(m0, observers, note, react, i + 1);
            return;
          }
          i := i + 1;
        }
        assert observers[..i] == observers;
      }
    }
  }
}
