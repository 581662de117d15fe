/**
 * The mediator registry and notification hub (class puremvc.View) and the
 * mediators it holds (class puremvc.Mediator).
 */
module Views {
  import opened Wrappers
  import opened Notifications
  import opened Observers
  import opened ObservedRegistry
  import opened Models

  /** `Mediator.NAME`, the name of a mediator constructed without one. */
  const DEFAULT_MEDIATOR_NAME: string := "Mediator"

  class Mediator {
    /** `getMediatorName()`; the source has no setter for it. */
    const name: string
    /**
     * `listNotificationInterests()`: the names the mediator is notified of. The
     * base class answers `[]`; an application mediator overrides it with a
     * fixed list, given here at construction.
     */
    const interests: seq<string>
    /** `getViewComponent()` / `setViewComponent()`. */
    var viewComponent: Option<Payload>
    /** The back-references `registerMediator` sets and `removeMediator` clears. */
    var model: Model?
    var view: View?

    /** `initialize(mediatorName, viewComponent)`: a null or undefined name becomes `Mediator.NAME`. */
    constructor(mediatorName: Option<string>, viewComponent: Option<Payload>, interests: seq<string>)
      ensures name == (if mediatorName.Some? then mediatorName.value else DEFAULT_MEDIATOR_NAME)
      ensures this.viewComponent == viewComponent && this.interests == interests
      ensures model == null && view == null
    {
      name := if mediatorName.Some? then mediatorName.value else DEFAULT_MEDIATOR_NAME;
      this.interests := interests;
      this.viewComponent := viewComponent;
      model, view := null, null;
    }

    /** The one Observer the View registers for this mediator under each interest. */
    function InterestObserver(): Observer {
      Observer(HandleNotification, this)
    }
  }

  /** A map whose every mediator is stored under its own name has a key exactly for the names its mediators carry. */
  lemma MediatorNamed(m: map<string, Mediator>, name: string)
    ensures (forall n :: n in m ==> m[n].name == n) ==>
      (name in m <==> exists md :: md in m.Values && md.name == name)
  {
  }

  class View {
    /** Mediator name to the mediator registered under it. */
    var mediatorMap: map<string, Mediator>
    /** The View's observer registry, created with it. */
    const observed: Observed
    /** `getModel()` / `setModel()`. */
    var model: Model?

    /** Every mediator is stored under its own name. */
    ghost predicate NamesMatch()
      reads this
    {
      forall n :: n in mediatorMap ==> mediatorMap[n].name == n
    }

    ghost predicate Valid()
      reads this, observed
    {
      observed.Valid() && NamesMatch()
    }

    /** `initialize`: no mediators, an empty registry, no Model yet. */
    constructor()
      ensures Valid() && fresh(observed)
      ensures mediatorMap == map[] && observed.observerMap == map[] && model == null
    {
      mediatorMap := map[];
      observed := new Observed();
      model := null;
    }

    /** `registerObserver`, delegated to the View's registry. */
    method RegisterObserver(name: string, observer: Observer)
      requires Valid()
      modifies observed
      ensures Valid()
      ensures observed.observerMap == Register(old(observed.observerMap), name, observer)
    {
      observed.RegisterObserver(name, observer);
    }

    /** `notifyObservers`, delegated to the View's registry. */
    method NotifyObservers(note: Notification, react: Reaction) returns (invoked: seq<Observer>, ok: bool)
      requires Valid()
      modifies observed
      ensures Valid()
      ensures Delivery(invoked, observed.observerMap, ok)
           == Deliver(old(observed.observerMap), ObserversOf(old(observed.observerMap), note.name), note, react)
    {
      invoked, ok := observed.NotifyObservers(note, react);
    }

    /** `removeObserver`, delegated to the View's registry; fails for a name without a list. */
    method RemoveObserver(name: string, ctx: object) returns (ok: bool)
      requires Valid()
      modifies observed
      ensures Valid()
      ensures ok <==> name in old(observed.observerMap)
      ensures ok ==> Some(observed.observerMap) == Unregister(old(observed.observerMap), name, ctx)
      ensures !ok ==> observed.observerMap == old(observed.observerMap)
    {
      ok := observed.RemoveObserver(name, ctx);
    }

    /**
     * `registerMediator`: a no-op when a mediator is already registered under
     * the name (the first registration wins). Otherwise the mediator is stored,
     * one shared Observer with the mediator as context is appended under each
     * interest in order, and the mediator's model and view are set.
     */
    method RegisterMediator(mediator: Mediator)
      requires Valid()
      modifies this, observed, mediator
      ensures Valid() && model == old(model)
      ensures mediator.name in old(mediatorMap) ==>
        && mediatorMap == old(mediatorMap)
        && observed.observerMap == old(observed.observerMap)
        && unchanged(mediator)
      ensures mediator.name !in old(mediatorMap) ==>
        && mediatorMap == old(mediatorMap)[mediator.name := mediator]
        && observed.observerMap == RegisterEach(old(observed.observerMap), mediator.interests, mediator.InterestObserver())
        && mediator.model == model && mediator.view == this
        && mediator.viewComponent == old(mediator.viewComponent)
      ensures RetrieveMediator(mediator.name) == old(if mediator.name in mediatorMap then mediatorMap[mediator.name] else mediator)
      ensures HasMediator(mediator.name)
    {
      var name := mediator.name;
      if name in mediatorMap {
        return;
      }
      mediatorMap := mediatorMap[name := mediator];
      RegisterInterests(mediator.interests, mediator.InterestObserver());
      mediator.model := model;
      mediator.view := this;
    }

    /** The loop of `registerMediator`: register `observer` under each of `interests`, in order. */
    method RegisterInterests(interests: seq<string>, observer: Observer)
      requires Valid()
      modifies observed
      ensures Valid()
      ensures observed.observerMap == RegisterEach(old(observed.observerMap), interests, observer)
    {
      ghost var m0 := observed.observerMap;
      var len := |interests|;
      if len > 0 {
        var i := 0;
        while i < len
          invariant 0 <= i <= len
          invariant Valid()
          invariant observed.observerMap == RegisterEach(m0, interests[..i], observer)
        {
          assert interests[..i + 1][..i] == interests[..i];
          assert RegisterEach(m0, interests[..i + 1], observer)
              == Register(RegisterEach(m0, interests[..i], observer), interests[i], observer);
          RegisterObserver(interests[i], observer);
          i := i + 1;
        }
        assert interests[..i] == interests;
      }
    }

    /** The loop of `removeMediator`: remove by `ctx` under each of `interests`, last first, stopping at a failure. */
    method RemoveInterests(interests: seq<string>, ctx: object) returns (ok: bool)
      requires Valid()
      modifies observed
      ensures Valid()
      ensures Applied(observed.observerMap, ok) == UnregisterEach(old(observed.observerMap), interests, ctx)
    {
      ghost var m0 := observed.observerMap;
      var i := |interests|;
      assert interests[..i] == interests;
      while i > 0
        invariant 0 <= i <= |interests|
        invariant Valid()
        invariant UnregisterEach(m0, interests, ctx) == UnregisterEach(observed.observerMap, interests[..i], ctx)
      {
        UnregisterEachLast(observed.observerMap, interests[..i], ctx);
        assert interests[..i][..i - 1] == interests[..i - 1];
        ok := RemoveObserver(interests[i - 1], ctx);
        if !ok {
          return;
        }
        i := i - 1;
      }
      ok := true;
    }

    /** `retrieveMediator`: the mediator registered under `name`, or an explicit null. */
    function RetrieveMediator(mediatorName: string): (r: Mediator?)
      requires NamesMatch()
      reads this
      ensures r == null <==> mediatorName !in mediatorMap
      ensures r != null ==> r == mediatorMap[mediatorName] && r.name == mediatorName
    {
      if mediatorName in mediatorMap then mediatorMap[mediatorName] else null
    }

    /**
     * `hasMediator`: the same lookup as `retrieveMediator`, as a boolean. Under
     * the naming invariant it holds exactly when some registered mediator
     * carries the name.
     */
    predicate HasMediator(mediatorName: string): (r: bool)
      reads this
      ensures NamesMatch() ==> (r <==> RetrieveMediator(mediatorName) != null)
      ensures NamesMatch() ==> (r <==> exists md :: md in mediatorMap.Values && md.name == mediatorName)
    {
      MediatorNamed(mediatorMap, mediatorName);
      mediatorName in mediatorMap
    }

    /**
     * `removeMediator`: for an unknown name, null and no change. Otherwise the
     * mediator's observer is removed under each interest, last interest
     * first; the entry is deleted, the back-references cleared and the
     * mediator returned. An interest without an observer list makes the
     * source fail at that point (`ok` false): the removals already made stay
     * and the mediator stays registered.
     */
    method RemoveMediator(mediatorName: string) returns (removed: Mediator?, ok: bool)
      requires Valid()
      modifies this, observed, if mediatorName in mediatorMap then {mediatorMap[mediatorName]} else {}
      ensures Valid() && model == old(model)
      ensures ok ==> !HasMediator(mediatorName)
      ensures mediatorName !in old(mediatorMap) ==>
        && removed == null && ok
        && mediatorMap == old(mediatorMap)
        && observed.observerMap == old(observed.observerMap)
      ensures mediatorName in old(mediatorMap) ==>
        var mediator := old(mediatorMap[mediatorName]);
        var undone := UnregisterEach(old(observed.observerMap), mediator.interests, mediator);
        && observed.observerMap == undone.observers
        && ok == undone.ok
        && mediator.viewComponent == old(mediator.viewComponent)
        && (ok ==> removed == mediator && mediatorMap == old(mediatorMap) - {mediatorName}
                   && mediator.model == null && mediator.view == null)
        && (!ok ==> removed == null && mediatorMap == old(mediatorMap)
                    && mediator.model == old(mediator.model) && mediator.view == old(mediator.view))
    {
      if mediatorName !in mediatorMap {
        return null, true;
      }
      var mediator := mediatorMap[mediatorName];
      ok := RemoveInterests(mediator.interests, mediator);
      if !ok {
        return null, false;
      }
      mediatorMap := mediatorMap - {mediatorName};
      mediator.model := null;
      mediator.view := null;
      removed, ok := mediator, true;
    }
  }
}
