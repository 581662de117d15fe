/**
 * The single entry point (class puremvc.Facade): it creates the Model, View
 * and Controller lazily, wires them to one another whatever order they are
 * created in, and passes the application's calls through to them.
 */
module Facades {
  import opened Wrappers
  import opened Notifications
  import opened Observers
  import opened ObservedRegistry
  import opened Models
  import opened Views
  import opened Commands
  import opened Controllers

  /** One of the three actors a facade initializes. */
  datatype Actor = ModelActor | ViewActor | ControllerActor

  class Facade {
    var model: Model?
    var view: View?
    var controller: Controller?

    /** The actors that exist so far, with their observer registries. */
    ghost function Parts(): set<object>
      reads this
    {
      (if model != null then {model, model.observed} else {})
      + (if view != null then {view, view.observed} else {})
      + (if controller != null then {controller} else {})
    }

    /**
     * The cross-wiring: the Controller (when it exists) holds exactly this
     * facade's View and Model, and the View (when it exists) this facade's Model.
     */
    ghost predicate Wired()
      reads this, view, controller
    {
      && (controller != null ==> controller.view == view && controller.model == model)
      && (view != null ==> view.model == model)
    }

    ghost predicate Valid()
      reads this, Parts()
    {
      && Wired()
      && (model != null ==> model.Valid())
      && (view != null ==> view.Valid())
      && (model != null && view != null ==> model.observed != view.observed)
    }

    /** All three actors exist. */
    predicate Complete()
      reads this
    {
      model != null && view != null && controller != null
    }

    /**
     * The facade's fields as they are before `initializeFacade` runs: no
     * actors yet. An application facade that overrides `initializeFacade`
     * creates its actors from here, in any order.
     */
    constructor Uninitialized()
      ensures Valid() && model == null && view == null && controller == null
    {
      model, view, controller := null, null, null;
    }

    /** `initialize`: runs `initializeFacade`, which creates the Model, then the View, then the Controller. */
    constructor()
      ensures Valid() && Complete()
      ensures fresh(model) && fresh(model.observed) && fresh(view) && fresh(view.observed) && fresh(controller)
      ensures model.proxyMap == map[] && model.observed.observerMap == map[]
      ensures view.mediatorMap == map[] && view.observed.observerMap == map[]
      ensures controller.commandMap == map[]
    {
      model, view, controller := null, null, null;
      new;
      InitializeFacade();
    }

    /** `initializeFacade`: `initializeModel`, `initializeView`, `initializeController`. */
    method InitializeFacade()
      requires Valid()
      modifies this, Parts()
      ensures Valid() && Complete()
      ensures old(model) != null ==> model == old(model)
      ensures old(view) != null ==> view == old(view)
      ensures old(controller) != null ==> controller == old(controller)
      ensures old(model) == null ==>
        fresh(model) && fresh(model.observed) && model.proxyMap == map[] && model.observed.observerMap == map[]
      ensures old(view) == null ==> fresh(view) && fresh(view.observed) && view.mediatorMap == map[] && view.observed.observerMap == map[]
      ensures old(controller) == null ==> fresh(controller) && controller.commandMap == map[]
      ensures old(model) != null ==>
        model.proxyMap == old(model.proxyMap) && model.observed.observerMap == old(model.observed.observerMap)
      ensures old(view) != null ==>
        view.mediatorMap == old(view.mediatorMap) && view.observed.observerMap == old(view.observed.observerMap)
      ensures old(controller) != null ==> controller.commandMap == old(controller.commandMap)
    {
      InitializeModel();
      InitializeView();
      InitializeController();
    }

    /**
     * `initializeModel`: once a Model exists nothing changes. Otherwise a new
     * Model is created and handed to the Controller and the View if they exist.
     */
    method InitializeModel()
      requires Valid()
      modifies this, view, controller
      ensures Valid() && model != null
      ensures view == old(view) && controller == old(controller)
      ensures old(model) != null ==>
        model == old(model) && (view != null ==> unchanged(view)) && (controller != null ==> unchanged(controller))
      ensures old(model) == null ==>
        fresh(model) && fresh(model.observed) && model.proxyMap == map[] && model.observed.observerMap == map[]
      ensures view != null ==> view.mediatorMap == old(view.mediatorMap)
      ensures controller != null ==> controller.commandMap == old(controller.commandMap)
    {
      if model != null {
        return;
      }
      model := new Model();
      if controller != null {
        controller.model := model;
      }
      if view != null {
        view.model := model;
      }
    }

    /**
     * `initializeView`: once a View exists nothing changes. Otherwise a new
     * View is created, given the Model if it exists, and handed to the
     * Controller if it exists.
     */
    method InitializeView()
      requires Valid()
      modifies this, controller
      ensures Valid() && view != null
      ensures model == old(model) && controller == old(controller)
      ensures old(view) != null ==> view == old(view) && (controller != null ==> unchanged(controller))
      ensures old(view) == null ==>
        fresh(view) && fresh(view.observed) && view.mediatorMap == map[] && view.observed.observerMap == map[]
      ensures controller != null ==> controller.commandMap == old(controller.commandMap)
    {
      if view != null {
        return;
      }
      view := new View();
      if model != null {
        view.model := model;
      }
      if controller != null {
        controller.view := view;
      }
    }

    /**
     * `initializeController`: once a Controller exists nothing changes.
     * Otherwise a new Controller is created and given the View and the Model
     * that exist.
     */
    method InitializeController()
      requires Valid()
      modifies this
      ensures Valid() && controller != null
      ensures model == old(model) && view == old(view)
      ensures old(controller) != null ==> controller == old(controller)
      ensures old(controller) == null ==> fresh(controller) && controller.commandMap == map[]
    {
      if controller != null {
        return;
      }
      controller := new Controller();
      if view != null {
        controller.view := view;
      }
      if model != null {
        controller.model := model;
      }
    }

    /** The `initialize*` method for `actor`, as an overriding `initializeFacade` would call it. */
    method Initialize(actor: Actor)
      requires Valid()
      modifies this, view, controller
      ensures Valid()
      ensures actor == ModelActor ==> model != null
      ensures actor == ViewActor ==> view != null
      ensures actor == ControllerActor ==> controller != null
      ensures actor != ModelActor ==> model == old(model)
      ensures actor != ViewActor ==> view == old(view)
      ensures actor != ControllerActor ==> controller == old(controller)
      ensures old(model) != null ==> model == old(model)
      ensures old(view) != null ==> view == old(view)
      ensures old(controller) != null ==> controller == old(controller)
      ensures old(model) == null && model != null ==>
        fresh(model) && fresh(model.observed) && model.proxyMap == map[] && model.observed.observerMap == map[]
      ensures old(view) == null && view != null ==>
        fresh(view) && fresh(view.observed) && view.mediatorMap == map[] && view.observed.observerMap == map[]
      ensures old(controller) == null && controller != null ==> fresh(controller) && controller.commandMap == map[]
      ensures old(model) != null ==>
        model.proxyMap == old(model.proxyMap) && model.observed.observerMap == old(model.observed.observerMap)
      ensures old(view) != null ==>
        view.mediatorMap == old(view.mediatorMap) && view.observed.observerMap == old(view.observed.observerMap)
      ensures old(controller) != null ==> controller.commandMap == old(controller.commandMap)
    {
      match actor
      case ModelActor => InitializeModel();
      case ViewActor => InitializeView();
      case ControllerActor => InitializeController();
    }

    /** `registerCommand`, passed to the Controller. */
    method RegisterCommand(name: string, commandClass: CommandClass)
      requires Valid() && Complete()
      modifies controller, view.observed
      ensures Valid()
      ensures controller.commandMap == old(controller.commandMap)[name := commandClass] && HasCommand(name)
      ensures name !in old(controller.commandMap) ==>
        view.observed.observerMap == Register(old(view.observed.observerMap), name, controller.CommandObserver())
      ensures name in old(controller.commandMap) ==> view.observed.observerMap == old(view.observed.observerMap)
    {
      controller.RegisterCommand(name, commandClass);
    }

    /** `removeCommand`, passed to the Controller; fails when the View has no list for a mapped name. */
    method RemoveCommand(name: string) returns (ok: bool)
      requires Valid() && Complete()
      modifies controller, view.observed
      ensures Valid()
      ensures ok ==> !HasCommand(name)
      ensures name !in old(controller.commandMap) ==>
        ok && controller.commandMap == old(controller.commandMap)
        && view.observed.observerMap == old(view.observed.observerMap)
      ensures name in old(controller.commandMap) ==>
        && ok == (name in old(view.observed.observerMap))
        && (ok ==> Some(view.observed.observerMap) == Unregister(old(view.observed.observerMap), name, controller)
                   && controller.commandMap == old(controller.commandMap) - {name})
        && (!ok ==> view.observed.observerMap == old(view.observed.observerMap)
                    && controller.commandMap == old(controller.commandMap))
    {
      ok := controller.RemoveCommand(name);
    }

    /** `hasCommand`, passed to the Controller. */
    predicate HasCommand(name: string)
      requires controller != null
      reads this, controller
    {
      controller.HasCommand(name)
    }

    /** `registerProxy`, passed to the Model. */
    method RegisterProxy(proxy: Proxy)
      requires Valid() && Complete()
      modifies model, proxy
      ensures Valid()
      ensures model.proxyMap == old(model.proxyMap)[proxy.name := proxy]
      ensures proxy.model == model && proxy.data == old(proxy.data)
      ensures RetrieveProxy(proxy.name) == proxy && HasProxy(proxy.name)
    {
      model.RegisterProxy(proxy);
    }

    /** `retrieveProxy`, passed to the Model. */
    function RetrieveProxy(proxyName: string): Proxy?
      requires model != null && model.NamesMatch()
      reads this, model
    {
      model.RetrieveProxy(proxyName)
    }

    /** `removeProxy`, passed to the Model. */
    method RemoveProxy(proxyName: string) returns (removed: Proxy?)
      requires Valid() && Complete()
      modifies model, if proxyName in model.proxyMap then {model.proxyMap[proxyName]} else {}
      ensures Valid()
      ensures proxyName !in old(model.proxyMap) ==> removed == null && model.proxyMap == old(model.proxyMap)
      ensures proxyName in old(model.proxyMap) ==>
        && removed == old(model.proxyMap[proxyName])
        && model.proxyMap == old(model.proxyMap) - {proxyName}
        && removed.model == null && removed.data == old(removed.data)
      ensures RetrieveProxy(proxyName) == null && !HasProxy(proxyName)
    {
      removed := model.RemoveProxy(proxyName);
    }

    /** `hasProxy`, passed to the Model. */
    predicate HasProxy(proxyName: string)
      requires model != null
      reads this, model
    {
      model.HasProxy(proxyName)
    }

    /** `registerMediator`, passed to the View. */
    method RegisterMediator(mediator: Mediator)
      requires Valid() && Complete()
      modifies view, view.observed, mediator
      ensures Valid()
      ensures mediator.name in old(view.mediatorMap) ==>
        && view.mediatorMap == old(view.mediatorMap)
        && view.observed.observerMap == old(view.observed.observerMap)
        && unchanged(mediator)
      ensures mediator.name !in old(view.mediatorMap) ==>
        && view.mediatorMap == old(view.mediatorMap)[mediator.name := mediator]
        && view.observed.observerMap == RegisterEach(old(view.observed.observerMap), mediator.interests, mediator.InterestObserver())
        && mediator.model == model && mediator.view == view
        && mediator.viewComponent == old(mediator.viewComponent)
      ensures RetrieveMediator(mediator.name) == old(if mediator.name in view.mediatorMap then view.mediatorMap[mediator.name] else mediator)
      ensures HasMediator(mediator.name)
    {
      view.RegisterMediator(mediator);
    }

    /** `retrieveMediator`, passed to the View. */
    function RetrieveMediator(mediatorName: string): Mediator?
      requires view != null && view.NamesMatch()
      reads this, view
    {
      view.RetrieveMediator(mediatorName)
    }

    /** `removeMediator`, passed to the View. */
    method RemoveMediator(mediatorName: string) returns (removed: Mediator?, ok: bool)
      requires Valid() && Complete()
      modifies view, view.observed, if mediatorName in view.mediatorMap then {view.mediatorMap[mediatorName]} else {}
      ensures Valid()
      ensures mediatorName !in old(view.mediatorMap) ==>
        && removed == null && ok
        && view.mediatorMap == old(view.mediatorMap)
        && view.observed.observerMap == old(view.observed.observerMap)
      ensures mediatorName in old(view.mediatorMap) ==>
        var mediator := old(view.mediatorMap[mediatorName]);
        var undone := UnregisterEach(old(view.observed.observerMap), mediator.interests, mediator);
        && view.observed.observerMap == undone.observers
        && ok == undone.ok
        && mediator.viewComponent == old(mediator.viewComponent)
        && (ok ==> removed == mediator && view.mediatorMap == old(view.mediatorMap) - {mediatorName}
                   && mediator.model == null && mediator.view == null)
        && (!ok ==> removed == null && view.mediatorMap == old(view.mediatorMap)
                    && mediator.model == old(mediator.model) && mediator.view == old(mediator.view))
      ensures ok ==> !HasMediator(mediatorName)
    {
      removed, ok := view.RemoveMediator(mediatorName);
    }

    /** `hasMediator`, passed to the View. */
    predicate HasMediator(mediatorName: string)
      requires view != null
      reads this, view
    {
      view.HasMediator(mediatorName)
    }

    /**
     * `sendNotification(name, body, type)`: a Notification carrying exactly
     * these three values is broadcast through the View's registry.
     */
    method SendNotification(name: string, body: Option<Payload>, noteType: Option<string>, react: Reaction)
      returns (invoked: seq<Observer>, ok: bool)
      requires Valid() && Complete()
      modifies view.observed
      ensures Valid()
      ensures Delivery(invoked, view.observed.observerMap, ok)
           == Deliver(old(view.observed.observerMap), ObserversOf(old(view.observed.observerMap), name),
                      Notification(name, body, noteType), react)
      ensures ok ==> invoked == ObserversOf(old(view.observed.observerMap), name)
    {
      var note := Notification(name, body, noteType);
      invoked, ok := view.NotifyObservers(note, react);
    }
  }

  /**
   * The wiring does not depend on the order of initialization: an
   * uninitialized facade whose three actors are created in any order ends up
   * with all three, empty, and wired to one another exactly as
   * `initializeFacade` wires them.
   */
  method InitializeInOrder(first: Actor, second: Actor, third: Actor) returns (f: Facade)
    requires first != second && second != third && first != third
    ensures f.Valid() && f.Complete()
    ensures f.controller.view == f.view && f.controller.model == f.model && f.view.model == f.model
    ensures f.model.proxyMap == map[] && f.model.observed.observerMap == map[]
    ensures f.view.mediatorMap == map[] && f.view.observed.observerMap == map[]
    ensures f.controller.commandMap == map[]
  {
    f := new Facade.Uninitialized();
    f.Initialize(first);
    f.Initialize(second);
    f.Initialize(third);
  }
}
