/**
 * Client code against a fresh Facade: the registration and broadcast
 * scenarios the framework's behaviour is usually illustrated with, each
 * stated as what the client observes at the end.
 */
module Scenarios {
  import opened Wrappers
  import opened Notifications
  import opened Observers
  import opened Models
  import opened Views
  import opened Commands
  import opened Controllers
  import opened Facades

  /**
   * A mediator registered twice under one name: the second registration is
   * ignored, the first mediator stays retrievable, and only the first one's
   * interests are subscribed.
   */
  method DuplicateMediator() returns (f: Facade, first: Mediator, second: Mediator)
    ensures f.Valid() && f.Complete()
    ensures first != second && first.name == second.name == "M"
    ensures f.HasMediator("M") && f.RetrieveMediator("M") == first
    ensures first.view == f.view && second.view == null
    ensures f.view.observed.observerMap == map["A" := [first.InterestObserver()]]
  {
    f := new Facade();
    first := new Mediator(Some("M"), None, ["A"]);
    second := new Mediator(Some("M"), None, ["A", "B"]);
    f.RegisterMediator(first);
    f.RegisterMediator(second);
    assert RegisterEach(map[], ["A"], first.InterestObserver()) == map["A" := [first.InterestObserver()]] by {
      assert ["A"][..0] == [];
      assert [] + [first.InterestObserver()] == [first.InterestObserver()];
    }
  }

  /**
   * `registerCommand("X", a)` then `registerCommand("X", b)`, then a
   * broadcast of "X": the Controller is notified once, and the command its
   * `executeCommand` then runs is one instance of `b`.
   */
  method CommandRegisteredTwice(a: CommandClass, b: CommandClass) returns (f: Facade, invoked: seq<Observer>, command: Command?, trace: Trace)
    ensures f.Valid() && f.Complete()
    ensures invoked == [f.controller.CommandObserver()]
    ensures command != null && command.commandClass == b
    ensures command.executed == [Notification("X", None, None)]
    ensures trace.runs == [(b, Notification("X", None, None))]
  {
    f := new Facade();
    f.RegisterCommand("X", a);
    f.RegisterCommand("X", b);
    var ok;
    invoked, ok := f.SendNotification("X", None, None, NoCalls());
    trace := new Trace();
    command := f.controller.ExecuteCommand(Notification("X", None, None), trace);
  }

  /**
   * A proxy registered under "P" with data 1: it is retrieved with that data,
   * `removeProxy` hands back the same instance, and afterwards nothing is
   * found under "P".
   */
  method ProxyRoundTrip() returns (proxy: Proxy, data: Option<Payload>, removed: Proxy?, after: Proxy?)
    ensures data == Some(1)
    ensures removed == proxy && proxy.model == null
    ensures after == null
  {
    var f := new Facade();
    proxy := new Proxy(Some("P"), Some(1));
    f.RegisterProxy(proxy);
    data := f.RetrieveProxy("P").data;
    removed := f.RemoveProxy("P");
    after := f.RetrieveProxy("P");
  }

  /** The registry of a fresh View after a mediator interested in "A" and "B" is registered. */
  lemma RegisterTwoInterests(o: Observer)
    ensures RegisterEach(map[], ["A", "B"], o) == map["A" := [o], "B" := [o]]
  {
    var names := ["A", "B"];
    assert names[..1] == ["A"];
    assert ["A"][..0] == [];
    var one: seq<string> := ["A"];
    assert one[..|one| - 1] == [] && one[|one| - 1] == "A";
    var m1 := RegisterEach(map[], one, o);
    assert m1 == Register(RegisterEach(map[], [], o), "A", o);
    assert [] + [o] == [o];
    assert m1 == map["A" := [o]];
    assert RegisterEach(map[], names, o) == Register(m1, "B", o);
  }

  /** A mediator interested in "A" and "B", registered with a fresh facade: it is stored under its name and subscribed under both. */
  method MediatorRegistered() returns (f: Facade, mediator: Mediator)
    ensures f.Valid() && f.Complete()
    ensures fresh(f.view) && fresh(f.view.observed) && fresh(mediator)
    ensures mediator.name == "M" && mediator.interests == ["A", "B"] && mediator.viewComponent == None
    ensures f.view.mediatorMap == map["M" := mediator]
    ensures f.view.observed.observerMap == map["A" := [mediator.InterestObserver()], "B" := [mediator.InterestObserver()]]
    ensures mediator.view == f.view && mediator.model == f.model
  {
    f := new Facade();
    mediator := new Mediator(Some("M"), None, ["A", "B"]);
    RegisterTwoInterests(mediator.InterestObserver());
    f.RegisterMediator(mediator);
  }

  /**
   * A callback that checks the note it is handed: with body `Some(b)` it makes
   * no registry call; with any other body it removes its observer under
   * "absent", a name the scenarios never register, and so fails.
   */
  function ExpectBody(b: Payload): Reaction {
    (o: Observer, n: Notification, m: ObserverMap) =>
      if n.body == Some(b) then [] else [Unsubscribe("absent", o.context)]
  }

  /** Broadcasting a note with the expected body to one observer succeeds and leaves the registry as it was. */
  lemma ExpectBodyAccepts(m: ObserverMap, o: Observer, note: Notification, b: Payload)
    requires note.body == Some(b)
    ensures Deliver(m, [o], note, ExpectBody(b)) == Delivery([o], m, true)
  {
  }

  /** Broadcasting a note with any other body to one observer fails: the callback sees the body actually sent. */
  lemma ExpectBodyRejects(m: ObserverMap, o: Observer, note: Notification, b: Payload)
    requires note.body != Some(b) && "absent" !in m
    ensures !Deliver(m, [o], note, ExpectBody(b)).ok
  {
    var edits := ExpectBody(b)(o, note, m);
    assert edits == [Unsubscribe("absent", o.context)];
    assert [o][..0] == [];
    assert Deliver(m, [], note, ExpectBody(b)) == Delivery([], m, true);
    assert ApplyEdits(m, edits[..0]) == Applied(m, true);
    assert edits[..1] == edits;
    assert ApplyEdits(m, edits) == Applied(m, false);
  }

  /**
   * A broadcast of "A" with body 42 to that mediator, whose callback checks
   * the body: it succeeds, reaches the mediator once with that note, and
   * leaves the registry as it was.
   */
  method MediatorNotified() returns (f: Facade, mediator: Mediator, invoked: seq<Observer>, delivered: bool)
    ensures f.Valid() && f.Complete()
    ensures f.view.observed.observerMap == map["A" := [mediator.InterestObserver()], "B" := [mediator.InterestObserver()]]
    ensures invoked == [mediator.InterestObserver()] && delivered
    ensures Delivery(invoked, f.view.observed.observerMap, delivered)
         == Deliver(map["A" := [mediator.InterestObserver()], "B" := [mediator.InterestObserver()]],
                    [mediator.InterestObserver()], Notification("A", Some(42), None), ExpectBody(42))
  {
    f, mediator := MediatorRegistered();
    invoked, delivered := f.SendNotification("A", Some(42), None, ExpectBody(42));
    ExpectBodyAccepts(f.view.observed.observerMap, mediator.InterestObserver(), Notification("A", Some(42), None), 42);
  }

  /**
   * The registered mediator removed again: the removal succeeds, it is no
   * longer found, its back-references are cleared, its view component is kept
   * and the registry is empty.
   */
  method MediatorRemoved() returns (f: Facade, mediator: Mediator, removed: Mediator?, ok: bool)
    ensures f.Valid() && f.Complete()
    ensures fresh(f.view.observed)
    ensures ok && removed == mediator && !f.HasMediator("M")
    ensures f.view.observed.observerMap == map[]
    ensures mediator.view == null && mediator.model == null && mediator.viewComponent == None
  {
    f, mediator := MediatorRegistered();
    ghost var o := mediator.InterestObserver();
    ghost var interests := ["A", "B"];
    UnregisterEachRegisterEach(map[], interests, o);
    RegisterTwoInterests(o);
    assert f.view.observed.observerMap == RegisterEach(map[], interests, o);
    removed, ok := f.RemoveMediator("M");
  }

  /** After the mediator is removed, a broadcast of "A" reaches nobody. */
  method MediatorLifecycle() returns (mediator: Mediator, after: seq<Observer>)
    ensures after == []
    ensures mediator.view == null && mediator.model == null
  {
    var f, removed, ok;
    f, mediator, removed, ok := MediatorRemoved();
    var delivered;
    after, delivered := f.SendNotification("A", None, None, NoCalls());
  }

  /**
   * A macro command with sub-commands 1, 2 and 3, holding the Controller's
   * model and view: executing it runs one instance of each, in that order,
   * each with the same note and the Controller's model and view.
   */
  method MacroInOrder(note: Notification) returns (f: Facade, run: seq<Command>, trace: Trace)
    ensures f.Valid() && f.Complete()
    ensures trace.runs == [(1, note), (2, note), (3, note)]
    ensures |run| == 3
    ensures run[0].commandClass == 1 && run[1].commandClass == 2 && run[2].commandClass == 3
    ensures forall i :: 0 <= i < 3 ==>
      run[i].executed == [note] && run[i].model == f.controller.model && run[i].view == f.controller.view
  {
    f := new Facade();
    var macro := new MacroCommand();
    macro.model := f.controller.model;
    macro.view := f.controller.view;
    macro.AddSubCommand(1);
    macro.AddSubCommand(2);
    macro.AddSubCommand(3);
    trace := new Trace();
    run := macro.Execute(note, trace);
    assert macro.subCommands == [1, 2, 3];
  }
}
