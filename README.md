# PureMVC (Objs port) — notification and registration core, in Dafny

PureMVC is a small Model-View-Controller framework built around
publish/subscribe. The JavaScript file `lib/puremvc-objs-2.0.js` holds its
framework classes. This project models the part with real invariants:

- **Observed**: the registry from notification name to an ordered list of
  observers. An observer is a (callback, context) pair.
- **View**: holds a registry plus the mediators. It subscribes each mediator
  to its notification interests.
- **Model**: holds a registry plus the proxies.
- **Controller**: holds the command map. It subscribes itself to the View
  once per mapped name, and runs a fresh Command instance for each matching
  notification.
- **MacroCommand**: runs its sub-commands in FIFO order.
- **Facade**: creates Model, View and Controller lazily, wires them together
  whatever the creation order, passes calls through to them, and offers
  `sendNotification`.

## How the model is built

- The source mutates objects in place, so the model is imperative.
  Observed, View, Model, Controller, Facade, Mediator, Proxy, Command and
  MacroCommand are Dafny classes. Their methods modify their fields.
- The observer registry is a `map<string, seq<Observer>>` field of class
  `Observed`.
- Each method is proved against a specification function over that map,
  in module `Observers`:
  - `Register` specifies registering.
  - `RemoveLast` and `Unregister` specify removing.
  - `RegisterEach` and `UnregisterEach` specify the loops of
    `registerMediator` and `removeMediator`.
  - `Deliver` specifies the broadcast loop of `notifyObservers`.
- The properties are then proved about those functions.
- JavaScript's `===` on the notify context becomes Dafny reference
  equality on `object`.
- Callback bodies are application code. From the registry's point of view
  a callback does two things: it is invoked, and it may call
  `registerObserver` or `removeObserver` while it runs. This is modelled by
  a parameter `react` that maps the observer, the notification and the
  current registry to a list of `Edit`s (`Subscribe`/`Unsubscribe`).
  `Observed.NotifyObservers` applies these edits through the registry's own
  methods as each observer is invoked. A nested `sendNotification` made by
  a callback reaches the registry only through such edits.
- Notification bodies, view components, proxy data and command classes are
  opaque values: `Payload` and `CommandClass` are `nat`.
- The order in which commands run is observable through a `Trace` object
  passed to `execute`: each execution appends its command's class and note.
  The source keeps no such log; the trace only makes the order of the
  `execute` calls something a contract can state.

### Where the code differs from what a reader might expect

A reader could expect removing an observer for an unknown name to be a
no-op, as removing an unknown context from a known name is. The code does
not do that: `removeObserver` reads `observers.length` of `undefined` and
throws (`lib/puremvc-objs-2.0.js:97-115`). The model
follows the code. `Unregister` returns `None`, and `RemoveObserver` returns
`ok == false` and leaves the registry unchanged.

The failure reaches two callers:

- **`removeMediator`**: an interest whose list is missing (for example,
  because a callback removed the mediator's observer earlier) stops the loop.
  The removals already made stay, and the mediator stays registered.
- **`removeCommand`**: a command mapped while the Controller had no View was
  never subscribed. If a View was set afterwards, removing that command
  fails the same way when the View has no list for that name, and the
  mapping stays. When the name does have a list (a mediator is interested
  in it, say), nothing is removed from it and the mapping is deleted.

A broadcast during which a callback meets this failure ends after that
observer, with `ok == false`.

## Model

| member | source | states |
|---|---|---|
| Observers.Register | lib/puremvc-objs-2.0.js:50-57 | the observer is appended to its name's list (a new name gets a one-entry list); other names keep their lists; the keys grow by the name only; no empty list appears |
| Observers.Observer.CompareNotifyContext | lib/puremvc-objs-2.0.js:252-255 | the identity test on the notify context decides whether removing by an object takes this observer out of a one-entry list; for longer lists the scan that applies it is `LastMatch`, and what it removes is stated by `RemoveLastAt` |
| Observers.RemoveLast | lib/puremvc-objs-2.0.js:97-110 | the reverse scan removes exactly one entry when some entry has the context and none otherwise; what remains is a sub-multiset |
| Observers.RemoveLastAt | lib/puremvc-objs-2.0.js:97-110 | the entry removed is the most recently registered one with the context; all others stay in their order |
| Observers.RemoveLastNoMatch | lib/puremvc-objs-2.0.js:97-110 | with no entry of that context the list is left as it was |
| Observers.Unregister | lib/puremvc-objs-2.0.js:97-115 | fails exactly when the name has no list; otherwise the name's list loses its last entry with the context, other names are untouched, and the key is deleted when the list becomes empty |
| Observers.UnregisterRegister | lib/puremvc-objs-2.0.js:50-115 | registering an observer and then removing by its context restores the registry exactly |
| Observers.RegisterEach | lib/puremvc-objs-2.0.js:581-589 | the registration loop over the interests keeps the no-empty-list invariant |
| Observers.RegisterEachObservers | lib/puremvc-objs-2.0.js:581-589 | after the loop each name's list is its old list followed by the shared observer once per occurrence of the name among the interests |
| Observers.UnregisterEach | lib/puremvc-objs-2.0.js:643-645 | the reverse removal loop leaves names that are not interests untouched and keeps the no-empty-list invariant |
| Observers.UnregisterEachRegisterEach | lib/puremvc-objs-2.0.js:569-594 | registering a mediator's shared observer under each interest, then removing it interest by interest from the last, succeeds and restores the registry exactly (also lines 636-652) |
| Observers.ApplyEdits | lib/puremvc-objs-2.0.js:50-115 | a callback's registry calls keep the invariant; calls that only register never fail |
| Observers.ApplyEditsStopped | lib/puremvc-objs-2.0.js:97-115 | once a registry call fails, the callback's later calls are not made |
| Observers.Deliver | lib/puremvc-objs-2.0.js:69-85 | a broadcast that completes invokes exactly the copied list, in order; the invariant is kept |
| Observers.DeliverFailedPrefix | lib/puremvc-objs-2.0.js:69-85 | a broadcast that fails has invoked a non-empty prefix of the copied list |
| Observers.DeliverStopped | lib/puremvc-objs-2.0.js:69-85 | after a failing callback no later observer of the copy is invoked |
| Observers.DeliverOnlySubscribes | lib/puremvc-objs-2.0.js:69-85 | when callbacks only register observers, every observer of the copy is invoked once, in registration order, and none registered meanwhile is |
| Observers.DeliverNoCalls | lib/puremvc-objs-2.0.js:69-85 | callbacks that make no registry calls: the whole copy is invoked and the registry is unchanged |
| Observers.ContextsRemoveLast | lib/puremvc-objs-2.0.js:97-110 | removing by a context that occurs takes exactly one occurrence of that context out |
| Observers.SelfRemovalStep | lib/puremvc-objs-2.0.js:97-115 | an observer removing itself while its context is listed succeeds and removes one occurrence of its context |
| Observers.DeliverSelfRemovalEach | lib/puremvc-objs-2.0.js:69-115 | observers that each remove themselves during the broadcast never fail, and each takes its own context out of the list |
| Observers.DeliverSelfRemoval | lib/puremvc-objs-2.0.js:69-115 | when every observer unsubscribes itself in its own callback, all observers of the copy are still invoked in order, nothing fails, the name's key is gone afterwards and other names are untouched |
| ObservedRegistry.Observed.constructor | lib/puremvc-objs-2.0.js:36-39 | the registry starts empty |
| ObservedRegistry.Observed.RegisterObserver | lib/puremvc-objs-2.0.js:50-57 | the new map is `Register` of the old one |
| ObservedRegistry.Observed.LastMatch | lib/puremvc-objs-2.0.js:99-110 | the scan from the end returns -1 exactly when no entry has the context, and otherwise the index of the most recent entry with it (also lines 252-255) |
| ObservedRegistry.Observed.RemoveObserver | lib/puremvc-objs-2.0.js:97-115 | succeeds exactly when the name has a list, and the new map is then `Unregister` of the old one; on failure nothing changes |
| ObservedRegistry.Observed.Perform | lib/puremvc-objs-2.0.js:50-115 | one registry call made by a callback, tied to `ApplyEdit` |
| ObservedRegistry.Observed.Invoke | lib/puremvc-objs-2.0.js:237-241 | invoking one observer applies its callback's registry calls in order, tied to `ApplyEdits` |
| ObservedRegistry.Observed.NotifyObservers | lib/puremvc-objs-2.0.js:69-85 | the observers invoked and the new map are `Deliver` over the name's list as the call began; a completed broadcast invoked exactly that list; an unknown name invokes nobody and changes nothing |
| Models.Proxy.constructor | lib/puremvc-objs-2.0.js:2101-2105 | a missing name becomes `Proxy.NAME` ("Proxy"); the data is kept; no model yet (also line 2197) |
| Models.Model.constructor | lib/puremvc-objs-2.0.js:713-717 | no proxies and a fresh empty registry of its own |
| Models.Model.RegisterObserver | lib/puremvc-objs-2.0.js:728-731 | delegates to the Model's registry |
| Models.Model.NotifyObservers | lib/puremvc-objs-2.0.js:743-746 | delegates to the Model's registry |
| Models.Model.RemoveObserver | lib/puremvc-objs-2.0.js:758-761 | delegates to the Model's registry, failing for a name without a list |
| Models.Model.RegisterProxy | lib/puremvc-objs-2.0.js:769-775 | the proxy always replaces whatever was under its name; its model becomes this Model; it is then what `RetrieveProxy` returns; the registry is untouched |
| Models.Model.RetrieveProxy | lib/puremvc-objs-2.0.js:787-805 | null exactly when no proxy is registered under the name; otherwise the proxy stored there, which carries that name |
| Models.Model.HasProxy | lib/puremvc-objs-2.0.js:802-805 | agrees with `RetrieveProxy` (true exactly when it finds a proxy), and holds exactly when some registered proxy carries the name; `RegisterProxy` makes it true and `RemoveProxy` false |
| Models.Model.RemoveProxy | lib/puremvc-objs-2.0.js:817-827 | unknown name: null and no change; otherwise the entry is deleted, the same proxy is returned with its model cleared, and the name then retrieves null |
| Views.Mediator.constructor | lib/puremvc-objs-2.0.js:1881-1885 | a missing name becomes `Mediator.NAME` ("Mediator"); view component and interests are kept; no model or view yet (also lines 1953-1956, 2027) |
| Views.View.constructor | lib/puremvc-objs-2.0.js:478-482 | no mediators, a fresh empty registry, no model |
| Views.View.RegisterObserver | lib/puremvc-objs-2.0.js:518-521 | delegates to the View's registry |
| Views.View.NotifyObservers | lib/puremvc-objs-2.0.js:533-536 | delegates to the View's registry |
| Views.View.RemoveObserver | lib/puremvc-objs-2.0.js:548-551 | delegates to the View's registry, failing for a name without a list |
| Views.View.RegisterMediator | lib/puremvc-objs-2.0.js:569-594 | first registration wins: a used name changes nothing (mediator untouched); otherwise the mediator is stored, its observer registered under each interest in order, its model and view back-references set and its view component kept; the name then retrieves the first-registered mediator and `HasMediator` holds |
| Views.View.RegisterInterests | lib/puremvc-objs-2.0.js:581-589 | the interest loop leaves the registry equal to `RegisterEach` of the old one |
| Views.View.RemoveInterests | lib/puremvc-objs-2.0.js:643-645 | the reverse interest loop leaves the registry and the outcome equal to `UnregisterEach` of the old one |
| Views.View.RetrieveMediator | lib/puremvc-objs-2.0.js:606-624 | null exactly when no mediator is registered under the name; otherwise the mediator stored there, which carries that name |
| Views.View.HasMediator | lib/puremvc-objs-2.0.js:621-624 | agrees with `RetrieveMediator` (true exactly when it finds a mediator), and holds exactly when some registered mediator carries the name; `RegisterMediator` makes it true and a successful `RemoveMediator` false |
| Views.View.RemoveMediator | lib/puremvc-objs-2.0.js:636-652 | unknown name: null and no change; otherwise the registry follows `UnregisterEach` over the interests and the view component is kept; on success the entry is deleted, the back-references cleared, the mediator returned and `HasMediator` is false; on failure the mediator stays registered with its back-references |
| Commands.Command.constructor | lib/puremvc-objs-2.0.js:978 | a new instance of the class, with no model, no view and not yet executed |
| Commands.Command.Execute | lib/puremvc-objs-2.0.js:981 | records the notification on the instance and appends (class, notification) to the shared execution trace (also line 1803) |
| Commands.RunCommand | lib/puremvc-objs-2.0.js:978-983 | a fresh instance of the class, given the model and view, then executed once with the notification; the trace gains exactly that one run (also lines 1800-1804) |
| Commands.RunsOf | lib/puremvc-objs-2.0.js:1797-1804 | the runs of a list of classes executed first to last: as many as classes, the k-th being the k-th class with the note |
| Commands.MacroCommand.constructor | lib/puremvc-objs-2.0.js:1678-1682 | no sub-commands (also line 1759) |
| Commands.MacroCommand.AddSubCommand | lib/puremvc-objs-2.0.js:1771-1774 | the class is appended to the FIFO list |
| Commands.MacroCommand.Execute | lib/puremvc-objs-2.0.js:1794-1805 | the trace gains exactly `RunsOf(subCommands, note)`: the sub-commands run first in, first out, each with the same note; one fresh, distinct instance per sub-command, each with this command's model and view |
| Controllers.Controller.constructor | lib/puremvc-objs-2.0.js:909-912 | an empty command map, no view or model |
| Controllers.Controller.ExecuteCommand | lib/puremvc-objs-2.0.js:972-983 | an unmapped name runs nothing and leaves the trace alone; otherwise exactly one fresh instance of the currently mapped class is given the Controller's model and view and executed with the note, and the trace gains that one run |
| Controllers.Controller.HasCommand | lib/puremvc-objs-2.0.js:1022-1025 | is the lookup `executeCommand` makes (`CommandFor`), so it holds exactly when a command is mapped for the name, and then the lookup yields the mapped class a broadcast would instantiate; `RegisterCommand` makes it true and a successful `RemoveCommand` false |
| Controllers.Controller.RegisterCommand | lib/puremvc-objs-2.0.js:1002-1010 | the mapping is always replaced; the Controller subscribes to the View only when the name had no command and a View is set, so repeated registration never subscribes twice |
| Controllers.Controller.RemoveCommand | lib/puremvc-objs-2.0.js:1035-1044 | unmapped name: no change; otherwise the Controller's subscription is removed (`Unregister` with itself as context) and the mapping deleted; fails, keeping the mapping, when the View has no list for the name |
| Facades.Facade.Uninitialized | lib/puremvc-objs-2.0.js:1096-1112 | the facade's fields before initialization: no actors |
| Facades.Facade.constructor | lib/puremvc-objs-2.0.js:1117-1120 | runs `initializeFacade`: three fresh, empty, cross-wired actors |
| Facades.Facade.InitializeFacade | lib/puremvc-objs-2.0.js:1129-1134 | afterwards all three actors exist and are wired; existing ones are kept with their proxy, mediator and command maps and their registries unchanged; missing ones are new and empty |
| Facades.Facade.InitializeModel | lib/puremvc-objs-2.0.js:1158-1172 | idempotent; a new Model is handed to an existing Controller and View; the wiring invariant holds |
| Facades.Facade.InitializeView | lib/puremvc-objs-2.0.js:1194-1208 | idempotent; a new View gets the existing Model and is handed to an existing Controller; the wiring invariant holds |
| Facades.Facade.InitializeController | lib/puremvc-objs-2.0.js:1225-1239 | idempotent; a new Controller gets the existing View and Model; the wiring invariant holds |
| Facades.Facade.Initialize | lib/puremvc-objs-2.0.js:1158-1239 | the initializer for one actor: creates only that actor, keeps the others and their contents |
| Facades.InitializeInOrder | lib/puremvc-objs-2.0.js:1158-1239 | whatever order the three initializers run in, the facade ends with three empty actors wired exactly as `initializeFacade` wires them |
| Facades.Facade.RegisterCommand | lib/puremvc-objs-2.0.js:1250-1253 | passes through to the Controller, keeping the wiring; `HasCommand` then holds |
| Facades.Facade.RemoveCommand | lib/puremvc-objs-2.0.js:1262-1265 | passes through to the Controller with its failure path, keeping the wiring; on success `HasCommand` is false |
| Facades.Facade.RegisterProxy | lib/puremvc-objs-2.0.js:1288-1291 | passes through to the Model; the name then retrieves the proxy |
| Facades.Facade.RemoveProxy | lib/puremvc-objs-2.0.js:1316-1319 | passes through to the Model; the name then retrieves nothing |
| Facades.Facade.RegisterMediator | lib/puremvc-objs-2.0.js:1341-1344 | passes through to the View with its whole contract: first registration wins, the interests are subscribed, the mediator gets the facade's Model and View and keeps its view component, and the name retrieves the first-registered mediator |
| Facades.Facade.RemoveMediator | lib/puremvc-objs-2.0.js:1369-1372 | passes through to the View with its whole contract: the registry follows `UnregisterEach`, the view component is kept; on success the back-references are cleared, on failure they and the registration stay |
| Facades.Facade.SendNotification | lib/puremvc-objs-2.0.js:1402-1406 | a notification carrying exactly the given name, body and type is broadcast through the View's registry (also lines 337-342) |
| Scenarios.DuplicateMediator | lib/puremvc-objs-2.0.js:569-624 | a second mediator under a used name is ignored: the first stays retrievable and only its interests are subscribed |
| Scenarios.CommandRegisteredTwice | lib/puremvc-objs-2.0.js:972-1010 | `registerCommand("X", a)` then `("X", b)`: a broadcast of "X" notifies the Controller once, and the only command then run is one instance of `b` |
| Scenarios.ProxyRoundTrip | lib/puremvc-objs-2.0.js:769-827 | a registered proxy is retrieved with its data, removal returns the same instance, and afterwards nothing is found |
| Scenarios.MediatorRegistered | lib/puremvc-objs-2.0.js:569-594 | a mediator interested in "A" and "B", registered with a fresh facade, is stored under its name and subscribed under both with one shared observer |
| Scenarios.ExpectBodyAccepts | lib/puremvc-objs-2.0.js:69-85 | a one-observer broadcast whose callback checks for the body it expects, and gets it, succeeds, invokes that observer and leaves the registry unchanged |
| Scenarios.ExpectBodyRejects | lib/puremvc-objs-2.0.js:69-85 | the same broadcast with any other body fails: the callback is handed the note actually sent |
| Scenarios.MediatorNotified | lib/puremvc-objs-2.0.js:1402-1406 | a broadcast of "A" with body 42 to the mediator, whose callback checks for body 42, succeeds, invokes its observer exactly once, and is `Deliver` of exactly that note over the registry, which it leaves unchanged |
| Scenarios.MediatorRemoved | lib/puremvc-objs-2.0.js:636-652 | removing that mediator succeeds and returns it; it is no longer found, its back-references are cleared, its view component is kept, and the registry is empty |
| Scenarios.MediatorLifecycle | lib/puremvc-objs-2.0.js:636-652 | after the removal a broadcast of "A" reaches nobody (also lines 1402-1406) |
| Scenarios.MacroInOrder | lib/puremvc-objs-2.0.js:1771-1805 | sub-commands 1, 2, 3 added in that order run in that order (the trace is exactly `[(1, note), (2, note), (3, note)]`), with the same note and the Controller's model and view |

## Left out

- Callback bodies (`handleNotification`, `execute`), the `onRegister` and `onRemove` hooks, and `initializeMacroCommand`: application code. The framework's versions are empty, except `SimpleCommand.execute`, which throws. What a callback does to the registry is modelled by the `react` parameter.
- Registry calls made by a callback through another registry (the Model's, a different View's) are not modelled. Neither are a callback's effects on mediator, proxy or command maps.
- Exceptions thrown by callbacks or commands: these are application failures. The only failure modelled is the one the framework itself raises, `removeObserver` on a name without a list. For the same reason, a MacroCommand's sub-command that throws and aborts the rest is not modelled.
- The Controller running a command on notification: `Observed.NotifyObservers` records that the Controller's observer was invoked, and `Controller.ExecuteCommand` models what that invocation does. The instance a broadcast creates is not returned through the broadcast, because a `react` function cannot allocate.
- `sendNotification` of `Notifier`, `SimpleCommand`, `MacroCommand`, `Mediator` and `Proxy`: routing glue. A proxy's notifications go through the Model's own registry, which no mediator or command subscribes to, so they reach only observers registered there.
- The abstract stubs `Notifier.sendNotification` and `SimpleCommand.execute`, which only throw: nothing to model.
- `Notification.setBody`, `setType`, `toString`, the Observer getters and setters, and the model and view getters and setters. `toString` is debug output; the others are field accesses.
- A Notification is a value here. In the source one Notification object goes to every observer of a broadcast (`lib/puremvc-objs-2.0.js:69-85`) and to every sub-command of a MacroCommand (line 1803), so a body or type set with `setBody`/`setType` in one callback is seen by the later ones. The model does not capture that sharing: every callback and sub-command receives the note as it was sent.
- A null notify context: `Observer.context` is a non-null `object`, while the source compares any value with `===` (`lib/puremvc-objs-2.0.js:252-255`), null included. Observers with a null context, and removal by a null context, are not modelled.
- JavaScript truthiness: a falsy mediator, proxy or command class, or a key such as `"__proto__"`, is treated by the model as an ordinary value.
- The `Objs` class system and the demo application: outside the framework's core.
- Arrays are modelled as sequence values. The source splices the observer array in place and `notifyObservers` iterates over a copy, so the model loses no sharing that matters. The mediator's interest list is a fixed constructor argument, where the source calls `listNotificationInterests()` (an overridable method) each time.
- A command class that is itself a MacroCommand: a command class is opaque, so `ExecuteCommand` does not descend into a macro's sub-commands. `MacroCommand.Execute` models that separately.
- The facade's pass-through methods (`registerCommand` … `removeMediator`, `sendNotification`) require a fully initialized facade (all three actors exist), where each source method dereferences only the one actor it delegates to. Calling one before that actor exists, which throws in the source, is not modelled.
- Callbacks are modelled by `react(observer, note, registry)`, a function of those three values alone. A callback whose registry calls depend on its own mutable state (an observer listed twice in the copy that behaves differently the second time, say) cannot be expressed. No property proved here depends on this.
- The facade's pass-through queries (`hasCommand`, `retrieveProxy`, `hasProxy`, `retrieveMediator`, `hasMediator`) are plain delegations with no contract of their own. Their contracts are those of the Controller, Model and View members they call.
