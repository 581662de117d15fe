/**
 * The command map and dispatcher (class puremvc.Controller).
 */
module Controllers {
  import opened Wrappers
  import opened Notifications
  import opened Observers
  import opened ObservedRegistry
  import opened Models
  import opened Views
  import opened Commands

  class Controller {
    /** `getView()` / `setView()` and `getModel()` / `setModel()`. */
    var view: View?
    var model: Model?
    /** Notification name to the command class that handles it. */
    var commandMap: map<string, CommandClass>

    /** `initialize`: no commands, and no View or Model until they are set. */
    constructor()
      ensures view == null && model == null && commandMap == map[]
    {
      view, model, commandMap := null, null, map[];
    }

    /** The Observer the Controller subscribes to the View for each mapped name. */
    function CommandObserver(): Observer {
      Observer(Callback.ExecuteCommand, this)
    }

    /**
     * `executeCommand`: nothing for a name without a command. Otherwise one
     * fresh instance of the class now mapped for the name, given the
     * Controller's model and view and executed with the note.
     */
    method ExecuteCommand(note: Notification, trace: Trace) returns (command: Command?)
      modifies trace
      ensures !HasCommand(note.name) ==> command == null && trace.runs == old(trace.runs)
      ensures HasCommand(note.name) ==> trace.runs == old(trace.runs) + [(commandMap[note.name], note)]
      ensures HasCommand(note.name) ==>
        && command != null && fresh(command)
        && command.commandClass == commandMap[note.name]
        && command.model == model && command.view == view
        && command.executed == [note]
    {
      var commandClass := CommandFor(note.name);
      if commandClass.Some? {
        command := RunCommand(commandClass.value, model, view, note, trace);
      } else {
        command := null;
      }
    }

    /** The lookup `commandMap[name]` that `executeCommand` and `hasCommand` both make; `None` for an unmapped name. */
    function CommandFor(notificationName: string): Option<CommandClass>
      reads this
    {
      if notificationName in commandMap then Some(commandMap[notificationName]) else None
    }

    /**
     * `registerCommand`: the mapping for the name is always replaced; the
     * Controller subscribes itself to the View for the name only when the name
     * had no command yet and a View is set, so a name never gets a second
     * subscription from here.
     */
    method RegisterCommand(notificationName: string, commandClass: CommandClass)
      requires view != null ==> view.Valid()
      modifies this, if view != null then {view.observed} else {}
      ensures view == old(view) && model == old(model)
      ensures commandMap == old(commandMap)[notificationName := commandClass]
      ensures HasCommand(notificationName)
      ensures view != null ==> view.Valid()
      ensures view != null && notificationName !in old(commandMap) ==>
        view.observed.observerMap == Register(old(view.observed.observerMap), notificationName, CommandObserver())
      ensures view != null && notificationName in old(commandMap) ==>
        view.observed.observerMap == old(view.observed.observerMap)
    {
      if notificationName !in commandMap {
        if view != null {
          view.RegisterObserver(notificationName, CommandObserver());
        }
      }
      commandMap := commandMap[notificationName := commandClass];
    }

    /**
     * `hasCommand`: the lookup `executeCommand` makes finds a command class,
     * the very one a broadcast of the name would instantiate.
     */
    predicate HasCommand(notificationName: string): (r: bool)
      reads this
      ensures r <==> notificationName in commandMap
    {
      CommandFor(notificationName).Some?
    }

    /**
     * `removeCommand`: nothing for an unmapped name. Otherwise the Controller's
     * subscription for the name is removed from the View, when one is set, and
     * the mapping deleted. If the command was mapped while no View was set,
     * the View can have no list for the name and the source fails in
     * `removeObserver`: `ok` is false and the mapping stays.
     */
    method RemoveCommand(notificationName: string) returns (ok: bool)
      requires view != null ==> view.Valid()
      modifies this, if view != null then {view.observed} else {}
      ensures view == old(view) && model == old(model)
      ensures view != null ==> view.Valid()
      ensures ok ==> !HasCommand(notificationName)
      ensures notificationName !in old(commandMap) ==>
        && ok && commandMap == old(commandMap)
        && (view != null ==> view.observed.observerMap == old(view.observed.observerMap))
      ensures notificationName in old(commandMap) && view == null ==>
        ok && commandMap == old(commandMap) - {notificationName}
      ensures notificationName in old(commandMap) && view != null ==>
        && ok == (notificationName in old(view.observed.observerMap))
        && (ok ==> Some(view.observed.observerMap) == Unregister(old(view.observed.observerMap), notificationName, this)
                   && commandMap == old(commandMap) - {notificationName})
        && (!ok ==> view.observed.observerMap == old(view.observed.observerMap) && commandMap == old(commandMap))
    {
      ok := true;
      if HasCommand(notificationName) {
        if view != null {
          ok := view.RemoveObserver(notificationName, this);
          if !ok {
            return;
          }
        }
        commandMap := commandMap - {notificationName};
      }
    }
  }
}
