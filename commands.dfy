/**
 * Command instances (classes puremvc.SimpleCommand and puremvc.MacroCommand).
 */
module Commands {
  import opened Notifications
  import opened Models
  import opened Views

  /**
   * A command class reference, the factory `new commandClassRef()` is called
   * on. Only its identity matters to the framework.
   */
  type CommandClass = nat

  /** One entry of an execution trace: the class of the command that ran, and the note it ran with. */
  type Run = (CommandClass, Notification)

  /**
   * The order in which commands run, across all instances: every `execute`
   * appends its command's class and note. Only the model needs it; the source
   * keeps no such log, and its order is the order of the `execute` calls.
   */
  class Trace {
    var runs: seq<Run>

    constructor()
      ensures runs == []
    {
      runs := [];
    }
  }

  /** The runs of `classes` executed one after another, first to last, each with `note`. */
  function RunsOf(classes: seq<CommandClass>, note: Notification): (r: seq<Run>)
    ensures |r| == |classes|
    ensures forall i :: 0 <= i < |classes| ==> r[i] == (classes[i], note)
  {
    if classes == [] then [] else RunsOf(classes[..|classes| - 1], note) + [(classes[|classes| - 1], note)]
  }

  /**
   * One command instance. What its application-defined `execute` does is not
   * modelled; `executed` records the notifications it was executed with.
   */
  class Command {
    /** The class this instance was constructed from. */
    const commandClass: CommandClass
    /** `getModel()` / `setModel()`, `getView()` / `setView()`. */
    var model: Model?
    var view: View?
    /** The notifications `execute` has been called with, in order. */
    var executed: seq<Notification>

    /** `new commandClassRef()`: no model, no view, not executed yet. */
    constructor(commandClass: CommandClass)
      ensures this.commandClass == commandClass
      ensures model == null && view == null && executed == []
    {
      this.commandClass := commandClass;
      model, view, executed := null, null, [];
    }

    /** `execute(note)`, recorded both on the instance and, in order, on the shared trace. */
    method Execute(note: Notification, trace: Trace)
      modifies this, trace
      ensures executed == old(executed) + [note]
      ensures trace.runs == old(trace.runs) + [(commandClass, note)]
      ensures model == old(model) && view == old(view)
    {
      executed := executed + [note];
      trace.runs := trace.runs + [(commandClass, note)];
    }
  }

  /**
   * Build a fresh instance of `commandClass`, give it `model` and `view`, and
   * execute it with `note`: the steps both the Controller and a MacroCommand
   * take for each command they run.
   */
  method RunCommand(commandClass: CommandClass, model: Model?, view: View?, note: Notification, trace: Trace)
    returns (command: Command)
    modifies trace
    ensures fresh(command)
    ensures trace.runs == old(trace.runs) + [(commandClass, note)]
    ensures command.commandClass == commandClass
    ensures command.model == model && command.view == view
    ensures command.executed == [note]
  {
    command := new Command(commandClass);
    command.model := model;
    command.view := view;
    command.Execute(note, trace);
  }

  class MacroCommand {
    /** The sub-command classes, in the order `addSubCommand` received them. */
    var subCommands: seq<CommandClass>
    var model: Model?
    var view: View?

    /**
     * `initialize`: no sub-commands. The `initializeMacroCommand` hook it then
     * calls is empty in the framework; an application adds its sub-commands
     * there by calling `AddSubCommand`.
     */
    constructor()
      ensures subCommands == [] && model == null && view == null
    {
      subCommands, model, view := [], null, null;
    }

    /** `addSubCommand`: append to the FIFO list of sub-commands. */
    method AddSubCommand(commandClass: CommandClass)
      modifies this
      ensures subCommands == old(subCommands) + [commandClass]
      ensures model == old(model) && view == old(view)
    {
      subCommands := subCommands + [commandClass];
    }

    /**
     * `execute(note)`: one fresh instance per sub-command, in FIFO order, each
     * given this command's model and view and executed with the same note.
     * The trace shows the order they ran in: first added, first run.
     */
    method Execute(note: Notification, trace: Trace) returns (run: seq<Command>)
      modifies trace
      ensures trace.runs == old(trace.runs) + RunsOf(subCommands, note)
      ensures |run| == |subCommands|
      ensures forall i :: 0 <= i < |run| ==>
        && fresh(run[i])
        && run[i].commandClass == subCommands[i]
        && run[i].model == model && run[i].view == view
        && run[i].executed == [note]
      ensures forall i, j :: 0 <= i < j < |run| ==> run[i] != run[j]
    {
      run := [];
      var len := |subCommands|;
      for i := 0 to len
        invariant |run| == i
        invariant trace.runs == old(trace.runs) + RunsOf(subCommands[..i], note)
        invariant forall k :: 0 <= k < i ==>
          && fresh(run[k])
          && run[k].commandClass == subCommands[k]
          && run[k].model == model && run[k].view == view
          && run[k].executed == [note]
        invariant forall k, l :: 0 <= k < l < i ==> run[k] != run[l]
      {
        assert subCommands[..i + 1][..i] == subCommands[..i];
        var command := RunCommand(subCommands[i], model, view, note, trace);
        run := run + [command];
      }
      assert subCommands[..len] == subCommands;
    }
  }
}
