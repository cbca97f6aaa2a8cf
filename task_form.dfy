/**
  The task form's state machine (client/src/components/TaskForm.jsx). One
  mutable record, `task`, starts at the default, is overwritten whenever the
  selected task changes, is edited one field at a time by the inputs, and on
  submit is sent either as an update (when it carries an `_id`) or as a
  create, after which the parent's `onSave` runs and the record is reset.
  The calls the form makes to the outside (`updateTask`, `createTask`,
  `onSave`) are recorded in order in `effects`.
 */
module TaskForm {
  import opened Wrappers
  import opened Tasks

  /** The options of the priority select. */
  datatype Priority = Low | Medium | High

  /** A call the form makes to the outside world. */
  datatype Effect = CreateTask(body: Task) | UpdateTask(id: string, body: Task) | OnSave

  /** One user action on the form: typing in a field, picking a priority, or submitting. */
  datatype Input = TypeTitle(text: string) | TypeDescription(text: string) | PickPriority(choice: Priority) | Submit(outcome: Settled<()>)

  /** A priority label one of the select's options can produce. */
  predicate IsOfferedPriority(s: string) {
    s == "Low" || s == "Medium" || s == "High"
  }

  /** The `value` attribute of each select option. */
  function OptionValue(p: Priority): (value: string)
    ensures IsOfferedPriority(value)
    ensures p == Medium <==> value == "Medium"
  {
    match p
    case Low => "Low"
    case Medium => "Medium"
    case High => "High"
  }

  /** The record the form starts from and resets to: empty texts, priority "Medium", no `_id`. */
  function DefaultTask(): Task {
    Task(None, "", "", "Medium")
  }

  /** `task._id` is truthy. */
  predicate HasId(task: Task) {
    Truthy(task.id)
  }

  /** The request `handleSubmit` issues for the record it holds. */
  function Dispatch(task: Task): (e: Effect)
    ensures e.UpdateTask? <==> HasId(task)
    ensures e.CreateTask? <==> !HasId(task)
    ensures e.UpdateTask? ==> task.id == Some(e.id) && e.body == task
    ensures e.CreateTask? ==> e.body == task
  {
    if HasId(task) then UpdateTask(task.id.value, task) else CreateTask(task)
  }

  class Form {
    var task: Task
    var effects: seq<Effect>

    predicate PriorityOffered()
      reads this
    {
      IsOfferedPriority(task.priority)
    }

    /** `useState` with the default record; nothing has been sent yet. */
    constructor ()
      ensures task == DefaultTask() && !HasId(task) && PriorityOffered()
      ensures effects == []
    {
      task := DefaultTask();
      effects := [];
    }

    /** The effect on `selectedTask`: a selected task is copied in whole; no selection resets to the default. */
    method SelectedTaskChanged(selectedTask: Option<Task>)
      modifies this
      ensures task == (if selectedTask.Some? then selectedTask.value else DefaultTask())
      ensures PriorityOffered() <==> (selectedTask.Some? ==> IsOfferedPriority(selectedTask.value.priority))
      ensures effects == old(effects)
    {
      if selectedTask.Some? {
        task := selectedTask.value;
      } else {
        task := DefaultTask();
      }
    }

    /**
      `handleSubmit`: exactly one of `updateTask(task._id, task)` and
      `createTask(task)` is issued; `outcome` is how that awaited request
      settles. When it resolves, `onSave` runs and the record is reset; when it
      rejects, the handler stops there.
     */
    method HandleSubmit(outcome: Settled<()>)
      modifies this
      ensures effects == old(effects) + [Dispatch(old(task))] + (if outcome.Resolved? then [OnSave] else [])
      ensures task == (if outcome.Resolved? then DefaultTask() else old(task))
      ensures outcome.Resolved? ==> !HasId(task) && PriorityOffered()
    {
      if HasId(task) {
        effects := effects + [UpdateTask(task.id.value, task)];
      } else {
        effects := effects + [CreateTask(task)];
      }
      if outcome.Resolved? {
        effects := effects + [OnSave];
        task := DefaultTask();
      }
    }

    /** The title input's `onChange`: only the title changes. */
    method EditTitle(value: string)
      modifies this
      ensures task == Task(old(task).id, value, old(task).description, old(task).priority)
      ensures old(PriorityOffered()) ==> PriorityOffered()
      ensures effects == old(effects)
    {
      task := task.(title := value);
    }

    /** The description textarea's `onChange`: only the description changes. */
    method EditDescription(value: string)
      modifies this
      ensures task == Task(old(task).id, old(task).title, value, old(task).priority)
      ensures old(PriorityOffered()) ==> PriorityOffered()
      ensures effects == old(effects)
    {
      task := task.(description := value);
    }

    /** The priority select's `onChange`: only the priority changes, to one of the offered labels. */
    method EditPriority(choice: Priority)
      modifies this
      ensures task == Task(old(task).id, old(task).title, old(task).description, OptionValue(choice))
      ensures PriorityOffered()
      ensures effects == old(effects)
    {
      task := task.(priority := OptionValue(choice));
    }
  }

  /**
    Editing a selected task and submitting twice: the first submit updates,
    the reset record carries no `_id`, so the second submit creates.
   */
  method EditThenSubmitTwice(selected: Task, newTitle: string) returns (effects: seq<Effect>)
    requires HasId(selected)
    ensures |effects| == 4
    ensures effects[0] == UpdateTask(selected.id.value, selected.(title := newTitle))
    ensures effects[1] == OnSave && effects[3] == OnSave
    ensures effects[2] == CreateTask(DefaultTask())
  {
    var form := new Form();
    form.SelectedTaskChanged(Some(selected));
    form.EditTitle(newTitle);
    form.HandleSubmit(Resolved(()));
    form.HandleSubmit(Resolved(()));
    effects := form.effects;
  }

  /**
    Whatever the user types, picks or submits, a form whose priority is one of
    the select's labels keeps it so; in particular a form that starts from the
    default and never receives a selected task never holds any other priority.
   */
  method Session(form: Form, inputs: seq<Input>)
    requires form.PriorityOffered()
    modifies form
    ensures form.PriorityOffered()
    decreases |inputs|
  {
    if inputs != [] {
      match inputs[0] {
        case TypeTitle(text) => form.EditTitle(text);
        case TypeDescription(text) => form.EditDescription(text);
        case PickPriority(choice) => form.EditPriority(choice);
        case Submit(outcome) => form.HandleSubmit(outcome);
      }
      Session(form, inputs[1..]);
    }
  }
}
