/**
 * The new-task form: the trim/empty guard, the payload it hands to
 * `onAddTodo`, and the state each outcome leaves behind.
 */
module TodoEntry {
  import opened Wrappers
  import opened Api
  import JsString

  const EnterATask: string := "Please enter a task"
  const AddFailed: string := "Failed to add task. Please try again."

  /** The payload a submit hands to `onAddTodo`, or None when the input is blank. */
  function Payload(input: string): (p: Option<NewTodo>)
    ensures p.None? <==> JsString.AllWhiteSpace(input)
    ensures p.Some? ==> p.value.text == JsString.Trim(input) && p.value.text != "" && !p.value.completed
  {
    JsString.TrimEmpty(input);
    var text := JsString.Trim(input);
    if text == "" then None else Some(NewTodo(text, false))
  }

  /** The form's state fields. */
  datatype Fields = Fields(newTodo: string, error: string, openSnackbar: bool)

  /** The TodoForm component. */
  class TodoForm {
    var newTodo: string
    var error: string
    var openSnackbar: bool

    function State(): Fields
      reads this
    {
      Fields(newTodo, error, openSnackbar)
    }

    constructor ()
      ensures State() == Fields("", "", false)
    {
      newTodo, error, openSnackbar := "", "", false;
    }

    /**
     * `handleSubmit`.  `added` is how the promise returned by `onAddTodo` settles;
     * `submitted` is the payload `onAddTodo` is called with, if it is called.
     */
    method HandleSubmit(added: Outcome<Todo>) returns (submitted: Option<NewTodo>)
      modifies this
      ensures submitted == Payload(old(newTodo))
      ensures submitted.None? ==> State() == old(State()).(error := EnterATask)
      ensures submitted.Some? && added.Resolved? ==> State() == Fields("", "", true)
      ensures submitted.Some? && added.Rejected? ==> State() == old(State()).(error := AddFailed)
    {
      submitted := Payload(newTodo);
      match submitted
      case None =>
        error := EnterATask;
      case Some(_) =>
        if added.Resolved? {
          newTodo, error, openSnackbar := "", "", true;
        } else {
          error := AddFailed;
        }
    }
  }
}
