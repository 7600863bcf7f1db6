/** Result and option types shared by the models.  `Err` stands for a Go error return;
    where the text of the error is all that differs, it is dropped. */
module Wrappers {

  datatype Option<+T> = None | Some(value: T)

  datatype Result<+T> = Err | Ok(value: T) {
    predicate IsFailure() {
      Err?
    }

    function PropagateFailure<U>(): Result<U>
      requires Err?
    {
      Err
    }

    function Extract(): T
      requires Ok?
    {
      value
    }
  }
}
