/**
 * components/InputForm.tsx: four pieces of form state, one setter per input,
 * and the submit handler that emits a `UserInput` only when both the birth
 * date and the name are filled in.
 */
module InputForm {
  import opened Wrappers
  import opened Types

  class FormState {
    var name: string
    var date: string
    var time: string
    var gender: Gender

    /** The form opens empty, with `female` selected. */
    constructor ()
      ensures name == "" && date == "" && time == "" && gender == Female
    {
      name, date, time, gender := "", "", "", Female;
    }

    /** The name input's change handler. */
    method SetName(value: string)
      modifies this
      ensures name == value
      ensures date == old(date) && time == old(time) && gender == old(gender)
    {
      name := value;
    }

    /** The date input's change handler. */
    method SetDate(value: string)
      modifies this
      ensures date == value
      ensures name == old(name) && time == old(time) && gender == old(gender)
    {
      date := value;
    }

    /** The time input's change handler; the field may stay empty. */
    method SetTime(value: string)
      modifies this
      ensures time == value
      ensures name == old(name) && date == old(date) && gender == old(gender)
    {
      time := value;
    }

    /** The three radio buttons, each selecting its own literal. */
    method SetGender(value: Gender)
      modifies this
      ensures gender == value
      ensures name == old(name) && date == old(date) && time == old(time)
    {
      gender := value;
    }

    /**
     * `handleSubmit`: returns the value passed to `onSubmit`, or `None` when
     * the guard returns early. The birth time plays no part in the guard.
     */
    method HandleSubmit() returns (emitted: Option<UserInput>)
      ensures emitted.Some? <==> date != "" && name != ""
      ensures emitted.Some? ==> emitted.value == UserInput(date, time, gender, name)
    {
      if date == "" || name == "" {
        return None;
      }
      emitted := Some(UserInput(date, time, gender, name));
    }
  }

  /** Submitting the untouched form emits nothing. */
  method SubmitUntouchedForm() returns (emitted: Option<UserInput>)
    ensures emitted == None
  {
    var form := new FormState();
    emitted := form.HandleSubmit();
  }

  /**
   * Filling in only the name and the date is enough: the emitted input has
   * an empty birth time and the default gender.
   */
  method SubmitWithoutBirthTime(name: string, date: string) returns (emitted: Option<UserInput>)
    ensures name != "" && date != "" ==> emitted == Some(UserInput(date, "", Female, name))
    ensures name == "" || date == "" ==> emitted == None
  {
    var form := new FormState();
    form.SetName(name);
    form.SetDate(date);
    emitted := form.HandleSubmit();
  }
}
