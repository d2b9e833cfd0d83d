/** The input box: it owns the text being typed, replaces it on every change,
    hands it to the parent on submit and then clears it. The send control is
    the only guard against empty or ill-timed submissions. */
module UserInput {

  /** The send control is disabled while the parent says so or while the
      input is empty. */
  predicate SubmitDisabled(isDisabled: bool, input: string) {
    isDisabled || input == ""
  }

  class UserMessage {
    /** The `isDisabled` prop, as last rendered by the parent. */
    var isDisabled: bool
    /** The `currentInputMessage` state. */
    var currentInputMessage: string

    constructor(isDisabled: bool)
      ensures this.isDisabled == isDisabled && currentInputMessage == ""
    {
      this.isDisabled := isDisabled;
      currentInputMessage := "";
    }

    /** Rendered without an `isDisabled` prop: it defaults to false. */
    constructor WithDefaults()
      ensures !isDisabled && currentInputMessage == ""
    {
      isDisabled := false;
      currentInputMessage := "";
    }

    predicate CanSubmit()
      reads this
    {
      !SubmitDisabled(isDisabled, currentInputMessage)
    }

    /** A re-render with a new prop keeps the typed text. */
    method Rerender(isDisabled: bool)
      modifies this
      ensures this.isDisabled == isDisabled
      ensures currentInputMessage == old(currentInputMessage)
    {
      this.isDisabled := isDisabled;
    }

    /** `onChange`: the field's value replaces the state wholesale. */
    method OnChange(value: string)
      modifies this
      ensures currentInputMessage == value && isDisabled == old(isDisabled)
    {
      currentInputMessage := value;
    }

    /** `handleSubmit`: passes the text verbatim (no emptiness check of its
        own) and resets the input. `content` is what `onSubmit` receives. */
    method HandleSubmit() returns (content: string)
      modifies this
      ensures content == old(currentInputMessage)
      ensures currentInputMessage == "" && isDisabled == old(isDisabled)
      ensures !CanSubmit()
    {
      content := currentInputMessage;
      currentInputMessage := "";
    }
  }
}
