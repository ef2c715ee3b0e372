/** The agent's question box: a guarded, trimmed submit and the Enter key shortcut. */
module InputBox {
  import opened Strings

  /** A submit goes through when the trimmed question is non-empty and no answer is pending. */
  predicate CanSubmit(question: string, loading: bool) {
    Trim(question) != "" && !loading
  }

  /** The guard in terms of the question itself: it must hold a character that is not
      whitespace. */
  lemma CanSubmitIff(question: string, loading: bool)
    ensures CanSubmit(question, loading) <==> !AllWhitespace(question) && !loading
  {
    TrimEmptyIff(question);
  }

  /** The send button's `disabled`. */
  function SendDisabled(question: string, loading: bool): (disabled: bool)
    ensures disabled <==> !CanSubmit(question, loading)
    ensures disabled <==> AllWhitespace(question) || loading
  {
    CanSubmitIff(question, loading);
    Trim(question) == "" || loading
  }

  /** Enter submits unless Shift is held. */
  predicate SubmitsOnKey(key: string, shift: bool) {
    key == "Enter" && !shift
  }

  class InputBoxView {
    var question: string
    /** Every string handed to `onSubmit`, in order. */
    var submitted: seq<string>

    constructor ()
      ensures question == "" && submitted == []
    {
      question := "";
      submitted := [];
    }

    /** The text area's change handler. */
    method Change(value: string)
      modifies this
      ensures question == value && submitted == old(submitted)
    {
      question := value;
    }

    method HandleSubmit(loading: bool)
      modifies this
      ensures CanSubmit(old(question), loading) ==>
                submitted == old(submitted) + [Trim(old(question))] && question == ""
      ensures !CanSubmit(old(question), loading) ==>
                submitted == old(submitted) && question == old(question)
    {
      var trimmed := Trim(question);
      if trimmed != "" && !loading {
        submitted := submitted + [trimmed];
        question := "";
      }
    }

    method HandleKeyDown(key: string, shift: bool, loading: bool)
      modifies this
      ensures SubmitsOnKey(key, shift) && CanSubmit(old(question), loading) ==>
                submitted == old(submitted) + [Trim(old(question))] && question == ""
      ensures !(SubmitsOnKey(key, shift) && CanSubmit(old(question), loading)) ==>
                submitted == old(submitted) && question == old(question)
    {
      if key == "Enter" && !shift {
        HandleSubmit(loading);
      }
    }
  }

  /** What is submitted is never empty and never starts or ends with whitespace, and a second
      trim leaves it unchanged. */
  lemma SubmittedIsClean(question: string, loading: bool)
    requires CanSubmit(question, loading)
    ensures var t := Trim(question);
            t != "" && !IsWhitespace(t[0]) && !IsWhitespace(t[|t| - 1]) && Trim(t) == t
  {
    TrimIdempotent(question);
  }
}
