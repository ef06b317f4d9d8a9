/**
 * The manual item form (`ManualItemForm`): two fields, details and
 * duration, and a submit that either refuses a blank text or hands
 * `{details: details.trim(), duration}` to its owner and clears the fields.
 */
module ManualForm {
  import opened Wrappers
  import opened Text

  /** What the form emits: an item without id and without type. */
  datatype Submission = Submission(details: string, duration: int)

  /**
   * The validation of `handleSubmit`: nothing for details that are blank
   * once trimmed, otherwise the trimmed details and the duration as it is,
   * with no range check.
   */
  function Validate(details: string, duration: int): (r: Option<Submission>)
    ensures r.None? <==> IsBlank(details)
    ensures r.Some? ==> (r.value.duration == duration && r.value.details != "" &&
      Trim(r.value.details) == r.value.details && r.value.details == Trim(details))
  {
    TrimEmptyIffBlank(details);
    TrimIdempotent(details);
    if Trim(details) == "" then None else Some(Submission(Trim(details), duration))
  }

  /** A trimmed submission neither starts nor ends with white space. */
  lemma SubmissionTrimmed(details: string, duration: int)
    requires Validate(details, duration).Some?
    ensures var s := Validate(details, duration).value.details;
      !IsWhitespace(s[0]) && !IsWhitespace(s[|s| - 1])
  {
    TrimShape(details);
  }

  class ManualItemForm {
    var details: string
    var duration: int

    constructor ()
      ensures details == "" && duration == 0
    {
      details := "";
      duration := 0;
    }

    /** The details field's `onChange`. */
    method SetDetails(text: string)
      modifies this
      ensures details == text && duration == old(duration)
    {
      details := text;
    }

    /** The duration field's `onChange`: `Number(e.target.value)`, whatever its sign. */
    method SetDuration(minutes: int)
      modifies this
      ensures duration == minutes && details == old(details)
    {
      duration := minutes;
    }

    /**
     * `handleSubmit`: a blank text emits nothing and keeps both fields (the
     * alert); otherwise the submission is emitted and the fields reset to
     * '' and 0.
     */
    method Submit() returns (emitted: Option<Submission>)
      modifies this
      ensures emitted == Validate(old(details), old(duration))
      ensures emitted.None? ==> details == old(details) && duration == old(duration)
      ensures emitted.Some? ==> details == "" && duration == 0
    {
      if Trim(details) == "" {
        TrimEmptyIffBlank(details);
        emitted := None;
        return;
      }
      TrimEmptyIffBlank(details);
      emitted := Some(Submission(Trim(details), duration));
      details := "";
      duration := 0;
    }
  }
}
