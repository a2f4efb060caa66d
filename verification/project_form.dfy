/** The new-project form: both fields are trimmed, a blank field blocks
    submission, and the submit button mirrors that check plus `loading`. */
module ProjectForm {
  import opened Wrappers
  import opened Text

  datatype ProjectData = ProjectData(title: string, description: string)

  /** The form's submit handler: what `onSubmit` receives, if it is called. */
  function HandleSubmit(title: string, description: string): (r: Option<ProjectData>)
    ensures r.Some? <==> !AllWhitespace(title) && !AllWhitespace(description)
    ensures r.Some? ==>
      PaddedBy(title, r.value.title, LeadingSpace(title))
      && PaddedBy(description, r.value.description, LeadingSpace(description))
  {
    TrimEmptyIff(title);
    TrimEmptyIff(description);
    var t, d := Trim(title), Trim(description);
    if t != "" && d != "" then Some(ProjectData(t, d)) else None
  }

  /** What is submitted carries no surrounding whitespace: submitting it
      again would send it unchanged. */
  lemma SubmittedIsTrimmed(title: string, description: string)
    requires HandleSubmit(title, description).Some?
    ensures var p := HandleSubmit(title, description).value;
      p.title != "" && p.description != ""
      && !IsWhitespace(p.title[0]) && !IsWhitespace(p.title[|p.title| - 1])
      && !IsWhitespace(p.description[0]) && !IsWhitespace(p.description[|p.description| - 1])
      && HandleSubmit(p.title, p.description) == Some(p)
  {
    var p := HandleSubmit(title, description).value;
    TrimNoPadding(p.title);
    TrimNoPadding(p.description);
  }

  /** `disabled={loading || !title.trim() || !description.trim()}`. */
  function SubmitDisabled(loading: bool, title: string, description: string): (disabled: bool)
    ensures disabled <==> loading || AllWhitespace(title) || AllWhitespace(description)
  {
    TrimEmptyIff(title);
    TrimEmptyIff(description);
    loading || Trim(title) == "" || Trim(description) == ""
  }

  /** An enabled button always leads to exactly one submission; a disabled one
      not loading means a blank field, for which the handler submits nothing.
      The handler itself does not look at `loading`. */
  lemma ButtonMatchesHandler(loading: bool, title: string, description: string)
    ensures !SubmitDisabled(loading, title, description) ==> HandleSubmit(title, description).Some?
    ensures !loading ==> (SubmitDisabled(loading, title, description) <==> HandleSubmit(title, description).None?)
  {
  }
}
