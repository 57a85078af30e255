/** The medicine search component: the trimmed-name gate, the submit slot
    with its abort controller, the classification of a settled response into
    a result or an error, and the text it builds for sharing. */
module MedicineFinder {
  import opened Common
  import opened Text
  import opened Types

  const EmptyNameMessage := "Please enter a medicine or molecule name."
  const UnexpectedMessage := "An unexpected error occurred. The AI did not return a valid analysis. Please try again."
  const FailedMessage := "Failed to get suggestion. Please check your connection or try again later."

  /** What a non-null response turns into: exactly one of an error message
      or the result to show. */
  datatype Verdict = ShowError(message: string) | ShowResult(analysis: MedicineAnalysisResult)

  /** The `if / else if / else` over a non-null response: its own error
      first, then a result with a summary, and otherwise the generic message. */
  function Classify(analysis: MedicineAnalysisResult): (v: Verdict)
    ensures v.ShowResult? <==> !Truthy(analysis.error) && Truthy(analysis.drugSummary)
    ensures v.ShowResult? ==> v.analysis == analysis
    ensures Truthy(analysis.error) ==> v == ShowError(analysis.error.value)
    ensures !Truthy(analysis.error) && !Truthy(analysis.drugSummary) ==> v == ShowError(UnexpectedMessage)
    ensures v.ShowError? ==> v.message != ""
  {
    if Truthy(analysis.error) then ShowError(analysis.error.value)
    else if Truthy(analysis.drugSummary) then ShowResult(analysis)
    else ShowError(UnexpectedMessage)
  }

  // ---------------------------------------------------------------------
  // The share text

  const NoAnalysisMessage := "No analysis available."
  const ErrorPrefix := "AyurConnect AI: "
  /** The start of the title, up to its last non-blank character. */
  const TitleLead := "AyurConnect AI Analysis for:"
  const RuleLine := "\n------------------------\n\n"
  const SummaryHeading := "Drug Summary:\n"
  const HerbsHeading := "Complementary Herb Suggestions:\n"
  const LifestyleHeading := "Lifestyle Recommendations:\n"
  const Disclaimer := "Disclaimer: This tool provides information for educational purposes only and is not a substitute for professional medical advice. Always consult with a qualified healthcare provider. More info at "

  function HerbBlock(h: HerbSuggestion): string {
    ("- " + h.name + ":\n") +
    ("  Summary: " + h.summary + "\n") +
    ("  Dosage: " + h.dosage + "\n") +
    ("  Form: " + h.form + "\n") +
    ("  Side Effects: " + h.sideEffects + "\n\n")
  }

  function LifestyleBlock(l: LifestyleSuggestion): string {
    ("- " + l.suggestion + ":\n") +
    ("  Details: " + l.details + "\n") +
    ("  Duration: " + l.duration + "\n") +
    ("  Source: " + l.source + "\n\n")
  }

  /** The title line and the rule under it. */
  function Title(query: string): string {
    TitleLead + (" " + query + RuleLine)
  }

  /** The summary section is there exactly when the summary is truthy. */
  function SummarySection(summary: Option<string>): (r: string)
    ensures r == "" <==> !Truthy(summary)
  {
    if Truthy(summary) then SummaryHeading + summary.value + "\n\n" else ""
  }

  function HerbSection(herbs: Option<seq<HerbSuggestion>>): string {
    ListSection(HerbsHeading, HerbBlock, herbs)
  }

  function LifestyleSection(items: Option<seq<LifestyleSuggestion>>): string {
    ListSection(LifestyleHeading, LifestyleBlock, items)
  }

  /** The text accumulated before the final `trim`, in the order it is appended. */
  function ShareDraft(query: string, r: MedicineAnalysisResult, href: string): string {
    Title(query) + SummarySection(r.drugSummary) + HerbSection(r.herbSuggestions)
      + LifestyleSection(r.lifestyleSuggestions) + (Disclaimer + href)
  }

  function ShareText(query: string, result: Option<MedicineAnalysisResult>, href: string): string {
    match result
    case None => NoAnalysisMessage
    case Some(r) =>
      if Truthy(r.error) then ErrorPrefix + r.error.value
      else Trim(ShareDraft(query, r, href))
  }

  /** What the share text is in each case: the fixed text without a result,
      the error behind the fixed prefix, and otherwise a trimmed text that
      keeps the title's lead, which trimming shortens only when the page
      address is empty or ends in whitespace. */
  lemma ShareTextCases(query: string, result: Option<MedicineAnalysisResult>, href: string)
    ensures result.None? ==> ShareText(query, result, href) == NoAnalysisMessage
    ensures result.Some? && Truthy(result.value.error) ==>
      ShareText(query, result, href) == ErrorPrefix + result.value.error.value
    ensures result.Some? && !Truthy(result.value.error) ==>
      var text := ShareText(query, result, href);
      && IsTrimmed(text)
      && |TitleLead| <= |text| && text[..|TitleLead|] == TitleLead
      && (href != "" && !IsWhitespace(href[|href| - 1]) ==> text == ShareDraft(query, result.value, href))
  {
    if result.Some? && !Truthy(result.value.error) {
      DraftAfterTitle(query, result.value, href);
    }
  }

  lemma DraftAfterTitle(query: string, r: MedicineAnalysisResult, href: string)
    ensures var text := Trim(ShareDraft(query, r, href));
      && |TitleLead| <= |text| && text[..|TitleLead|] == TitleLead
      && (href != "" && !IsWhitespace(href[|href| - 1]) ==> text == ShareDraft(query, r, href))
  {
    var rest := " " + query + RuleLine;
    var middle := rest + SummarySection(r.drugSummary) + HerbSection(r.herbSuggestions)
      + LifestyleSection(r.lifestyleSuggestions) + Disclaimer;
    Regroup(TitleLead, rest, SummarySection(r.drugSummary), HerbSection(r.herbSuggestions),
      LifestyleSection(r.lifestyleSuggestions), Disclaimer, href);
    TitleLeadEnds();
    TrimAfterLead(TitleLead, middle, href);
  }

  lemma TitleLeadEnds()
    ensures TitleLead != [] && !IsWhitespace(TitleLead[0]) && !IsWhitespace(TitleLead[|TitleLead| - 1])
  {
  }

  method AppendSummarySection(text: string, summary: Option<string>) returns (r: string)
    ensures r == text + SummarySection(summary)
  {
    r := text;
    if Truthy(summary) {
      r := r + (SummaryHeading + summary.value + "\n\n");
    }
  }

  /** `formatMedicineResultForSharing`: the fixed answers without a result or
      with an error; otherwise the title, each section that is present, the
      disclaimer and the page address, trimmed. */
  method FormatMedicineResultForSharing(query: string, result: Option<MedicineAnalysisResult>, href: string)
    returns (shared: string)
    ensures shared == ShareText(query, result, href)
  {
    if result.None? {
      return NoAnalysisMessage;
    }
    var r := result.value;
    if Truthy(r.error) {
      return ErrorPrefix + r.error.value;
    }
    var text := Title(query);
    text := AppendSummarySection(text, r.drugSummary);
    text := AppendListSection(text, HerbsHeading, HerbBlock, r.herbSuggestions);
    text := AppendListSection(text, LifestyleHeading, LifestyleBlock, r.lifestyleSuggestions);
    text := text + (Disclaimer + href);
    return Trim(text);
  }

  // ---------------------------------------------------------------------
  // The component state

  /** The component's state hooks and its abort-controller ref. */
  class State {
    var medicineName: string
    var result: Option<MedicineAnalysisResult>
    var submittedQuery: string
    var isLoading: bool
    var error: Option<string>
    var controller: AbortController?

    /** A shown result always has a summary and no error of its own. */
    ghost predicate Valid()
      reads this
    {
      result.Some? ==> Classify(result.value) == ShowResult(result.value)
    }

    constructor ()
      ensures Valid()
      ensures medicineName == "" && result == None && submittedQuery == ""
      ensures !isLoading && error == None && controller == null
    {
      medicineName := "";
      result := None;
      submittedQuery := "";
      isLoading := false;
      error := None;
      controller := null;
    }

    /** The input's `onChange`. */
    method NameChange(value: string)
      requires Valid()
      modifies this
      ensures Valid()
      ensures medicineName == value
      ensures result == old(result) && submittedQuery == old(submittedQuery) && isLoading == old(isLoading)
      ensures error == old(error) && controller == old(controller)
    {
      medicineName := value;
    }

    /** `handleReset`: clears the name, result, query and error, ends loading
        and aborts the current controller (which stays in the ref). */
    method Reset()
      requires Valid()
      modifies this, controller
      ensures Valid()
      ensures medicineName == "" && result == None && submittedQuery == ""
      ensures error == None && !isLoading
      ensures controller == old(controller)
      ensures controller != null ==> controller.aborted
    {
      medicineName := "";
      result := None;
      submittedQuery := "";
      error := None;
      isLoading := false;
      if controller != null {
        controller.Abort();
      }
    }

    /** `handleSubmit` up to its `await`. The previous controller is aborted
        and a fresh one installed before the name is checked. A name that is
        blank after trimming sets the validation error and sends nothing;
        otherwise loading starts, error and result are cleared, and the
        trimmed name is both recorded and returned as the query to send. */
    method Submit() returns (query: Option<string>)
      requires Valid()
      modifies this, controller
      ensures Valid()
      ensures old(controller) != null ==> old(controller).aborted
      ensures fresh(controller) && !controller.aborted
      ensures Trim(old(medicineName)) == "" ==>
        && query == None && error == Some(EmptyNameMessage)
        && result == old(result) && submittedQuery == old(submittedQuery) && isLoading == old(isLoading)
      ensures Trim(old(medicineName)) != "" ==>
        && query == Some(Trim(old(medicineName)))
        && submittedQuery == Trim(old(medicineName))
        && isLoading && error == None && result == None
      ensures medicineName == old(medicineName)
    {
      if controller != null {
        controller.Abort();
      }
      controller := new AbortController();
      var name := Trim(medicineName);
      if name == "" {
        error := Some(EmptyNameMessage);
        return None;
      }
      isLoading := true;
      error := None;
      result := None;
      submittedQuery := name;
      query := Some(name);
    }

    /** The rest of `handleSubmit`, once the call has settled. A `null`
        response (cancellation) leaves result and error as they were; any
        other response sets exactly what `Classify` says; an `AbortError` is
        never surfaced, any other exception shows its message or the fixed
        fallback; loading ends on every path. */
    method Settle(outcome: CallOutcome<Option<MedicineAnalysisResult>>)
      requires Valid()
      modifies this
      ensures Valid()
      ensures !isLoading
      ensures outcome == Returned(None) ==> result == old(result) && error == old(error)
      ensures outcome.Returned? && outcome.value.Some? ==>
        match Classify(outcome.value.value)
        case ShowError(message) => error == Some(message) && result == None
        case ShowResult(analysis) => result == Some(analysis) && error == old(error)
      ensures outcome.Threw? ==>
        && result == old(result)
        && (outcome.name == "AbortError" ==> error == old(error))
        && (outcome.name != "AbortError" ==> error == Some(OrElse(outcome.message, FailedMessage)))
      ensures medicineName == old(medicineName) && submittedQuery == old(submittedQuery)
      ensures controller == old(controller)
    {
      match outcome {
        case Returned(analysis) =>
          if analysis.Some? {
            var a := analysis.value;
            if Truthy(a.error) {
              error := a.error;
              result := None;
            } else if Truthy(a.drugSummary) {
              result := Some(a);
            } else {
              error := Some(UnexpectedMessage);
              result := None;
            }
          }
        case Threw(name, message) =>
          if name != "AbortError" {
            error := Some(OrElse(message, FailedMessage));
          }
      }
      isLoading := false;
    }
  }
}
