/** The lab-report component: which uploads it accepts, how pasted text and a
    selected file exclude each other, the submit slot with its abort
    controller, how a settled analysis call updates the state, and the text it
    builds for sharing. */
module LabAnalyzer {
  import opened Common
  import opened Text
  import opened Types

  const MaxFileSizeMB: nat := 30
  const MaxFileSizeBytes: nat := MaxFileSizeMB * 1024 * 1024
  const AcceptedFileTypes: seq<string> := ["image/png", "image/jpeg", "application/pdf"]

  const InvalidTypeMessage := "Invalid file type. Please upload an image (PNG, JPG) or a PDF."
  /** The template message with `MaxFileSizeMB` filled in. */
  const TooLargeMessage := "File is too large. Please upload a file smaller than 30MB."
  const MissingInputMessage := "Please paste your lab report data or upload a file."
  const AnalyzeFailedMessage := "Failed to analyze the report. Please try again."

  /** A browser `File`: only what the component reads of it. */
  datatype File = File(name: string, mimeType: string, size: nat)

  /** What was submitted, as shown above the result and in the share text. */
  datatype SubmittedQuery = SubmittedQuery(text: string, fileName: Option<string>)

  /** What the continuation of a submit captured: the trimmed text and the file. */
  datatype Pending = Pending(queryText: string, file: Option<File>)

  predicate Acceptable(f: File) {
    f.mimeType in AcceptedFileTypes && f.size <= MaxFileSizeBytes
  }

  /** The ceiling is inclusive: a file of exactly 30 MiB of an accepted type is
      taken, one byte more is refused, and so is any other type. */
  lemma SizeCeiling(name: string, mimeType: string)
    ensures MaxFileSizeBytes == 31457280
    ensures mimeType in AcceptedFileTypes <==> Acceptable(File(name, mimeType, 31457280))
    ensures !Acceptable(File(name, mimeType, 31457281))
  {
  }

  /** The base64 payload `fileToBase64` takes from a data URL: the second
      comma-separated field (`split(',')[1]`), missing when there is no comma. */
  function Base64Payload(dataUrl: string): Option<string> {
    var fields := Split(dataUrl, ',');
    if |fields| >= 2 then Some(fields[1]) else None
  }

  /** For a data URL `data:<mediatype>;base64,<data>` (section 3 of RFC 2397)
      the payload is everything after the comma, since neither the header nor
      base64 text contains a comma. */
  lemma {:induction false} DataUrlPayload(header: string, payload: string)
    requires ',' !in header && ',' !in payload
    ensures Base64Payload(header + "," + payload) == Some(payload)
  {
    SplitField(header, ',', payload);
    SplitNoSeparator(payload, ',');
  }

  // ---------------------------------------------------------------------
  // The share text

  const NoAnalysisMessage := "No analysis available."
  const ErrorPrefix := "AyurConnect AI: "
  const ShareTitle := "AyurConnect AI Lab Report Analysis"
  const RuleLine := "------------------------\n\n"
  const AllNormalSentence := "Based on the provided data, all markers appear to be within normal ranges."
  const FindingsHeading := "Analysis & Suggestions:\n\n"
  const FindingSeparator := "---\n\n"
  const Disclaimer := "\n\nDisclaimer: This tool provides information for educational purposes only and is not a substitute for professional medical advice. More info at "

  function HerbBlock(h: HerbSuggestion): string {
    ("  - " + h.name + ":\n") +
    ("    Summary: " + h.summary + "\n") +
    ("    Dosage: " + h.dosage + "\n") +
    ("    Form: " + h.form + "\n") +
    ("    Side Effects: " + h.sideEffects + "\n\n")
  }

  function LifestyleBlock(l: LifestyleSuggestion): string {
    ("  - " + l.suggestion + ":\n") +
    ("    Details: " + l.details + "\n") +
    ("    Duration: " + l.duration + "\n") +
    ("    Source: " + l.source + "\n\n")
  }

  function HerbSection(herbs: seq<HerbSuggestion>): string {
    if |herbs| > 0 then "  Complementary Herb Suggestions:\n" + ConcatMap(HerbBlock, herbs) else ""
  }

  function LifestyleSection(items: seq<LifestyleSuggestion>): string {
    if |items| > 0 then "  Lifestyle Recommendations:\n" + ConcatMap(LifestyleBlock, items) else ""
  }

  /** One finding: its heading and summary, then its herb and lifestyle
      sections, each only when it has entries. */
  function FindingHeader(f: LabFindingAnalysis): string {
    ("Finding: " + f.parameter + " (" + f.status + ")\n") +
    ("Summary: " + f.summary + "\n\n")
  }

  function FindingBlock(f: LabFindingAnalysis): string {
    FindingHeader(f) +
    HerbSection(f.herbSuggestions) +
    LifestyleSection(f.lifestyleSuggestions)
  }

  function QueryLines(q: SubmittedQuery): string {
    (if q.text != "" then "For text: \"" + q.text + "\"\n" else "") +
    (if Truthy(q.fileName) then "For file: " + q.fileName.value + "\n" else "")
  }

  /** No findings means every marker is normal; otherwise the findings'
      blocks with a separator between consecutive ones and none after the last. */
  function FindingsBody(findings: Option<seq<LabFindingAnalysis>>): string {
    if findings.None? || |findings.value| == 0 then AllNormalSentence
    else FindingsHeading + JoinMap(FindingBlock, findings.value, FindingSeparator)
  }

  /** The text accumulated before the final `trim`, in the order it is appended. */
  function ShareDraft(q: SubmittedQuery, findings: Option<seq<LabFindingAnalysis>>, href: string): string {
    ShareTitle + "\n" + QueryLines(q) + RuleLine + FindingsBody(findings) + (Disclaimer + href)
  }

  function ShareText(q: SubmittedQuery, result: Option<LabAnalysisResult>, href: string): string {
    match result
    case None => NoAnalysisMessage
    case Some(r) =>
      if Truthy(r.error) then ErrorPrefix + r.error.value
      else Trim(ShareDraft(q, r.findings, href))
  }

  /** What the share text is in each case: fixed text without a result, the
      error behind the fixed prefix, and otherwise a trimmed text that still
      starts with the title, which trimming shortens only when the page
      address is empty or ends in whitespace. */
  lemma ShareTextCases(q: SubmittedQuery, result: Option<LabAnalysisResult>, href: string)
    ensures result.None? ==> ShareText(q, result, href) == NoAnalysisMessage
    ensures result.Some? && Truthy(result.value.error) ==>
      ShareText(q, result, href) == ErrorPrefix + result.value.error.value
    ensures result.Some? && !Truthy(result.value.error) ==>
      var text := ShareText(q, result, href);
      && IsTrimmed(text)
      && |ShareTitle| <= |text| && text[..|ShareTitle|] == ShareTitle
      && (href != "" && !IsWhitespace(href[|href| - 1]) ==> text == ShareDraft(q, result.value.findings, href))
  {
    if result.Some? && !Truthy(result.value.error) {
      DraftAfterTitle(q, result.value.findings, href);
    }
  }

  /** The draft is the title followed by a tail that ends with the page
      address, so trimming keeps the title and touches only the tail's end. */
  lemma DraftAfterTitle(q: SubmittedQuery, findings: Option<seq<LabFindingAnalysis>>, href: string)
    ensures var text := Trim(ShareDraft(q, findings, href));
      && |ShareTitle| <= |text| && text[..|ShareTitle|] == ShareTitle
      && (href != "" && !IsWhitespace(href[|href| - 1]) ==> text == ShareDraft(q, findings, href))
  {
    var middle := "\n" + QueryLines(q) + RuleLine + FindingsBody(findings) + Disclaimer;
    Regroup(ShareTitle, "\n", QueryLines(q), RuleLine, FindingsBody(findings), Disclaimer, href);
    TrimAfterLead(ShareTitle, middle, href);
  }

  /** The herb part of the `forEach` callback: a heading and one block per
      herb, only when there are herbs. */
  method AppendHerbSection(text: string, herbs: seq<HerbSuggestion>) returns (r: string)
    ensures r == text + HerbSection(herbs)
  {
    r := text;
    if |herbs| > 0 {
      r := r + "  Complementary Herb Suggestions:\n";
      r := AppendEach(r, herbs, HerbBlock);
    }
  }

  /** The lifestyle part of the `forEach` callback, likewise. */
  method AppendLifestyleSection(text: string, items: seq<LifestyleSuggestion>) returns (r: string)
    ensures r == text + LifestyleSection(items)
  {
    r := text;
    if |items| > 0 {
      r := r + "  Lifestyle Recommendations:\n";
      r := AppendEach(r, items, LifestyleBlock);
    }
  }

  /** The body of the `findings.forEach` callback: appends one finding's block. */
  method AppendFinding(text: string, finding: LabFindingAnalysis) returns (r: string)
    ensures r == text + FindingBlock(finding)
  {
    r := text + FindingHeader(finding);
    r := AppendHerbSection(r, finding.herbSuggestions);
    r := AppendLifestyleSection(r, finding.lifestyleSuggestions);
    AppendThree(text, FindingHeader(finding), HerbSection(finding.herbSuggestions),
      LifestyleSection(finding.lifestyleSuggestions));
  }

  /** The outer `findings.forEach`: each finding's block, followed by the
      separator unless it is the last. */
  method AppendFindings(text: string, findings: seq<LabFindingAnalysis>) returns (r: string)
    ensures r == text + JoinMap(FindingBlock, findings, FindingSeparator)
  {
    r := text;
    var index := 0;
    while index < |findings|
      invariant 0 <= index <= |findings|
      invariant r == JoinedSoFar(text, FindingBlock, findings, FindingSeparator, index)
    {
      JoinStep(text, FindingBlock, findings, FindingSeparator, index);
      r := AppendFinding(r, findings[index]);
      if index < |findings| - 1 {
        r := r + FindingSeparator;
      }
      index := index + 1;
    }
    JoinDone(text, FindingBlock, findings, FindingSeparator);
  }

  /** The lines naming what was submitted: the text when there is some, the
      file name when there is one. */
  method AppendQueryLines(text: string, q: SubmittedQuery) returns (r: string)
    ensures r == text + QueryLines(q)
  {
    r := text;
    if q.text != "" {
      r := r + ("For text: \"" + q.text + "\"\n");
    }
    if Truthy(q.fileName) {
      r := r + ("For file: " + q.fileName.value + "\n");
    }
  }

  /** The all-normal sentence when there are no findings, otherwise the
      heading and the findings loop. */
  method AppendFindingsBody(text: string, findings: Option<seq<LabFindingAnalysis>>) returns (r: string)
    ensures r == text + FindingsBody(findings)
  {
    if findings.None? || |findings.value| == 0 {
      r := text + AllNormalSentence;
    } else {
      r := text + FindingsHeading;
      r := AppendFindings(r, findings.value);
    }
  }

  /** `formatLabResultForSharing`: the fixed answers without a result or with
      an error; otherwise the title, the query lines, the rule, the findings
      (or the all-normal sentence), the disclaimer and the page address, trimmed. */
  method FormatLabResultForSharing(q: SubmittedQuery, result: Option<LabAnalysisResult>, href: string)
    returns (shared: string)
    ensures shared == ShareText(q, result, href)
  {
    if result.None? {
      return NoAnalysisMessage;
    }
    var r := result.value;
    if Truthy(r.error) {
      return ErrorPrefix + r.error.value;
    }
    var text := ShareTitle + "\n";
    text := AppendQueryLines(text, q);
    text := text + RuleLine;
    text := AppendFindingsBody(text, r.findings);
    text := text + (Disclaimer + href);
    return Trim(text);
  }

  // ---------------------------------------------------------------------
  // The component state

  /** The component's state hooks and its abort-controller ref. */
  class State {
    var reportData: string
    var selectedFile: Option<File>
    var result: Option<LabAnalysisResult>
    var submittedQuery: Option<SubmittedQuery>
    var isLoading: bool
    var error: Option<string>
    var isDragOver: bool
    var controller: AbortController?

    /** Pasted text and a selected file are never held together, and a
        selected file has passed the type and size checks. */
    ghost predicate Valid()
      reads this
    {
      && !(reportData != "" && selectedFile.Some?)
      && (selectedFile.Some? ==> Acceptable(selectedFile.value))
    }

    constructor ()
      ensures Valid()
      ensures reportData == "" && selectedFile == None && result == None
      ensures submittedQuery == None && !isLoading && error == None
      ensures !isDragOver && controller == null
    {
      reportData := "";
      selectedFile := None;
      result := None;
      submittedQuery := None;
      isLoading := false;
      error := None;
      isDragOver := false;
      controller := null;
    }

    /** `handleFileChange`: the first picked file replaces the pasted text if
        it passes the type check and then the size check; otherwise the
        matching error is set and the selection stays as it was. */
    method FileChange(files: seq<File>)
      requires Valid()
      modifies this
      ensures Valid()
      ensures files == [] ==> reportData == old(reportData) && selectedFile == old(selectedFile) && error == old(error)
      ensures files != [] && files[0].mimeType !in AcceptedFileTypes ==>
        error == Some(InvalidTypeMessage) && selectedFile == old(selectedFile) && reportData == old(reportData)
      ensures files != [] && files[0].mimeType in AcceptedFileTypes && files[0].size > MaxFileSizeBytes ==>
        error == Some(TooLargeMessage) && selectedFile == old(selectedFile) && reportData == old(reportData)
      ensures files != [] && Acceptable(files[0]) ==>
        selectedFile == Some(files[0]) && reportData == "" && error == None
      ensures result == old(result) && submittedQuery == old(submittedQuery) && isLoading == old(isLoading)
      ensures isDragOver == old(isDragOver) && controller == old(controller)
    {
      if files != [] {
        var file := files[0];
        if file.mimeType !in AcceptedFileTypes {
          error := Some(InvalidTypeMessage);
          return;
        }
        if file.size > MaxFileSizeBytes {
          error := Some(TooLargeMessage);
          return;
        }
        selectedFile := Some(file);
        reportData := "";
        error := None;
      }
    }

    /** `handleDrop`: ends the drag-over highlight, then checks the first
        dropped file like `FileChange` (type first, then size). */
    method Drop(files: seq<File>)
      requires Valid()
      modifies this
      ensures Valid()
      ensures !isDragOver
      ensures files == [] ==> reportData == old(reportData) && selectedFile == old(selectedFile) && error == old(error)
      ensures files != [] && files[0].mimeType !in AcceptedFileTypes ==>
        error == Some(InvalidTypeMessage) && selectedFile == old(selectedFile) && reportData == old(reportData)
      ensures files != [] && files[0].mimeType in AcceptedFileTypes && files[0].size > MaxFileSizeBytes ==>
        error == Some(TooLargeMessage) && selectedFile == old(selectedFile) && reportData == old(reportData)
      ensures files != [] && Acceptable(files[0]) ==>
        selectedFile == Some(files[0]) && reportData == "" && error == None
      ensures result == old(result) && submittedQuery == old(submittedQuery) && isLoading == old(isLoading)
      ensures controller == old(controller)
    {
      isDragOver := false;
      if files != [] {
        var file := files[0];
        if file.mimeType in AcceptedFileTypes {
          if file.size > MaxFileSizeBytes {
            error := Some(TooLargeMessage);
            return;
          }
          selectedFile := Some(file);
          reportData := "";
          error := None;
        } else {
          error := Some(InvalidTypeMessage);
        }
      }
    }

    /** The textarea's `onChange`: typing stores the text and drops any
        selected file. */
    method TextChange(value: string)
      requires Valid()
      modifies this
      ensures Valid()
      ensures reportData == value && selectedFile == None
      ensures result == old(result) && submittedQuery == old(submittedQuery) && isLoading == old(isLoading)
      ensures error == old(error) && isDragOver == old(isDragOver) && controller == old(controller)
    {
      reportData := value;
      if selectedFile.Some? {
        selectedFile := None;
      }
    }

    /** The "Remove file" button. */
    method RemoveFile()
      requires Valid()
      modifies this
      ensures Valid()
      ensures selectedFile == None && reportData == old(reportData)
      ensures result == old(result) && submittedQuery == old(submittedQuery) && isLoading == old(isLoading)
      ensures error == old(error) && isDragOver == old(isDragOver) && controller == old(controller)
    {
      selectedFile := None;
    }

    /** `handleReset`: clears the inputs, the result and the error, ends
        loading and aborts the current controller (which stays in the ref). */
    method Reset()
      requires Valid()
      modifies this, controller
      ensures Valid()
      ensures reportData == "" && selectedFile == None && result == None
      ensures submittedQuery == None && error == None && !isLoading
      ensures controller == old(controller)
      ensures controller != null ==> controller.aborted
      ensures isDragOver == old(isDragOver)
    {
      reportData := "";
      selectedFile := None;
      result := None;
      submittedQuery := None;
      error := None;
      isLoading := false;
      if controller != null {
        controller.Abort();
      }
    }

    /** `handleSubmit` up to its first `await`. The previous controller is
        aborted and a fresh one installed before anything is validated, so
        even a rejected submit cancels the request in flight. Blank text with
        no file sets the validation error and starts nothing; otherwise
        loading starts, error and result are cleared, the query is recorded
        and the continuation is handed the trimmed text and the file. */
    method Submit() returns (pending: Option<Pending>)
      requires Valid()
      modifies this, controller
      ensures Valid()
      ensures old(controller) != null ==> old(controller).aborted
      ensures fresh(controller) && !controller.aborted
      ensures Trim(old(reportData)) == "" && old(selectedFile).None? ==>
        && pending == None && error == Some(MissingInputMessage)
        && result == old(result) && submittedQuery == old(submittedQuery) && isLoading == old(isLoading)
      ensures !(Trim(old(reportData)) == "" && old(selectedFile).None?) ==>
        && pending == Some(Pending(Trim(old(reportData)), old(selectedFile)))
        && isLoading && error == None && result == None
        && submittedQuery == Some(SubmittedQuery(Trim(old(reportData)),
             if old(selectedFile).Some? then Some(old(selectedFile).value.name) else None))
      ensures reportData == old(reportData) && selectedFile == old(selectedFile) && isDragOver == old(isDragOver)
    {
      if controller != null {
        controller.Abort();
      }
      controller := new AbortController();
      var queryText := Trim(reportData);
      if queryText == "" && selectedFile.None? {
        error := Some(MissingInputMessage);
        return None;
      }
      isLoading := true;
      error := None;
      result := None;
      submittedQuery := Some(SubmittedQuery(queryText, if selectedFile.Some? then Some(selectedFile.value.name) else None));
      pending := Some(Pending(queryText, selectedFile));
    }

    /** The rest of `handleSubmit`, once the file has been read (`dataUrl`,
        missing when the reader failed) and the analysis call has settled
        (`outcome`; a `null` value means the call reported cancellation). The
        request carries the text only when it is non-blank and the image only
        when a file was selected. A result with an error sets that error and
        clears the result; a cancelled call changes neither; an `AbortError`
        is never surfaced; loading ends on every path. */
    method Settle(p: Pending, dataUrl: Option<string>, outcome: CallOutcome<Option<LabAnalysisResult>>)
      returns (sent: Option<LabInput>)
      requires Valid()
      modifies this
      ensures Valid()
      ensures !isLoading
      ensures p.file.Some? && dataUrl.None? ==>
        sent == None && error == Some(AnalyzeFailedMessage) && result == old(result)
      ensures p.file.None? || dataUrl.Some? ==>
        && sent.Some?
        && (sent.value.text.Some? <==> p.queryText != "")
        && (sent.value.text.Some? ==> sent.value.text.value == p.queryText)
        && (sent.value.image.Some? <==> p.file.Some?)
        && (sent.value.image.Some? ==>
              sent.value.image.value == ImagePart(p.file.value.mimeType, Base64Payload(dataUrl.value)))
      ensures sent.Some? && outcome == Returned(None) ==>
        result == old(result) && error == old(error)
      ensures sent.Some? && outcome.Returned? && outcome.value.Some? && Truthy(outcome.value.value.error) ==>
        error == outcome.value.value.error && result == None
      ensures sent.Some? && outcome.Returned? && outcome.value.Some? && !Truthy(outcome.value.value.error) ==>
        result == outcome.value && error == old(error)
      ensures sent.Some? && outcome.Threw? ==>
        && result == old(result)
        && (outcome.name == "AbortError" ==> error == old(error))
        && (outcome.name != "AbortError" ==> error == Some(OrElse(outcome.message, AnalyzeFailedMessage)))
      ensures reportData == old(reportData) && selectedFile == old(selectedFile)
      ensures submittedQuery == old(submittedQuery) && isDragOver == old(isDragOver) && controller == old(controller)
    {
      var imagePart: Option<ImagePart> := None;
      if p.file.Some? {
        if dataUrl.None? {
          // The reader rejects with an event that carries no message.
          error := Some(AnalyzeFailedMessage);
          isLoading := false;
          return None;
        }
        imagePart := Some(ImagePart(p.file.value.mimeType, Base64Payload(dataUrl.value)));
      }
      sent := Some(LabInput(if p.queryText != "" then Some(p.queryText) else None, imagePart));
      match outcome {
        case Returned(analysis) =>
          if analysis.Some? {
            if Truthy(analysis.value.error) {
              error := analysis.value.error;
              result := None;
            } else {
              result := analysis;
            }
          }
        case Threw(name, message) =>
          if name != "AbortError" {
            error := Some(OrElse(message, AnalyzeFailedMessage));
          }
      }
      isLoading := false;
    }
  }
}
