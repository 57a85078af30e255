/** The six-question dosha identifier: a chosen option or free text per
    question, the completeness test, the merged answers it sends, and the
    login gate that holds a result back until the user is signed in. */
module DoshaIdentifier {
  import opened Common
  import opened Text
  import opened Types

  /** The keys of the six questions, in the order they are asked. */
  const Keys: seq<string> := ["build", "skin", "hair", "appetite", "energy", "stressResponse"]

  const IncompleteMessage := "Please answer all questions to identify your Dosha."
  const FailedMessage := "Failed to identify your Dosha. Please try again later."

  /** `answers[key]`: the chosen option, `null` once free text replaced it,
      `undefined` (here `None` too) when never touched. */
  function Chosen(answers: map<string, Option<string>>, key: string): Option<string> {
    if key in answers then answers[key] else None
  }

  /** `customAnswers[key] || ''`. */
  function CustomText(customAnswers: map<string, string>, key: string): string {
    if key in customAnswers then customAnswers[key] else ""
  }

  /** A question counts as answered when an option is chosen or its free text
      is not blank. */
  predicate Answered(answers: map<string, Option<string>>, customAnswers: map<string, string>, key: string) {
    Truthy(Chosen(answers, key)) || Trim(CustomText(customAnswers, key)) != ""
  }

  /** `isComplete`: every question is answered. */
  predicate IsComplete(answers: map<string, Option<string>>, customAnswers: map<string, string>) {
    forall i :: 0 <= i < |Keys| ==> Answered(answers, customAnswers, Keys[i])
  }

  /** One entry of `combinedAnswers`: `customAnswers[key] || answers[key] || ''`. */
  function MergedValue(answers: map<string, Option<string>>, customAnswers: map<string, string>, key: string): string {
    var custom := CustomText(customAnswers, key);
    if custom != "" then custom
    else if Truthy(Chosen(answers, key)) then Chosen(answers, key).value
    else ""
  }

  /** The payload: one entry per question key and no other. */
  function Merged(answers: map<string, Option<string>>, customAnswers: map<string, string>): map<string, string> {
    map key | key in Keys :: MergedValue(answers, customAnswers, key)
  }

  /** A chosen option and free text never stand side by side: choosing an
      option empties that question's free text, and typing free text drops
      the chosen option. */
  predicate Exclusive(answers: map<string, Option<string>>, customAnswers: map<string, string>) {
    forall key :: key in answers && answers[key].Some? ==> CustomText(customAnswers, key) == ""
  }

  /** With the two kinds of answer kept apart, a complete questionnaire sends
      an answer for every question: the free text where it is not blank and
      the chosen option otherwise; nothing is sent as `''`. */
  lemma CompleteMergesEveryAnswer(answers: map<string, Option<string>>, customAnswers: map<string, string>)
    requires Exclusive(answers, customAnswers)
    requires IsComplete(answers, customAnswers)
    ensures forall i :: 0 <= i < |Keys| ==> Merged(answers, customAnswers)[Keys[i]] != ""
    ensures forall i :: 0 <= i < |Keys| ==>
      var custom := CustomText(customAnswers, Keys[i]);
      Merged(answers, customAnswers)[Keys[i]] ==
        (if Trim(custom) != "" then custom else Chosen(answers, Keys[i]).value)
  {
    forall i | 0 <= i < |Keys|
      ensures Merged(answers, customAnswers)[Keys[i]] != ""
      ensures var custom := CustomText(customAnswers, Keys[i]);
        Merged(answers, customAnswers)[Keys[i]] ==
          (if Trim(custom) != "" then custom else Chosen(answers, Keys[i]).value)
    {
      var key, custom := Keys[i], CustomText(customAnswers, Keys[i]);
      assert Answered(answers, customAnswers, key);
      if Trim(custom) == "" {
        TrimEmptyIffBlank(custom);
        assert Truthy(Chosen(answers, key));
        assert custom == "";
      }
    }
  }

  /** A question left without a chosen option and without free text goes out
      as the empty string, and the questionnaire is then incomplete. */
  lemma UnansweredSendsEmpty(answers: map<string, Option<string>>, customAnswers: map<string, string>, i: nat)
    requires i < |Keys|
    requires !Truthy(Chosen(answers, Keys[i])) && CustomText(customAnswers, Keys[i]) == ""
    ensures Merged(answers, customAnswers)[Keys[i]] == ""
    ensures !IsComplete(answers, customAnswers)
  {
    assert Trim(CustomText(customAnswers, Keys[i])) == "" by {
      TrimEmptyIffBlank("");
    }
    assert !Answered(answers, customAnswers, Keys[i]);
  }

  /** The `reduce` that fills the accumulator one question at a time. */
  method CombineAnswers(answers: map<string, Option<string>>, customAnswers: map<string, string>)
    returns (combined: map<string, string>)
    ensures combined == Merged(answers, customAnswers)
    ensures forall key :: key in combined <==> key in Keys
  {
    combined := map[];
    var i := 0;
    while i < |Keys|
      invariant 0 <= i <= |Keys|
      invariant forall key :: key in combined <==> key in Keys[..i]
      invariant forall key :: key in combined ==> combined[key] == MergedValue(answers, customAnswers, key)
    {
      combined := combined[Keys[i] := MergedValue(answers, customAnswers, Keys[i])];
      assert Keys[..i + 1] == Keys[..i] + [Keys[i]];
      i := i + 1;
    }
    assert Keys[..i] == Keys;
  }

  /** The component's state hooks. */
  class State {
    var answers: map<string, Option<string>>
    var customAnswers: map<string, string>
    var result: Option<DoshaAnalysisResult>
    var pendingResult: Option<DoshaAnalysisResult>
    var isLoading: bool
    var error: Option<string>

    ghost predicate Valid()
      reads this
    {
      Exclusive(answers, customAnswers)
    }

    constructor ()
      ensures Valid()
      ensures answers == map[] && customAnswers == map[]
      ensures result == None && pendingResult == None && !isLoading && error == None
    {
      answers := map[];
      customAnswers := map[];
      result := None;
      pendingResult := None;
      isLoading := false;
      error := None;
    }

    /** `handleAnswer`: choosing an option records it and empties that
        question's free text; the other questions keep theirs. */
    method Answer(key: string, option: string)
      requires Valid()
      modifies this
      ensures Valid()
      ensures answers == old(answers)[key := Some(option)]
      ensures customAnswers == old(customAnswers)[key := ""]
      ensures result == old(result) && pendingResult == old(pendingResult)
      ensures isLoading == old(isLoading) && error == old(error)
    {
      answers := answers[key := Some(option)];
      customAnswers := customAnswers[key := ""];
    }

    /** `handleCustomAnswerChange`: typing free text records it and drops
        that question's chosen option. */
    method CustomAnswerChange(key: string, value: string)
      requires Valid()
      modifies this
      ensures Valid()
      ensures customAnswers == old(customAnswers)[key := value]
      ensures answers == old(answers)[key := None]
      ensures result == old(result) && pendingResult == old(pendingResult)
      ensures isLoading == old(isLoading) && error == old(error)
    {
      customAnswers := customAnswers[key := value];
      answers := answers[key := None];
    }

    /** `handleSubmit` up to its `await`. An incomplete questionnaire only
        sets the error; otherwise loading starts, the error and both result
        slots are cleared, and the merged answers are what is sent. */
    method Submit() returns (sent: Option<map<string, string>>)
      requires Valid()
      modifies this
      ensures Valid()
      ensures !IsComplete(old(answers), old(customAnswers)) ==>
        sent == None && error == Some(IncompleteMessage) &&
        result == old(result) && pendingResult == old(pendingResult) && isLoading == old(isLoading)
      ensures IsComplete(old(answers), old(customAnswers)) ==>
        sent == Some(Merged(old(answers), old(customAnswers))) &&
        isLoading && error == None && result == None && pendingResult == None
      ensures answers == old(answers) && customAnswers == old(customAnswers)
    {
      if !IsComplete(answers, customAnswers) {
        error := Some(IncompleteMessage);
        return None;
      }
      isLoading := true;
      error := None;
      result := None;
      pendingResult := None;
      var combined := CombineAnswers(answers, customAnswers);
      sent := Some(combined);
    }

    /** The rest of `handleSubmit`, given whether the user was signed in when
        the submit ran. A signed-in user's analysis becomes the result; any
        other user's waits in the pending slot and the shown result is left
        alone. A failure sets the fixed message. Loading ends either way. */
    method Settle(isAuthenticated: bool, outcome: CallOutcome<DoshaAnalysisResult>)
      requires Valid()
      modifies this
      ensures Valid()
      ensures !isLoading
      ensures outcome.Returned? && isAuthenticated ==>
        result == Some(outcome.value) && pendingResult == old(pendingResult) && error == old(error)
      ensures outcome.Returned? && !isAuthenticated ==>
        pendingResult == Some(outcome.value) && result == old(result) && error == old(error)
      ensures outcome.Threw? ==>
        error == Some(FailedMessage) && result == old(result) && pendingResult == old(pendingResult)
      ensures answers == old(answers) && customAnswers == old(customAnswers)
    {
      match outcome {
        case Returned(analysis) =>
          if isAuthenticated {
            result := Some(analysis);
          } else {
            pendingResult := Some(analysis);
          }
        case Threw(_, _) =>
          error := Some(FailedMessage);
      }
      isLoading := false;
    }

    /** The effect on `[isAuthenticated, pendingResult]`: once the user is
        signed in, a pending result is shown and the pending slot emptied;
        otherwise nothing changes. */
    method PromotePending(isAuthenticated: bool)
      requires Valid()
      modifies this
      ensures Valid()
      ensures isAuthenticated && old(pendingResult).Some? ==>
        result == old(pendingResult) && pendingResult == None
      ensures !(isAuthenticated && old(pendingResult).Some?) ==>
        result == old(result) && pendingResult == old(pendingResult)
      ensures answers == old(answers) && customAnswers == old(customAnswers)
      ensures isLoading == old(isLoading) && error == old(error)
    {
      if isAuthenticated && pendingResult.Some? {
        result := pendingResult;
        pendingResult := None;
      }
    }

    /** The Start Over button: both result slots and both answer maps are
        emptied; loading and error are untouched. */
    method StartOver()
      modifies this
      ensures Valid()
      ensures result == None && pendingResult == None && answers == map[] && customAnswers == map[]
      ensures isLoading == old(isLoading) && error == old(error)
    {
      result := None;
      pendingResult := None;
      answers := map[];
      customAnswers := map[];
    }
  }
}
