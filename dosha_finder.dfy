/** The dosha questionnaire: its sections of questions, the completeness
    count, the answer map the form updates, the submit and its settled
    outcome, and the text it builds for sharing. */
module DoshaFinder {
  import opened Common
  import opened Text
  import opened Types

  /** A section of the questionnaire: its heading and the keys its
      questions are stored under. */
  datatype Section = Section(title: string, keys: seq<string>)

  const Questions: seq<Section> := [
    Section("Physical Constitution", ["frame", "skin", "hair"]),
    Section("Metabolism & Digestion", ["appetite", "digestion", "temperature"]),
    Section("Mind & Energy", ["mind", "stress", "sleep", "energy"])
  ]

  const IncompleteMessage := "Please answer all questions to get your analysis."
  const FailurePrefix := "Failed to get analysis. Please check your connection or try again later. Server response: "

  /** `questions.reduce((sum, section) => sum + section.items.length, 0)`. */
  function TotalQuestions(sections: seq<Section>): nat {
    if sections == [] then 0 else TotalQuestions(sections[..|sections| - 1]) + |sections[|sections| - 1].keys|
  }

  /** Every key some section asks about. */
  function QuestionKeys(sections: seq<Section>): set<string> {
    if sections == [] then {} else QuestionKeys(sections[..|sections| - 1]) + Elements(sections[|sections| - 1].keys)
  }

  function Elements(keys: seq<string>): set<string> {
    if keys == [] then {} else Elements(keys[..|keys| - 1]) + {keys[|keys| - 1]}
  }

  /** The questionnaire has ten questions under ten distinct keys. */
  lemma QuestionCount()
    ensures TotalQuestions(Questions) == 10
    ensures QuestionKeys(Questions) == {"frame", "skin", "hair", "appetite", "digestion", "temperature",
                                        "mind", "stress", "sleep", "energy"}
    ensures |QuestionKeys(Questions)| == 10
  {
    SectionsCount();
    TenKeys();
  }

  lemma SectionsCount()
    ensures TotalQuestions(Questions) == 10
    ensures QuestionKeys(Questions) == {"frame", "skin", "hair", "appetite", "digestion", "temperature",
                                        "mind", "stress", "sleep", "energy"}
  {
    var s1, s2 := Questions[..1], Questions[..2];
    assert s1[..0] == [];
    assert s2[..1] == s1;
    assert Questions[..2] == s2;
    assert TotalQuestions(s1) == 3;
    assert TotalQuestions(s2) == 6;
    ThreeElements(Questions[0].keys);
    ThreeElements(Questions[1].keys);
    var k3 := Questions[2].keys;
    ThreeElements(k3[..3]);
    assert k3[..3][..2] == k3[..2];
    assert Elements(k3) == Elements(k3[..3]) + {k3[3]};
    assert QuestionKeys(s1) == Elements(Questions[0].keys);
    assert QuestionKeys(s2) == Elements(Questions[0].keys) + Elements(Questions[1].keys);
  }

  lemma TenKeys()
    ensures |{"frame", "skin", "hair", "appetite", "digestion", "temperature", "mind", "stress", "sleep", "energy"}| == 10
  {
  }

  lemma ThreeElements(keys: seq<string>)
    requires |keys| == 3
    ensures Elements(keys) == {keys[0], keys[1], keys[2]}
  {
    assert keys[..2][..1] == keys[..1];
    assert keys[..1][..0] == [];
    assert Elements(keys[..1]) == {keys[0]};
    assert Elements(keys[..2]) == {keys[0], keys[1]};
    assert keys[..3] == keys;
  }

  /** `answeredQuestions === totalQuestions`. */
  predicate IsComplete(answers: map<string, string>) {
    |answers.Keys| == TotalQuestions(Questions)
  }

  lemma {:induction false} SubsetOfSameSize<T>(a: set<T>, b: set<T>)
    requires a <= b && |a| == |b|
    ensures a == b
    decreases |a|
  {
    if a != {} {
      var x :| x in a;
      SubsetOfSameSize(a - {x}, b - {x});
      assert a == (a - {x}) + {x};
      assert b == (b - {x}) + {x};
    }
  }

  /** Counting answered keys is the same as asking that every question is
      answered, as long as only question keys are ever stored. */
  lemma CompleteIffAllAnswered(answers: map<string, string>)
    requires answers.Keys <= QuestionKeys(Questions)
    ensures IsComplete(answers) <==> QuestionKeys(Questions) <= answers.Keys
  {
    QuestionCount();
    if IsComplete(answers) {
      SubsetOfSameSize(answers.Keys, QuestionKeys(Questions));
    }
    if QuestionKeys(Questions) <= answers.Keys {
      assert answers.Keys == QuestionKeys(Questions);
    }
  }

  // ---------------------------------------------------------------------
  // The share text

  const Title := "AyurConnect AI - My Dosha Analysis"
  const RuleLine := "\n------------------------\n\n"
  const HerbsHeading := "Recommended Herbs:\n"
  const LifestyleHeading := "Lifestyle Recommendations:\n"
  const Disclaimer := "Disclaimer: This tool provides information for educational purposes only and is not a substitute for professional medical advice. Always consult with a qualified healthcare provider."

  function HerbBlock(h: DoshaHerbSuggestion): string {
    ("- " + h.name + ":\n") +
    ("  Benefits: " + h.benefits + "\n") +
    ("  Usage: " + h.usage + "\n") +
    ("  Source: " + h.source + "\n\n")
  }

  function LifestyleBlock(l: DoshaLifestyleSuggestion): string {
    ("- " + l.suggestion + ":\n") +
    ("  Reasoning: " + l.reasoning + "\n") +
    ("  Source: " + l.source + "\n\n")
  }

  /** The dominant dosha, then what it is. */
  function Overview(r: DoshaAnalysisResult): string {
    ("Dominant Dosha: " + r.dominantDosha + "\n\n") +
    ("About " + r.dominantDosha + ":\n" + r.doshaDescription + "\n\n")
  }

  function HerbSection(herbs: Option<seq<DoshaHerbSuggestion>>): string {
    ListSection(HerbsHeading, HerbBlock, herbs)
  }

  function LifestyleSection(items: Option<seq<DoshaLifestyleSuggestion>>): string {
    ListSection(LifestyleHeading, LifestyleBlock, items)
  }

  /** The text accumulated before the final `trim`, in the order it is appended. */
  function ShareDraft(r: DoshaAnalysisResult): string {
    Title + RuleLine + Overview(r) + HerbSection(r.herbSuggestions) + LifestyleSection(r.lifestyleSuggestions) + Disclaimer
  }

  function ShareText(result: Option<DoshaAnalysisResult>): string {
    if result.None? then "" else Trim(ShareDraft(result.value))
  }

  /** Without a result the text is empty; with one it is the draft itself:
      it starts with the header's title and ends with the disclaimer, neither
      of which is blank at the outer end, so trimming removes nothing. */
  lemma ShareTextCases(result: Option<DoshaAnalysisResult>)
    ensures result.None? ==> ShareText(result) == ""
    ensures result.Some? ==> ShareText(result) == ShareDraft(result.value)
    ensures result.Some? ==>
      var text := ShareText(result);
      |Disclaimer| <= |text| && text[|text| - |Disclaimer|..] == Disclaimer
  {
    if result.Some? {
      DraftUntouched(result.value);
    }
  }

  /** The draft opens with the title and closes with the disclaimer, so
      trimming leaves it as it is. */
  lemma DraftUntouched(r: DoshaAnalysisResult)
    ensures Trim(ShareDraft(r)) == ShareDraft(r)
    ensures |Disclaimer| <= |ShareDraft(r)| && ShareDraft(r)[|ShareDraft(r)| - |Disclaimer|..] == Disclaimer
  {
    var middle := RuleLine + Overview(r) + HerbSection(r.herbSuggestions) + LifestyleSection(r.lifestyleSuggestions);
    Regroup5(Title, RuleLine, Overview(r), HerbSection(r.herbSuggestions), LifestyleSection(r.lifestyleSuggestions),
      Disclaimer);
    TitleAndDisclaimerEnds();
    TrimAfterLead(Title, middle, Disclaimer);
    EndsWith(Title + middle, Disclaimer);
  }

  lemma TitleAndDisclaimerEnds()
    ensures Title != [] && !IsWhitespace(Title[0]) && !IsWhitespace(Title[|Title| - 1])
    ensures Disclaimer != [] && !IsWhitespace(Disclaimer[|Disclaimer| - 1])
  {
  }

  /** `formatDoshaResultForSharing`: nothing without a result; otherwise the
      header, the overview, each list section that has entries and the
      disclaimer, trimmed. */
  method FormatDoshaResultForSharing(result: Option<DoshaAnalysisResult>) returns (shared: string)
    ensures shared == ShareText(result)
  {
    if result.None? {
      return "";
    }
    var r := result.value;
    var text := Title + RuleLine;
    text := text + ("Dominant Dosha: " + r.dominantDosha + "\n\n");
    text := text + ("About " + r.dominantDosha + ":\n" + r.doshaDescription + "\n\n");
    AppendTwo(Title + RuleLine, "Dominant Dosha: " + r.dominantDosha + "\n\n",
      "About " + r.dominantDosha + ":\n" + r.doshaDescription + "\n\n");
    text := AppendListSection(text, HerbsHeading, HerbBlock, r.herbSuggestions);
    text := AppendListSection(text, LifestyleHeading, LifestyleBlock, r.lifestyleSuggestions);
    text := text + Disclaimer;
    return Trim(text);
  }

  // ---------------------------------------------------------------------
  // The component state

  /** The component's state hooks. */
  class State {
    var answers: map<string, string>
    var result: Option<DoshaAnalysisResult>
    var isLoading: bool
    var error: Option<string>

    /** Only question keys are ever stored: the radio buttons are the only
        writers of the answer map. */
    ghost predicate Valid()
      reads this
    {
      answers.Keys <= QuestionKeys(Questions)
    }

    constructor ()
      ensures Valid()
      ensures answers == map[] && result == None && !isLoading && error == None
    {
      answers := map[];
      result := None;
      isLoading := false;
      error := None;
    }

    /** `handleAnswerChange`, called by a question's radio button with that
        question's key: overwrites that key and no other. */
    method AnswerChange(key: string, value: string)
      requires Valid()
      requires key in QuestionKeys(Questions)
      modifies this
      ensures Valid()
      ensures answers == old(answers)[key := value]
      ensures forall k :: k in old(answers) && k != key ==> k in answers && answers[k] == old(answers)[k]
      ensures result == old(result) && isLoading == old(isLoading) && error == old(error)
    {
      answers := answers[key := value];
    }

    /** `handleSubmit` up to its `await`. An incomplete questionnaire sets the
        error and sends nothing; otherwise loading starts, error and result
        are cleared, and the answers are what is sent. */
    method Submit() returns (sent: Option<map<string, string>>)
      requires Valid()
      modifies this
      ensures Valid()
      ensures !IsComplete(old(answers)) ==>
        sent == None && error == Some(IncompleteMessage) && result == old(result) && isLoading == old(isLoading)
      ensures IsComplete(old(answers)) ==>
        sent == Some(old(answers)) && isLoading && error == None && result == None
      ensures answers == old(answers)
    {
      if !IsComplete(answers) {
        error := Some(IncompleteMessage);
        return None;
      }
      isLoading := true;
      error := None;
      result := None;
      sent := Some(answers);
    }

    /** The rest of `handleSubmit`: the analysis becomes the result as it
        came back, a failure shows the fixed prefix and the error's message,
        and loading ends either way. */
    method Settle(outcome: CallOutcome<Option<DoshaAnalysisResult>>)
      requires Valid()
      modifies this
      ensures Valid()
      ensures !isLoading
      ensures outcome.Returned? ==> result == outcome.value && error == old(error)
      ensures outcome.Threw? ==> error == Some(FailurePrefix + outcome.message) && result == old(result)
      ensures answers == old(answers)
    {
      match outcome {
        case Returned(analysis) =>
          result := analysis;
        case Threw(_, message) =>
          error := Some(FailurePrefix + message);
      }
      isLoading := false;
    }

    /** `handleReset`: forgets every answer and clears result, error and loading. */
    method Reset()
      modifies this
      ensures Valid()
      ensures answers == map[] && result == None && error == None && !isLoading
    {
      answers := map[];
      result := None;
      error := None;
      isLoading := false;
    }
  }
}
