/** The result records the client renders and the lab request it sends. The
    first five mirror `src/types.ts`; the dosha records are used by the dosha
    components but declared nowhere in the sources, so their fields are the
    ones those components read. Optional TypeScript members are `Option`s. */
module Types {
  import opened Common

  datatype HerbSuggestion = HerbSuggestion(
    name: string, summary: string, dosage: string, form: string, sideEffects: string)

  datatype LifestyleSuggestion = LifestyleSuggestion(
    suggestion: string, details: string, duration: string, source: string)

  datatype MedicineAnalysisResult = MedicineAnalysisResult(
    drugSummary: Option<string>,
    herbSuggestions: Option<seq<HerbSuggestion>>,
    lifestyleSuggestions: Option<seq<LifestyleSuggestion>>,
    error: Option<string>)

  datatype LabFindingAnalysis = LabFindingAnalysis(
    parameter: string, status: string, summary: string,
    herbSuggestions: seq<HerbSuggestion>,
    lifestyleSuggestions: seq<LifestyleSuggestion>)

  datatype LabAnalysisResult = LabAnalysisResult(
    findings: Option<seq<LabFindingAnalysis>>, error: Option<string>)

  /** A herb as the dosha result lists it. */
  datatype DoshaHerbSuggestion = DoshaHerbSuggestion(
    name: string, benefits: string, usage: string, source: string)

  /** A lifestyle item as the dosha result lists it. */
  datatype DoshaLifestyleSuggestion = DoshaLifestyleSuggestion(
    suggestion: string, reasoning: string, source: string)

  datatype DoshaAnalysisResult = DoshaAnalysisResult(
    dominantDosha: string, doshaDescription: string,
    herbSuggestions: Option<seq<DoshaHerbSuggestion>>,
    lifestyleSuggestions: Option<seq<DoshaLifestyleSuggestion>>)

  /** The image part of a lab request; `data` is missing when the data URL
      had no comma to split at. */
  datatype ImagePart = ImagePart(mimeType: string, data: Option<string>)

  /** The `input` of a lab request: text and/or an inlined image. */
  datatype LabInput = LabInput(text: Option<string>, image: Option<ImagePart>)
}
