/**
 * The immutable record a successful analysis produces, and the five keys the
 * model's JSON answer must carry, in the order they are checked.
 */
module StyleAnalysis {
  import opened Wrappers

  /** outfitSuggestion is None where PHP holds null. */
  datatype StyleAnalysisResult = StyleAnalysisResult(
    objectiveDescription: string,
    styleAnalysis: string,
    isStyleMatch: bool,
    outfitSuggestion: Option<string>,
    occasionAnalysis: string)

  const RequiredKeys: seq<string> :=
    ["objectiveDescription", "styleAnalysis", "isStyleMatch", "outfitSuggestion", "occasionAnalysis"]
}
