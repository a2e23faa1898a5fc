/** The record the external model returns for one identification, as its
    output schema declares it.  The routes and the history store only carry
    it around; nothing in the core inspects its fields. */
module Identification {
  import opened JsValues

  /** Per-attribute confidence scores, each optional (0 to 1 by convention). */
  datatype ConfidenceScores = ConfidenceScores(
    plantName: Option<real>,
    organName: Option<real>,
    speciesName: Option<real>,
    healthStatus: Option<real>,
    isPlant: Option<real>)

  /** The identification result; a `nullish` field of the schema is `None`
      both when it is `null` and when it is absent. */
  datatype IdentifyOutput = IdentifyOutput(
    isPlant: bool,
    plantName: string,
    organName: string,
    speciesName: string,
    healthStatus: string,
    disease: Option<string>,
    isEdible: Option<bool>,
    edibilityDetails: Option<string>,
    medicinalUses: Option<string>,
    confidenceScores: Option<ConfidenceScores>)

  /** The record the question-answering model returns. */
  datatype AnswerOutput = AnswerOutput(answer: string)
}
