/** The closed set of tasks the SDK offers (`ModelTask`), the model each one loads
    (`MODEL_MAP`), the label the inference engine knows it by, and the options
    `run` passes with each. */
module Tasks {

  datatype Task = SentimentAnalysis | Generation | FeatureExtraction

  /** The task's name as the SDK's callers write it. */
  function TaskName(t: Task): (name: string)
  {
    match t
    case SentimentAnalysis => "sentiment-analysis"
    case Generation => "generation"
    case FeatureExtraction => "feature-extraction"
  }

  /** `MODEL_MAP`: the model repository each task loads. */
  function ModelName(t: Task): (model: string)
  {
    match t
    case SentimentAnalysis => "Xenova/distilbert-base-uncased-finetuned-sst-2-english"
    case Generation => "Xenova/LaMini-Flan-T5-77M"
    case FeatureExtraction => "Xenova/all-MiniLM-L6-v2"
  }

  /** The task label handed to the inference engine: generation is a
      text-to-text generation pipeline there, the other tasks keep their names. */
  function EngineLabel(t: Task): (engineTask: string)
  {
    if t == Generation then "text2text-generation" else TaskName(t)
  }

  /** The options object `run` passes to a pipeline. */
  datatype RunOptions =
    | GenerationOptions(maxNewTokens: nat, temperature: real, repetitionPenalty: real)
    | ExtractionOptions(pooling: string, normalize: bool)
    | NoOptions

  /** The fixed options for each task. */
  function OptionsFor(t: Task): (options: RunOptions)
  {
    match t
    case Generation => GenerationOptions(128, 0.1, 1.2)
    case FeatureExtraction => ExtractionOptions("mean", true)
    case SentimentAnalysis => NoOptions
  }

  /** Distinct tasks reach the engine under distinct labels, and only generation is renamed. */
  lemma EngineLabelsIdentifyTasks(a: Task, b: Task)
    ensures EngineLabel(a) == EngineLabel(b) <==> a == b
    ensures EngineLabel(a) == TaskName(a) <==> a != Generation
  {
  }
}
