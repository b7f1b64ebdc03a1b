/** Everything the SDK obtains from code it does not own, as functions the model
    takes as parameters: the inference library's pipeline factory and pipelines, the
    shape of their results, and the similarity score. */
module Host {
  import opened Results
  import opened Tasks

  /** One element of a text-generation result; `generatedText` is `None` when the
      element has no `generated_text` field. */
  datatype GenerationItem = GenerationItem(generatedText: Option<string>)

  /** A generation result as `ask` inspects it: an array of items, or something else. */
  datatype GenerationOutput = NotAnArray | Items(items: seq<GenerationItem>)

  /** `H` is a loaded pipeline handle and `R` a raw pipeline result.
      - `pipeline(engineTask, model)` creates a pipeline (the progress callback is not modelled);
      - `invoke(handle, text, options)` runs one;
      - `tensorData(result)` is `Array.from(result.data)`, a feature-extraction result's vector;
      - `generations(result)` is how a generation result looks to `ask`;
      - `similarity(query, embedding)` stands for `cosineSimilarity`. */
  datatype Host<!H, !R> = Host(
    pipeline: (string, string) -> H,
    invoke: (H, string, RunOptions) -> R,
    tensorData: R -> seq<real>,
    generations: R -> GenerationOutput,
    similarity: (seq<real>, seq<real>) -> real)
}
