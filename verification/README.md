# orbit-sdk core, modelled in Dafny

orbit-sdk is a small client-side SDK. It wraps a machine-learning inference library and
offers three tasks: sentiment analysis, text generation and feature extraction. It also
has a small vector memory used for retrieval-augmented question answering. This project
models the logic of `src/index.ts` that the SDK itself owns:

- **Model manager (`OrbitSDK`).** The pipeline cache is a `map<Task, H>` over the closed
  task type, where `H` is an opaque handle. `LoadModel` either hits the cache or asks the
  library for exactly one new pipeline. It translates `generation` to the engine label
  `text2text-generation` and takes the model name from `MODEL_MAP`. `Run` throws the
  not-initialized error for a task that is not loaded. Otherwise it invokes the cached
  handle with that task's fixed options.
- **Memory store (`OrbitMemory`).** The bank is a `seq<MemoryRecord>`. `Add` appends one
  record and returns its id. `Search` scores every record against the query's embedding,
  sorts by non-increasing score and keeps `slice(0, topK)`.
- **Question answering (`OrbitSDK.ask`, module `Rag`).** It retrieves up to three facts, builds
  the prompt `Question: …\nContext:\n- …\nAnswer:`, generates, and takes the first
  `generated_text`. If there is none, it returns the fixed answer
  "I couldn't generate an answer.". In the source, `OrbitSDK` and `OrbitMemory` call each
  other. Dafny modules cannot be cyclic, so `ask` has a module of its own on top of both.

The model is pure functions over immutable values. Every call into code the SDK does not
own is a field of `Host.Host<H, R>`, a datatype of function values passed in as a
parameter. Those calls are:

- `pipeline(...)`, the library's pipeline factory;
- `pipe(text, options)`, running a pipeline;
- `Array.from(output.data)`, reading a tensor's data;
- the shape of a generation result;
- the similarity score.

Each operation returns the pipeline cache it leaves, so the cache is threaded from call to
call. `LoadModel` also returns the pipeline request it issued, or `None`, which makes
"no pipeline is created on a cache hit" a statement about its result.

Modules: `Results` (Option/Result), `Text` (JavaScript `join`/`split`), `Tasks`,
`Pipelines`, `Host`, `Ranking`, `Memory`, `Rag`.

## Model

| member | source | states |
|---|---|---|
| Pipelines.LoadModel | src/index.ts:27-47 | On a hit it returns the cached handle, leaves the cache as it was and requests no pipeline. On a miss it requests exactly one pipeline, with the task's engine label and `MODEL_MAP` model, and stores the returned handle under that task. Either way the keys become the old keys plus the task, and no existing handle is replaced. |
| Pipelines.LoadModelTwice | src/index.ts:28-30 | A second `loadModel` of the same task is a hit: it returns the first call's handle and creates nothing. |
| Pipelines.LoadAllCreatesEachPipelineOnce | src/index.ts:27-47 | In any sequence of `loadModel` calls, a pipeline is created exactly for the tasks that were requested but not already loaded, and for no task twice. The final cache holds exactly the old and the requested tasks, and no earlier handle is changed: the cache only moves from unloaded to loaded. |
| Tasks.EngineLabelsIdentifyTasks | src/index.ts:32-38 | Distinct tasks reach the engine under distinct labels. A task keeps its own name as the label exactly when it is not `generation`. |
| Pipelines.MessageNamesTask | src/index.ts:52 | The not-initialized message starts with `Pipeline for task "`. It then carries the task name, and it ends by telling the caller to run `loadModel("<task>")`. |
| Pipelines.MessageIdentifiesTask | src/index.ts:52 | Two not-initialized messages are equal exactly when they are about the same task. |
| Pipelines.RunRequest | src/index.ts:49-66 | It fails, with the error naming the task, exactly when the task has no cached handle, and then no pipeline is invoked. Otherwise it invokes the cached handle on the text with the task's options: 128 new tokens, temperature 0.1 and repetition penalty 1.2 for generation; mean pooling with normalisation for feature extraction; no options for sentiment analysis. |
| Pipelines.Run | src/index.ts:49-68 | It fails exactly when the task is not loaded, with the not-initialized error for that task. Otherwise it returns the pipeline's raw result, unchanged. |
| Pipelines.RunAfterLoad | src/index.ts:45-53 | After `loadModel(task)`, `run(task, …)` cannot fail and goes to the handle `loadModel` returned. |
| Memory.Embed | src/index.ts:147-151 | The feature-extraction pipeline is loaded afterwards, and it is loaded only if it was missing. The vector is the tensor data of running the text through that pipeline with mean pooling and normalisation. The cache it leaves is exactly the one `loadModel('feature-extraction')` leaves: on a miss, that is a pipeline created for `feature-extraction` with its `MODEL_MAP` model, stored under that task. |
| Ranking.Insert | src/index.ts:175 | Inserting into a ranked sequence keeps it ranked by non-increasing score and adds exactly that hit (multiset). |
| Ranking.SortByScore | src/index.ts:175 | The sorted hits are a permutation of the input and never increase in score. |
| Ranking.PrefixDominates | src/index.ts:175-176 | In a ranked sequence, every hit of a prefix scores at least as much as every hit after it. |
| Ranking.TopK | src/index.ts:175-176 | Sort then `slice(0, k)`. The result has the length JavaScript's `slice` gives, including negative `k`. It is ranked and is a sub-multiset of the input. No hit left out scores more than a hit kept. When `k` is at least the input length, every hit is kept. |
| Memory.ScoresFromBank | src/index.ts:169-173 | Every scored hit is `(id, text, similarity(query, embedding))` of some record of the bank. |
| Memory.Rank | src/index.ts:169-176 | At most `topK` hits for a non-negative `topK`, and none for an empty bank. The hits are ranked by non-increasing score. Each is the id, text and score of a bank record. No record left out outscores a hit returned. When `topK` is at least the bank size, every record is returned. |
| Memory.Search | src/index.ts:161-177 | The feature-extraction pipeline is loaded afterwards and no handle is replaced. There are as many hits as `slice(0, topK)` keeps of the bank, so at most `topK` for a non-negative `topK`. The hits are ranked by non-increasing score and each carries the id and text of a bank record. They are the ranking of the bank against the query's embedding. The cache it leaves is exactly the one embedding the query leaves. |
| Memory.SearchDefault | src/index.ts:161 | `search(query)` without `topK` is `search(query, 3)`, and returns `min(3, bank size)` hits. |
| Memory.Add | src/index.ts:144-159 | It returns the given id. The old records stay in place and in order. Exactly one record is appended: that id, the text and the text's embedding. |
| Memory.TopHitIsBest | src/index.ts:169-176 | With `topK >= 1` and a non-empty bank, the first hit scores at least as much as every record of the bank. |
| Memory.SelfMatchTopsRank | src/index.ts:169-176 | Assume no vector is more similar to anything than to itself, and the bank holds a record whose embedding is the query. Then the top hit scores the query's self-similarity, and no record scores more. |
| Memory.AddThenSearchTopsWithOwnScore | src/index.ts:144-177 | Add a text, then search for the same text with `topK >= 1`. Assume no vector is more similar to anything than to itself. Then the top hit scores exactly the new record's self-similarity, and no record scores more. |
| Text.SplitJoin | src/index.ts:76 | Splitting joined lines on the separator gives the lines back when none of them contains it. |
| Text.JoinSplit | src/index.ts:76 | Joining the pieces of a split gives the text back. |
| Rag.PromptLines | src/index.ts:76-79 | Read line by line, the prompt is `Question: <q>`, `Context:`, one `- <text>` line per fact in the order given (one empty line if there are no facts), then `Answer:`. This holds when neither the question nor any fact spans lines. |
| Rag.ExtractAnswer | src/index.ts:88-92 | The answer is the first element's `generated_text` when the result is a non-empty array whose first `generated_text` is truthy (present and non-empty). Otherwise it is the fixed fallback string. The answer is never empty. |
| Rag.Generate | src/index.ts:81-92 | The generation pipeline is loaded afterwards. The answer is extracted from running the prompt through it with the generation options. The cache it leaves is exactly the one `loadModel('generation')` leaves: on a miss, that is a pipeline created under the engine label `text2text-generation` with the generation model. |
| Rag.Ask | src/index.ts:70-93 | The facts are exactly the hits of `search(question, 3)`, in the order it returns them. So there are `min(3, bank size)` of them, ranked by non-increasing similarity to the question's embedding. Each is the id, text and score of a bank record, and no record left out scores more than a fact kept. The prompt is built from exactly those facts in that order. Afterwards the loaded pipelines are exactly the earlier ones plus feature extraction and generation, and none is replaced. The answer is extracted from the generation pipeline's result on that prompt. The cache is exactly the one `search` and then the generation step leave, so every handle is the one `loadModel` would create. |
| Rag.PromptListsFacts | src/index.ts:76-79 | For a one-line question and one-line facts, the prompt's first line is `Question: <q>` and line `2 + k` is `- ` followed by the `k`-th fact's text. |
| Rag.AskPromptListsFacts | src/index.ts:70-79 | When the question and every stored text fit on one line, line `2 + k` of the prompt `ask` sends is `- ` followed by the `k`-th retrieved fact. So every retrieved fact reaches the model, in rank order. |

## Left out

- `cosineSimilarity` is floating-point arithmetic with `Math.sqrt`. It gives NaN on zero vectors and garbage on vectors of unequal length. The model replaces it with an abstract `similarity` into `real`, a total order. It does not model NaN, which would break the ordering of JavaScript's sort. Symmetry of cosine similarity is not stated.
- The inference library's `pipeline(...)` factory and the pipelines it returns are uninterpreted functions of `Host.Host`. So are reading a tensor's `data` and the shape of a generation result. A failure inside them (model fetch, tokenisation) is not modelled. The progress callback of `loadModel` is not modelled either.
- `saveToDisk`/`loadFromDisk` are `localStorage` and `JSON` persistence, which is host I/O; the model starts from a given bank. The storage key `orbit_memory_v1` and the swallowed storage errors are left out with them.
- `Date.now()` ids: `Add` takes the id as a parameter. Uniqueness of ids is not modelled, and neither is it guaranteed by the source.
- `getInstance` singletons, `async`/`await` interleavings and concurrent double loading of a pipeline are concurrency concerns. The model is sequential.
- `env.allowLocalModels` is library configuration.
- `search`'s `topK` is an integer in the model. A non-integer JavaScript number is not modelled.
- `generated_text` is modelled as an optional string. A non-string truthy value, or a `null` first element (on which the source would throw), is not modelled.
- Ranking.SortByScore: the order among hits of equal score is not stated. The definition is a stable insertion sort, as JavaScript's sort is stable, but only sortedness and permutation are proved.
- Memory.AddThenSearchTopsWithOwnScore: says the top hit has the new record's score, not that it is the new record. With a stable sort, an older record with an equally scoring embedding comes first, so the stronger claim does not hold of the code.
- `Tasks.OptionsFor` uses the exact decimals 0.1 and 1.2, where JavaScript uses their nearest doubles.
