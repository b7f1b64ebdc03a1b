/** The model manager's pipeline cache (`OrbitSDK.loadModel` and `OrbitSDK.run`).
    A task's pipeline goes from unloaded to loaded and never back: the cache only grows,
    and an entry, once present, is never replaced. Pipeline creation and invocation
    belong to the inference library and are passed in as functions. */
module Pipelines {
  import opened Results
  import opened Tasks

  /** The loaded pipelines, at most one handle per task. */
  type Cache<H> = map<Task, H>

  /** `c2` keeps every pipeline `c` had, with the same handle. */
  ghost predicate Extends<H>(c: Cache<H>, c2: Cache<H>)
  {
    forall t :: t in c ==> t in c2 && c2[t] == c[t]
  }

  /** The arguments of one call to the inference library's `pipeline` factory. */
  datatype PipelineRequest = PipelineRequest(engineTask: string, model: string)

  /** What `loadModel` returns, the cache it leaves, and the pipeline it asked the
      library to create (`None` on a cache hit). */
  datatype Loaded<H> = Loaded(handle: H, cache: Cache<H>, request: Option<PipelineRequest>)

  /** `loadModel(task)`: the cached handle on a hit; otherwise a new pipeline for the
      task's engine label and model, stored under the task. */
  function LoadModel<H>(cache: Cache<H>, task: Task, create: (string, string) -> H): (r: Loaded<H>)
    ensures r.request.None? <==> task in cache
    ensures task in cache ==> r.handle == cache[task] && r.cache == cache
    ensures r.request.Some? ==>
              && r.request.value == PipelineRequest(EngineLabel(task), ModelName(task))
              && r.handle == create(EngineLabel(task), ModelName(task))
    ensures task in r.cache && r.cache[task] == r.handle
    ensures r.cache.Keys == cache.Keys + {task}
    ensures Extends(cache, r.cache)
  {
    if task in cache then Loaded(cache[task], cache, None)
    else
      var request := PipelineRequest(EngineLabel(task), ModelName(task));
      var handle := create(request.engineTask, request.model);
      Loaded(handle, cache[task := handle], Some(request))
  }

  /** Loading the same task twice: the second call is a hit that returns the first
      call's handle and creates nothing. */
  lemma LoadModelTwice<H>(cache: Cache<H>, task: Task, create: (string, string) -> H)
    ensures var first := LoadModel(cache, task, create);
            LoadModel(first.cache, task, create) == Loaded(first.handle, first.cache, None)
  {
  }

  /** Two loads in turn leave the tasks loaded before plus the two loaded. */
  lemma LoadedInTurn<H>(c0: Cache<H>, c1: Cache<H>, c2: Cache<H>, a: Task, b: Task)
    requires c1.Keys == c0.Keys + {a} && c2.Keys == c1.Keys + {b}
    ensures c2.Keys == c0.Keys + {a, b}
  {
  }

  /** Loading a sequence of tasks in turn: the final cache and the tasks for which a
      pipeline was created, in creation order. */
  function LoadAll<H>(cache: Cache<H>, tasks: seq<Task>, create: (string, string) -> H): (r: (Cache<H>, seq<Task>))
    decreases |tasks|
  {
    if |tasks| == 0 then (cache, [])
    else
      var step := LoadModel(cache, tasks[0], create);
      var rest := LoadAll(step.cache, tasks[1..], create);
      (rest.0, (if step.request.Some? then [tasks[0]] else []) + rest.1)
  }

  /** However often tasks are loaded, a pipeline is created once for each task that was
      not already loaded and never for any other, and no loaded handle is replaced. */
  lemma {:induction false} LoadAllCreatesEachPipelineOnce<H>(cache: Cache<H>, tasks: seq<Task>, create: (string, string) -> H)
    ensures var (final, created) := LoadAll(cache, tasks, create);
            && Extends(cache, final)
            && (forall t :: t in final <==> t in cache || t in tasks)
            && (forall t :: t in created <==> t in tasks && t !in cache)
            && (forall i, j :: 0 <= i < j < |created| ==> created[i] != created[j])
    decreases |tasks|
  {
    if |tasks| > 0 {
      var step := LoadModel(cache, tasks[0], create);
      LoadAllCreatesEachPipelineOnce(step.cache, tasks[1..], create);
      assert tasks == [tasks[0]] + tasks[1..];
    }
  }

  /** The error `run` throws for a task whose pipeline was never loaded. */
  datatype RunError = NotInitialized(task: Task)

  /** The error's message text. */
  function Message(e: RunError): (message: string)
  {
    var name := TaskName(e.task);
    MessageHead + name + MessageMiddle + name + MessageTail
  }

  const MessageHead := "Pipeline for task \""
  const MessageMiddle := "\" not initialized. Call loadModel(\""
  const MessageTail := "\") first."

  /** The call the message tells the caller to make, up to the task name. */
  const LoadModelCall := "loadModel(\""

  /** The message names the task twice: once quoted after the head, and once as the
      argument of the `loadModel` call it tells the caller to make. */
  lemma MessageNamesTask(e: RunError)
    ensures var m, name := Message(e), TaskName(e.task);
            && m[..|MessageHead|] == MessageHead
            && m[|MessageHead|..|MessageHead| + |name|] == name
            && m[|m| - |MessageTail| - |name| - |LoadModelCall|..|m| - |MessageTail| - |name|] == LoadModelCall
            && m[|m| - |MessageTail| - |name|..|m| - |MessageTail|] == name
  {
    var name := TaskName(e.task);
    var m := Message(e);
    var a := MessageHead + name;
    var b := a + MessageMiddle;
    var c := b + name;
    assert m == c + MessageTail;
    assert m[..|c|] == c;
    assert m[|b|..|c|] == c[|b|..] == name;
    assert |MessageMiddle| == 35 && MessageMiddle[24..] == LoadModelCall;
    assert m[|b| - |LoadModelCall|..|b|] == b[|b| - |LoadModelCall|..] == LoadModelCall;
    assert m[..|a|] == a;
    assert a[..|MessageHead|] == MessageHead;
  }

  /** Different tasks give different messages. */
  lemma MessageIdentifiesTask(e: RunError, other: RunError)
    ensures Message(e) == Message(other) <==> e == other
  {
    if e.task != other.task {
      MessageNamesTask(e);
      MessageNamesTask(other);
      var a, b := TaskName(e.task), TaskName(other.task);
      assert a[0] != b[0];
      assert Message(e)[|MessageHead|] == a[0];
      assert Message(other)[|MessageHead|] == b[0];
    }
  }

  /** The arguments of one invocation of a loaded pipeline. */
  datatype Invocation<H> = Invocation(handle: H, text: string, options: RunOptions)

  /** What `run(task, text)` asks of the pipeline, or the error it throws before
      invoking anything. */
  function RunRequest<H>(cache: Cache<H>, task: Task, text: string): (r: Result<Invocation<H>, RunError>)
    ensures r.Failure? <==> task !in cache
    ensures r.Failure? ==> r.error == NotInitialized(task)
    ensures r.Success? ==> r.value.handle == cache[task] && r.value.text == text
    ensures r.Success? && task == Generation ==> r.value.options == GenerationOptions(128, 0.1, 1.2)
    ensures r.Success? && task == FeatureExtraction ==> r.value.options == ExtractionOptions("mean", true)
    ensures r.Success? && task == SentimentAnalysis ==> r.value.options == NoOptions
  {
    if task !in cache then Failure(NotInitialized(task))
    else Success(Invocation(cache[task], text, OptionsFor(task)))
  }

  /** `run(task, text)`: the pipeline's raw result, unchanged, or the not-initialized error. */
  function Run<H, R>(cache: Cache<H>, task: Task, text: string, invoke: (H, string, RunOptions) -> R): (r: Result<R, RunError>)
    ensures r.Failure? <==> task !in cache
    ensures r.Failure? ==> r.error == NotInitialized(task)
    ensures r.Success? ==> r.value == invoke(cache[task], text, OptionsFor(task))
  {
    match RunRequest(cache, task, text)
    case Failure(e) => Failure(e)
    case Success(call) => Success(invoke(call.handle, call.text, call.options))
  }

  /** After `loadModel(task)`, `run(task, …)` cannot fail and goes to the handle just returned. */
  lemma RunAfterLoad<H, R>(cache: Cache<H>, task: Task, text: string, create: (string, string) -> H, invoke: (H, string, RunOptions) -> R)
    ensures var loaded := LoadModel(cache, task, create);
            Run(loaded.cache, task, text, invoke) == Success(invoke(loaded.handle, text, OptionsFor(task)))
  {
  }
}
