/** Retrieval-augmented question answering (`OrbitSDK.ask`): retrieve the three facts
    most similar to the question, build the prompt from them, run the generation
    pipeline and take its first generated text, with a fixed fallback answer. */
module Rag {
  import opened Results
  import opened Text
  import opened Tasks
  import opened Pipelines
  import opened Host
  import opened Ranking
  import opened Memory

  /** How many facts `ask` retrieves. */
  const AskTopK := 3

  /** The answer when the generation result carries no usable text. */
  const Fallback := "I couldn't generate an answer."

  /** One context line per fact, `- <text>`, in the order given. */
  function Bullets(facts: seq<Hit>): (lines: seq<string>)
  {
    seq(|facts|, i requires 0 <= i < |facts| => "- " + facts[i].text)
  }

  /** The context block: the bullet lines joined by newlines ("" for no facts). */
  function Context(facts: seq<Hit>): (context: string)
  {
    Join(Bullets(facts), '\n')
  }

  /** The prompt template `Question: <q>\nContext:\n<context>\nAnswer:`. */
  function Prompt(question: string, facts: seq<Hit>): (prompt: string)
  {
    "Question: " + question + "\nContext:\n" + Context(facts) + "\nAnswer:"
  }

  /** The lines the context block contributes to the prompt: one per fact, or a single
      empty line when there are none. */
  function ContextLines(facts: seq<Hit>): (lines: seq<string>)
  {
    if |facts| == 0 then [""] else Bullets(facts)
  }

  /** No fact's text contains a line break. */
  predicate SingleLineFacts(facts: seq<Hit>)
  {
    forall i :: 0 <= i < |facts| ==> '\n' !in facts[i].text
  }

  /** The prompt's lines before splitting: question, `Context:`, the context lines, `Answer:`. */
  function PromptLineList(question: string, facts: seq<Hit>): (lines: seq<string>)
  {
    ["Question: " + question, "Context:"] + ContextLines(facts) + ["Answer:"]
  }

  lemma PromptIsJoinedLines(question: string, facts: seq<Hit>)
    ensures Join(PromptLineList(question, facts), '\n') == Prompt(question, facts)
  {
    var middle := ContextLines(facts);
    var first := "Question: " + question;
    var context := Context(facts);
    assert Join(middle, '\n') == context;
    JoinFramed(first, "Context:", middle, "Answer:", '\n');
    assert "\nContext:\n" == ['\n'] + "Context:" + ['\n'];
    assert "\nAnswer:" == ['\n'] + "Answer:";
    assert Prompt(question, facts) == first + "\nContext:\n" + context + "\nAnswer:";
    assert first + "\nContext:\n" == first + ['\n'] + "Context:" + ['\n'];
  }

  lemma PromptLinesSingle(question: string, facts: seq<Hit>)
    requires '\n' !in question
    requires SingleLineFacts(facts)
    ensures SeparatorFree(PromptLineList(question, facts), '\n')
  {
  }

  /** Read line by line, the prompt is the question line, `Context:`, one `- <text>` line
      per fact in rank order, and `Answer:`, provided neither the question nor any fact
      spans several lines. */
  lemma PromptLines(question: string, facts: seq<Hit>)
    requires '\n' !in question
    requires SingleLineFacts(facts)
    ensures Split(Prompt(question, facts), '\n') == ["Question: " + question, "Context:"] + ContextLines(facts) + ["Answer:"]
  {
    PromptIsJoinedLines(question, facts);
    PromptLinesSingle(question, facts);
    SplitJoin(PromptLineList(question, facts), '\n');
  }

  /** JavaScript truthiness of a `generated_text` field: present and non-empty. */
  predicate Truthy(text: Option<string>)
  {
    text.Some? && text.value != ""
  }

  /** The result is a non-empty array whose first element has a truthy `generated_text`. */
  predicate HasAnswer(out: GenerationOutput)
  {
    out.Items? && |out.items| > 0 && Truthy(out.items[0].generatedText)
  }

  /** The answer `ask` takes from a generation result. */
  function ExtractAnswer(out: GenerationOutput): (answer: string)
    ensures answer != ""
    ensures HasAnswer(out) ==> answer == out.items[0].generatedText.value
    ensures !HasAnswer(out) ==> answer == Fallback
  {
    if HasAnswer(out) then out.items[0].generatedText.value else Fallback
  }

  /** The answer generated for a prompt and the pipeline cache left by generating it. */
  datatype Generated<H> = Generated(answer: string, cache: Cache<H>)

  /** Steps 4 and 5 of `ask`: load the generation pipeline, run the prompt through it
      with the generation options, and extract the answer. */
  function Generate<H, R>(cache: Cache<H>, prompt: string, host: Host<H, R>): (r: Generated<H>)
    ensures r.cache == LoadModel(cache, Generation, host.pipeline).cache
    ensures Generation in r.cache && Extends(cache, r.cache)
    ensures r.cache.Keys == cache.Keys + {Generation}
    ensures r.answer == ExtractAnswer(host.generations(host.invoke(r.cache[Generation], prompt, GenerationOptions(128, 0.1, 1.2))))
  {
    var generator := LoadModel(cache, Generation, host.pipeline);
    var output := Run(generator.cache, Generation, prompt, host.invoke).value;
    Generated(ExtractAnswer(host.generations(output)), generator.cache)
  }

  /** What `ask` returns, together with the facts it retrieved, the prompt it built and
      the pipeline cache it leaves. */
  datatype AskOutcome<H> = AskOutcome(answer: string, facts: seq<Hit>, prompt: string, cache: Cache<H>)

  /** `ask(question)` against the memory bank `bank`. */
  function Ask<H, R>(cache: Cache<H>, bank: Bank, question: string, host: Host<H, R>): (r: AskOutcome<H>)
    ensures r.facts == Search(cache, bank, question, AskTopK, host).hits
    ensures BestMatches(r.facts, bank, Embed(cache, question, host).vector, host.similarity)
    ensures |r.facts| == if |bank| < AskTopK then |bank| else AskTopK
    ensures Ranked(r.facts)
    ensures forall k :: 0 <= k < |r.facts| ==> StoredIn(r.facts[k], bank)
    ensures r.prompt == Prompt(question, r.facts)
    ensures Generation in r.cache && FeatureExtraction in r.cache && Extends(cache, r.cache)
    ensures r.cache.Keys == cache.Keys + {FeatureExtraction, Generation}
    ensures r.cache == Generate(Search(cache, bank, question, AskTopK, host).cache, r.prompt, host).cache
    ensures r.answer == ExtractAnswer(host.generations(host.invoke(r.cache[Generation], r.prompt, GenerationOptions(128, 0.1, 1.2))))
  {
    var found := Search(cache, bank, question, AskTopK, host);
    var prompt := Prompt(question, found.hits);
    var generated := Generate(found.cache, prompt, host);
    LoadedInTurn(cache, found.cache, generated.cache, FeatureExtraction, Generation);
    AskOutcome(generated.answer, found.hits, prompt, generated.cache)
  }

  /** For a one-line question and one-line facts, line `2 + k` of the prompt is the
      `k`-th fact as `- <text>`, after the question line and `Context:`. */
  lemma PromptListsFacts(question: string, facts: seq<Hit>)
    requires '\n' !in question
    requires SingleLineFacts(facts)
    ensures var lines := Split(Prompt(question, facts), '\n');
            && |lines| == 3 + |ContextLines(facts)|
            && lines[0] == "Question: " + question
            && forall k :: 0 <= k < |facts| ==> lines[2 + k] == "- " + facts[k].text
  {
    PromptLines(question, facts);
    var lines := PromptLineList(question, facts);
    forall k | 0 <= k < |facts|
      ensures lines[2 + k] == "- " + facts[k].text
    {
      assert ContextLines(facts) == Bullets(facts);
      assert lines[2 + k] == ContextLines(facts)[k];
    }
  }

  /** Facts drawn from a bank of one-line texts are one-line facts. */
  lemma StoredFactsAreSingleLine(facts: seq<Hit>, bank: Bank)
    requires forall i :: 0 <= i < |bank| ==> '\n' !in bank[i].text
    requires forall k :: 0 <= k < |facts| ==> StoredIn(facts[k], bank)
    ensures SingleLineFacts(facts)
  {
    forall k | 0 <= k < |facts|
      ensures '\n' !in facts[k].text
    {
      assert StoredIn(facts[k], bank);
      var i :| 0 <= i < |bank| && facts[k].id == bank[i].id && facts[k].text == bank[i].text;
    }
  }

  /** When the question and every stored text fit on one line, line `2 + k` of the prompt
      `ask` sends is the `k`-th retrieved fact, `- <text>`, so the facts reach the model
      in rank order. */
  lemma AskPromptListsFacts<H, R>(cache: Cache<H>, bank: Bank, question: string, host: Host<H, R>)
    requires '\n' !in question
    requires forall i :: 0 <= i < |bank| ==> '\n' !in bank[i].text
    ensures var r := Ask(cache, bank, question, host);
            var lines := Split(r.prompt, '\n');
            && |lines| == 3 + |ContextLines(r.facts)|
            && lines[0] == "Question: " + question
            && forall k :: 0 <= k < |r.facts| ==> lines[2 + k] == "- " + r.facts[k].text
  {
    var r := Ask(cache, bank, question, host);
    StoredFactsAreSingleLine(r.facts, bank);
    PromptListsFacts(question, r.facts);
  }
}
