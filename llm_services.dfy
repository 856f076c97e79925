/** The three tier calls. Providers are not called here: the caller passes
    `provider`, which says what any given request would come back with, and
    every call returns the reply dict together with the requests it made. */
module LlmServices {
  import opened Strings

  datatype Option<T> = None | Some(value: T)

  /** What a provider call came back with: generated text, a rate-limit
      fault (`ResourceExhausted`) or any other fault. */
  datatype Outcome = Ok(text: string) | QuotaExhausted(message: string) | OtherError(message: string)

  /** One request to a provider. */
  datatype Call =
    | GroqChat(prompt: string, model: string, maxTokens: nat)
    | GeminiGenerate(prompt: string, model: string, withSearch: bool)

  /** The dict a tier call returns: "model", "response" and, except when the
      Groq key is missing, "cost". */
  datatype Reply = Reply(model: string, response: string, cost: Option<real>)

  /** A reply and the provider requests made to produce it, in order. */
  datatype Dispatch = Dispatch(reply: Reply, calls: seq<Call>)

  // ---------------------------------------------------------------- Groq

  /** The fixed settings of one Groq-backed tier. */
  datatype GroqTier = GroqTier(model: string, successLabel: string, errorLabel: string, maxTokens: nat, price: real)

  const Phi3: GroqTier := GroqTier("llama-3.1-8b-instant", "Llama-3.1-8b (Groq)", "Llama-3.1-8b", 200, 0.00005)
  const Llama70b: GroqTier := GroqTier("llama-3.3-70b-versatile", "Llama-3.3-70b (Groq)", "Llama-3.3-70b", 500, 0.0005)
  const GroqKeyMissing: Reply := Reply("Error", "GROQ_API_KEY missing", None)

  /** One chat completion on a Groq tier; a fault becomes an "Error: " reply. */
  function CallGroq(tier: GroqTier, prompt: string, groqKey: bool, provider: Call -> Outcome): (d: Dispatch)
    ensures !groqKey <==> d.calls == []
    ensures !groqKey ==> d.reply == GroqKeyMissing
    ensures groqKey ==> d.calls == [GroqChat(prompt, tier.model, tier.maxTokens)]
    ensures groqKey && provider(GroqChat(prompt, tier.model, tier.maxTokens)).Ok? ==>
      d.reply == Reply(tier.successLabel, provider(d.calls[0]).text, Some(tier.price))
    ensures groqKey && !provider(GroqChat(prompt, tier.model, tier.maxTokens)).Ok? ==>
      d.reply == Reply(tier.errorLabel, "Error: " + provider(d.calls[0]).message, Some(0.0))
  {
    if !groqKey then Dispatch(GroqKeyMissing, [])
    else
      var call := GroqChat(prompt, tier.model, tier.maxTokens);
      match provider(call)
      case Ok(text) => Dispatch(Reply(tier.successLabel, text, Some(tier.price)), [call])
      case QuotaExhausted(message) => Dispatch(Reply(tier.errorLabel, "Error: " + message, Some(0.0)), [call])
      case OtherError(message) => Dispatch(Reply(tier.errorLabel, "Error: " + message, Some(0.0)), [call])
  }

  /** Tier 1 (SIMPLE): Llama-3.1-8b via Groq. */
  function CallPhi3(prompt: string, groqKey: bool, provider: Call -> Outcome): (d: Dispatch)
    ensures d.reply.cost == None <==> !groqKey
    ensures !groqKey ==> d.reply.model == "Error" && d.calls == []
    ensures groqKey ==> d.calls == [GroqChat(prompt, "llama-3.1-8b-instant", 200)]
    ensures d.reply.cost == Some(0.00005) <==> groqKey && provider(GroqChat(prompt, "llama-3.1-8b-instant", 200)).Ok?
    ensures d.reply.cost == Some(0.0) <==> groqKey && !provider(GroqChat(prompt, "llama-3.1-8b-instant", 200)).Ok?
    ensures d.reply.cost == Some(0.00005) ==> d.reply.model == "Llama-3.1-8b (Groq)" && d.reply.response == provider(d.calls[0]).text
    ensures d.reply.cost == Some(0.0) ==> d.reply.model == "Llama-3.1-8b" && d.reply.response == "Error: " + provider(d.calls[0]).message
  {
    CallGroq(Phi3, prompt, groqKey, provider)
  }

  /** Tier 2 (MEDIUM): Llama-3.3-70b via Groq. */
  function CallLlama70b(prompt: string, groqKey: bool, provider: Call -> Outcome): (d: Dispatch)
    ensures d.reply.cost == None <==> !groqKey
    ensures !groqKey ==> d.reply.model == "Error" && d.calls == []
    ensures groqKey ==> d.calls == [GroqChat(prompt, "llama-3.3-70b-versatile", 500)]
    ensures d.reply.cost == Some(0.0005) <==> groqKey && provider(GroqChat(prompt, "llama-3.3-70b-versatile", 500)).Ok?
    ensures d.reply.cost == Some(0.0) <==> groqKey && !provider(GroqChat(prompt, "llama-3.3-70b-versatile", 500)).Ok?
    ensures d.reply.cost == Some(0.0005) ==> d.reply.model == "Llama-3.3-70b (Groq)" && d.reply.response == provider(d.calls[0]).text
    ensures d.reply.cost == Some(0.0) ==> d.reply.model == "Llama-3.3-70b" && d.reply.response == "Error: " + provider(d.calls[0]).message
  {
    CallGroq(Llama70b, prompt, groqKey, provider)
  }

  // -------------------------------------------------------------- Gemini

  /** The preference list, best first. */
  const GeminiModels: seq<string> := ["gemini-2.0-flash", "gemini-2.0-flash-lite-preview-02-05", "gemini-1.5-flash"]
  const GeminiPrice: real := 0.001
  const NoSearchText: string := "Search found no text."
  const GeminiKeyMissing: Reply := Reply("Error", "GEMINI_API_KEY missing", Some(0.0))
  const Overloaded: Reply := Reply("System Overloaded", "All Google models are currently busy. Please wait 30 seconds.", Some(0.0))

  /** Only "2.0" models get the search-augmented attempt. */
  predicate SupportsSearch(modelId: string) {
    Contains(modelId, "2.0")
  }

  /** The reply built from a Gemini call that returned `text`. */
  function SuccessReply(modelId: string, withSearch: bool, text: string): (r: Reply)
    ensures r.cost == Some(GeminiPrice)
    ensures r.model == modelId + (if withSearch then " (Live Search)" else " (Standard)")
    ensures withSearch && text == "" ==> r.response == NoSearchText
    ensures !(withSearch && text == "") ==> r.response == text
  {
    if withSearch then Reply(modelId + " (Live Search)", if text == "" then NoSearchText else text, Some(GeminiPrice))
    else Reply(modelId + " (Standard)", text, Some(GeminiPrice))
  }

  predicate AllGemini(plan: seq<Call>) {
    forall k | 0 <= k < |plan| :: plan[k].GeminiGenerate?
  }

  /** The requests one model can receive, in order: with search when it
      supports search, then without. */
  function ModelPlan(prompt: string, modelId: string): seq<Call> {
    (if SupportsSearch(modelId) then [GeminiGenerate(prompt, modelId, true)] else [])
      + [GeminiGenerate(prompt, modelId, false)]
  }

  /** Every request the fallback loop can make over `models`, in order. */
  function FullPlan(prompt: string, models: seq<string>): (plan: seq<Call>)
    ensures AllGemini(plan)
    ensures |plan| <= 2 * |models|
  {
    if models == [] then [] else ModelPlan(prompt, models[0]) + FullPlan(prompt, models[1..])
  }

  /** The five requests `call_gpt4o` can make, in the order it makes them. */
  function GeminiPlan(prompt: string): seq<Call> {
    [ GeminiGenerate(prompt, "gemini-2.0-flash", true),
      GeminiGenerate(prompt, "gemini-2.0-flash", false),
      GeminiGenerate(prompt, "gemini-2.0-flash-lite-preview-02-05", true),
      GeminiGenerate(prompt, "gemini-2.0-flash-lite-preview-02-05", false),
      GeminiGenerate(prompt, "gemini-1.5-flash", false) ]
  }

  /** Every request in `calls` failed. */
  predicate AllFail(calls: seq<Call>, provider: Call -> Outcome) {
    forall k | 0 <= k < |calls| :: !provider(calls[k]).Ok?
  }

  /** The last request in `calls` is the first one that succeeded. */
  predicate SucceedsOnlyAtEnd(calls: seq<Call>, provider: Call -> Outcome) {
    |calls| > 0 && provider(calls[|calls| - 1]).Ok? && AllFail(calls[..|calls| - 1], provider)
  }

  /** The requests made so far and, once one has succeeded, the reply built
      from it. */
  datatype Attempt = Attempt(reply: Option<Reply>, calls: seq<Call>)

  /** The reference behaviour of the fallback loop: walk a plan of requests
      and stop at the first one that succeeds. */
  function FirstSuccess(plan: seq<Call>, provider: Call -> Outcome): Attempt
    requires AllGemini(plan)
  {
    if plan == [] then Attempt(None, [])
    else
      match provider(plan[0])
      case Ok(text) => Attempt(Some(SuccessReply(plan[0].model, plan[0].withSearch, text)), [plan[0]])
      case _ => Resume([plan[0]], FirstSuccess(plan[1..], provider))
  }

  /** The walk makes a prefix of the plan. It finds nothing exactly when every
      planned request fails, and then it has made all of them. Otherwise its
      last request is the first success and the reply is built from it. */
  lemma {:induction false} FirstSuccessSpec(plan: seq<Call>, provider: Call -> Outcome)
    requires AllGemini(plan)
    ensures var a := FirstSuccess(plan, provider);
      && a.calls <= plan
      && (a.reply.None? <==> AllFail(plan, provider))
      && (a.reply.None? ==> a.calls == plan)
      && (a.reply.Some? ==>
            SucceedsOnlyAtEnd(a.calls, provider) &&
            var last := a.calls[|a.calls| - 1];
            a.reply.value == SuccessReply(last.model, last.withSearch, provider(last).text))
  {
    if plan != [] && !provider(plan[0]).Ok? {
      var rest := FirstSuccess(plan[1..], provider);
      FirstSuccessSpec(plan[1..], provider);
      assert AllFail(plan, provider) <==> AllFail(plan[1..], provider);
      if rest.reply.Some? {
        assert ([plan[0]] + rest.calls)[..|rest.calls|] == [plan[0]] + rest.calls[..|rest.calls| - 1];
      }
    }
  }

  /** What `rest` yields after the requests `tried` all failed. */
  function Resume(tried: seq<Call>, rest: Attempt): Attempt {
    Attempt(rest.reply, tried + rest.calls)
  }

  /** The attempts on a single model: one iteration of the loop body. */
  function TryModel(prompt: string, modelId: string, provider: Call -> Outcome): (a: Attempt)
    ensures a.calls <= ModelPlan(prompt, modelId) && |a.calls| > 0
    ensures a.reply.None? ==> a.calls == ModelPlan(prompt, modelId) && AllFail(a.calls, provider)
    ensures a.reply.Some? ==> SucceedsOnlyAtEnd(a.calls, provider) && a.reply.value.cost == Some(GeminiPrice)
  {
    var search := GeminiGenerate(prompt, modelId, true);
    var plain := GeminiGenerate(prompt, modelId, false);
    if SupportsSearch(modelId) && provider(search).Ok? then
      assert ModelPlan(prompt, modelId)[0] == search;
      Attempt(Some(SuccessReply(modelId, true, provider(search).text)), [search])
    else
      var tried := if SupportsSearch(modelId) then [search] else [];
      if provider(plain).Ok? then Attempt(Some(SuccessReply(modelId, false, provider(plain).text)), tried + [plain])
      else Attempt(None, tried + [plain])
  }

  /** The loop `for model_id in models_to_try`, as recursion over the list. */
  function Fallback(prompt: string, models: seq<string>, provider: Call -> Outcome): (a: Attempt)
    ensures AllGemini(a.calls) && |a.calls| <= 2 * |models|
    ensures a.reply.Some? ==> a.reply.value.cost == Some(GeminiPrice)
  {
    if models == [] then Attempt(None, [])
    else
      var a := TryModel(prompt, models[0], provider);
      if a.reply.Some? then a else Resume(a.calls, Fallback(prompt, models[1..], provider))
  }

  /** The walk over a plan that starts with `c`. */
  lemma FirstSuccessCons(c: Call, rest: seq<Call>, provider: Call -> Outcome)
    requires c.GeminiGenerate? && AllGemini(rest)
    ensures AllGemini([c] + rest)
    ensures FirstSuccess([c] + rest, provider)
         == if provider(c).Ok? then Attempt(Some(SuccessReply(c.model, c.withSearch, provider(c).text)), [c])
            else Resume([c], FirstSuccess(rest, provider))
  {
    assert ([c] + rest)[0] == c && ([c] + rest)[1..] == rest;
  }

  /** Walking one model's plan and then `rest` is trying that model, then
      walking `rest` if it failed. */
  lemma ModelPlanWalk(prompt: string, id: string, rest: seq<Call>, provider: Call -> Outcome)
    requires AllGemini(rest)
    ensures AllGemini(ModelPlan(prompt, id) + rest)
    ensures var a := TryModel(prompt, id, provider);
      FirstSuccess(ModelPlan(prompt, id) + rest, provider)
      == if a.reply.Some? then a else Resume(a.calls, FirstSuccess(rest, provider))
  {
    var search := GeminiGenerate(prompt, id, true);
    var plain := GeminiGenerate(prompt, id, false);
    FirstSuccessCons(plain, rest, provider);
    if SupportsSearch(id) {
      assert ModelPlan(prompt, id) + rest == [search] + ([plain] + rest);
      FirstSuccessCons(search, [plain] + rest, provider);
      ResumeTwice([search], [plain], FirstSuccess(rest, provider));
    } else {
      assert ModelPlan(prompt, id) + rest == [plain] + rest;
    }
  }

  /** The fallback loop makes the requests of its plan in order and stops at
      the first success. */
  lemma {:induction false} FallbackIsFirstSuccess(prompt: string, models: seq<string>, provider: Call -> Outcome)
    ensures Fallback(prompt, models, provider) == FirstSuccess(FullPlan(prompt, models), provider)
  {
    if models != [] {
      FallbackIsFirstSuccess(prompt, models[1..], provider);
      ModelPlanWalk(prompt, models[0], FullPlan(prompt, models[1..]), provider);
    }
  }

  lemma GeminiModelsPlan(prompt: string)
    ensures FullPlan(prompt, GeminiModels) == GeminiPlan(prompt)
  {
    var m0, m1, m2 := GeminiModels[0], GeminiModels[1], GeminiModels[2];
    assert OccursAt(m0, "2.0", 7);
    assert OccursAt(m1, "2.0", 7);
    assert forall k | 0 <= k < |m2| :: m2[k] != '2';
    AbsentFirstChar(m2, "2.0");
    assert GeminiModels[1..][1..] == [m2];
    assert FullPlan(prompt, [m2]) == [GeminiGenerate(prompt, m2, false)];
  }

  /** The reply once the walk is over: "System Overloaded" when no request
      succeeded. */
  function Conclude(a: Attempt): (d: Dispatch)
    ensures d.calls == a.calls
    ensures d.reply == Overloaded <==> a.reply.None? || a.reply.value == Overloaded
    ensures a.reply.Some? && a.reply.value.cost == Some(GeminiPrice) ==> d.reply != Overloaded
    ensures a.reply.Some? ==> d.reply == a.reply.value
  {
    Dispatch(if a.reply.Some? then a.reply.value else Overloaded, a.calls)
  }

  /** `call_gpt4o`: the reply for a HARD prompt. */
  function Gpt4o(prompt: string, geminiKey: bool, provider: Call -> Outcome): (d: Dispatch)
    ensures !geminiKey ==> d == Dispatch(GeminiKeyMissing, [])
    ensures geminiKey ==> d == Conclude(FirstSuccess(GeminiPlan(prompt), provider))
    ensures d.calls <= GeminiPlan(prompt) && |d.calls| <= 5
    ensures d.reply.cost == Some(0.0) || d.reply.cost == Some(GeminiPrice)
  {
    FallbackIsFirstSuccess(prompt, GeminiModels, provider);
    GeminiModelsPlan(prompt);
    FirstSuccessSpec(GeminiPlan(prompt), provider);
    if !geminiKey then Dispatch(GeminiKeyMissing, []) else Conclude(Fallback(prompt, GeminiModels, provider))
  }

  /** The loop of `call_gpt4o`, with its early returns. */
  method CallGpt4o(prompt: string, geminiKey: bool, provider: Call -> Outcome) returns (d: Dispatch)
    ensures d == Gpt4o(prompt, geminiKey, provider)
  {
    if !geminiKey {
      return Dispatch(GeminiKeyMissing, []);
    }
    var modelsToTry := GeminiModels;
    var calls: seq<Call> := [];
    assert modelsToTry[0..] == modelsToTry;
    for i := 0 to |modelsToTry|
      invariant Fallback(prompt, modelsToTry, provider) == Resume(calls, Fallback(prompt, modelsToTry[i..], provider))
    {
      var modelId := modelsToTry[i];
      LoopStep(prompt, modelsToTry, i, calls, provider);
      TryModelCases(prompt, modelId, provider);
      ghost var tried := calls;
      if SupportsSearch(modelId) {
        var search := GeminiGenerate(prompt, modelId, true);
        calls := calls + [search];
        var outcome := provider(search);
        if outcome.Ok? {
          return Dispatch(SuccessReply(modelId, true, outcome.text), calls);
        }
      }
      var plain := GeminiGenerate(prompt, modelId, false);
      calls := calls + [plain];
      var outcome := provider(plain);
      assert calls == tried + TryModel(prompt, modelId, provider).calls;
      if outcome.Ok? {
        return Dispatch(SuccessReply(modelId, false, outcome.text), calls);
      }
    }
    assert modelsToTry[|modelsToTry|..] == [];
    d := Dispatch(Overloaded, calls);
  }

  /** One pass of the loop body, case by case: a search success ends it at
      once; otherwise the plain attempt follows the failed search, if any. */
  lemma TryModelCases(prompt: string, modelId: string, provider: Call -> Outcome)
    ensures var search := GeminiGenerate(prompt, modelId, true);
      var plain := GeminiGenerate(prompt, modelId, false);
      var a := TryModel(prompt, modelId, provider);
      if SupportsSearch(modelId) && provider(search).Ok? then
        a == Attempt(Some(SuccessReply(modelId, true, provider(search).text)), [search])
      else
        && a.calls == (if SupportsSearch(modelId) then [search, plain] else [plain])
        && a.reply == (if provider(plain).Ok? then Some(SuccessReply(modelId, false, provider(plain).text)) else None)
  {
  }

  /** The loop invariant carried over one model: either this model answers,
      or the walk goes on after its requests. */
  lemma LoopStep(prompt: string, models: seq<string>, i: nat, tried: seq<Call>, provider: Call -> Outcome)
    requires i < |models|
    requires Fallback(prompt, models, provider) == Resume(tried, Fallback(prompt, models[i..], provider))
    ensures var a := TryModel(prompt, models[i], provider);
      if a.reply.Some? then Fallback(prompt, models, provider) == Attempt(a.reply, tried + a.calls)
      else Fallback(prompt, models, provider) == Resume(tried + a.calls, Fallback(prompt, models[i + 1..], provider))
  {
    FallbackStep(prompt, models, i, provider);
    var a := TryModel(prompt, models[i], provider);
    if a.reply.None? {
      ResumeTwice(tried, a.calls, Fallback(prompt, models[i + 1..], provider));
    }
  }

  lemma ResumeTwice(first: seq<Call>, second: seq<Call>, rest: Attempt)
    ensures Resume(first, Resume(second, rest)) == Resume(first + second, rest)
  {
    assert first + (second + rest.calls) == (first + second) + rest.calls;
  }

  /** One turn of the loop: the list from position `i` on. */
  lemma FallbackStep(prompt: string, models: seq<string>, i: nat, provider: Call -> Outcome)
    requires i < |models|
    ensures var a := TryModel(prompt, models[i], provider);
      Fallback(prompt, models[i..], provider)
      == if a.reply.Some? then a else Resume(a.calls, Fallback(prompt, models[i + 1..], provider))
  {
    assert models[i..][0] == models[i] && models[i..][1..] == models[i + 1..];
  }

  // ---------------------------------------------------- dispatcher lemmas

  /** The kind of fault never matters: a quota fault is handled exactly like
      any other fault. */
  lemma {:induction false} FaultKindIrrelevant(plan: seq<Call>, p1: Call -> Outcome, p2: Call -> Outcome)
    requires AllGemini(plan)
    requires forall k | 0 <= k < |plan| :: p1(plan[k]).Ok? == p2(plan[k]).Ok?
    requires forall k | 0 <= k < |plan| && p1(plan[k]).Ok? :: p1(plan[k]).text == p2(plan[k]).text
    ensures FirstSuccess(plan, p1) == FirstSuccess(plan, p2)
  {
    if plan != [] {
      FaultKindIrrelevant(plan[1..], p1, p2);
    }
  }

  /** A failed search attempt, quota fault included, is followed by a plain
      attempt on the same model. */
  lemma SearchFaultRetriesPlain(prompt: string, provider: Call -> Outcome, k: nat)
    requires k < |Gpt4o(prompt, true, provider).calls|
    requires Gpt4o(prompt, true, provider).calls[k].withSearch
    requires !provider(Gpt4o(prompt, true, provider).calls[k]).Ok?
    ensures k + 1 < |Gpt4o(prompt, true, provider).calls|
    ensures Gpt4o(prompt, true, provider).calls[k + 1]
         == Gpt4o(prompt, true, provider).calls[k].(withSearch := false)
  {
    var plan := GeminiPlan(prompt);
    var a := FirstSuccess(plan, provider);
    FirstSuccessSpec(plan, provider);
    assert Gpt4o(prompt, true, provider).calls == a.calls;
    assert a.calls[k] == plan[k];
  }

  /** Each model gets each kind of attempt at most once. */
  lemma NoRequestRepeated(prompt: string, geminiKey: bool, provider: Call -> Outcome)
    ensures var calls := Gpt4o(prompt, geminiKey, provider).calls;
      forall i, j | 0 <= i < j < |calls| :: calls[i] != calls[j]
  {
    var calls := Gpt4o(prompt, geminiKey, provider).calls;
    var plan := GeminiPlan(prompt);
    assert plan[0].model[7] != plan[4].model[7];
    forall i, j | 0 <= i < j < |calls|
      ensures calls[i] != calls[j]
    {
      assert calls[i] == plan[i] && calls[j] == plan[j];
    }
  }

  /** Scenario: a quota fault on both attempts of the first model moves on to
      the second, whose search attempt then answers. */
  lemma QuotaMovesToBackup(prompt: string, provider: Call -> Outcome, text: string)
    requires provider(GeminiGenerate(prompt, "gemini-2.0-flash", true)).QuotaExhausted?
    requires provider(GeminiGenerate(prompt, "gemini-2.0-flash", false)).QuotaExhausted?
    requires provider(GeminiGenerate(prompt, "gemini-2.0-flash-lite-preview-02-05", true)) == Ok(text)
    requires text != ""
    ensures Gpt4o(prompt, true, provider).reply
         == Reply("gemini-2.0-flash-lite-preview-02-05 (Live Search)", text, Some(0.001))
    ensures Gpt4o(prompt, true, provider).calls == GeminiPlan(prompt)[..3]
  {
    var plan := GeminiPlan(prompt);
    var c0, c1, c2, rest := plan[0], plan[1], plan[2], plan[3..];
    assert plan == [c0] + ([c1] + ([c2] + rest));
    var found := Attempt(Some(SuccessReply(c2.model, true, text)), [c2]);
    FirstSuccessCons(c2, rest, provider);
    assert FirstSuccess([c2] + rest, provider) == found;
    FirstSuccessCons(c1, [c2] + rest, provider);
    FirstSuccessCons(c0, [c1] + ([c2] + rest), provider);
    ResumeTwice([c0], [c1], found);
    assert FirstSuccess(plan, provider) == Resume([c0, c1], found);
    assert SuccessReply(c2.model, true, text).model == "gemini-2.0-flash-lite-preview-02-05 (Live Search)";
  }

  /** When some planned request succeeds, the reply is the one built from
      the first success, the last request made. */
  lemma Gpt4oSuccessReply(prompt: string, provider: Call -> Outcome)
    requires !AllFail(GeminiPlan(prompt), provider)
    ensures var d := Gpt4o(prompt, true, provider);
      |d.calls| > 0 &&
      var last := d.calls[|d.calls| - 1];
      provider(last).Ok? && d.reply == SuccessReply(last.model, last.withSearch, provider(last).text)
  {
    FirstSuccessSpec(GeminiPlan(prompt), provider);
  }

  /** "System Overloaded" comes back exactly when all five requests fail. */
  lemma OverloadedIffAllFail(prompt: string, provider: Call -> Outcome)
    ensures Gpt4o(prompt, true, provider).reply == Overloaded <==> AllFail(GeminiPlan(prompt), provider)
    ensures Gpt4o(prompt, true, provider).reply == Overloaded ==> Gpt4o(prompt, true, provider).calls == GeminiPlan(prompt)
  {
    var a := FirstSuccess(GeminiPlan(prompt), provider);
    FirstSuccessSpec(GeminiPlan(prompt), provider);
    if a.reply.Some? {
      assert a.reply.value.cost != Overloaded.cost;
    }
  }
}
