/** The two endpoints: `/generate` classifies a prompt, sends it to the tier's
    backend, prices it against the top tier and logs it; `/logs` lists the
    newest rows. */
module RouterApi {
  import opened RouterEngine
  import opened LlmServices
  import opened Database

  /** Dollars per million tokens. */
  const PriceGpt4: real := 5.0
  const PriceLlamaSmall: real := 0.05
  const PriceLlamaLarge: real := 0.50
  const Million: real := 1000000.0
  /** Rows returned by `/logs`. */
  const LogsPageSize: nat := 50

  /** Which provider keys are configured. */
  datatype Keys = Keys(groq: bool, gemini: bool)

  /** The backend a tier is sent to: SIMPLE to Llama-3.1-8b, MEDIUM to
      Llama-3.3-70b, anything else to the Gemini fallback chain. */
  function Route(tier: Tier, prompt: string, keys: Keys, provider: Call -> Outcome): (d: Dispatch)
    ensures tier == Simple ==> forall k | 0 <= k < |d.calls| :: d.calls[k] == GroqChat(prompt, "llama-3.1-8b-instant", 200)
    ensures tier == Medium ==> forall k | 0 <= k < |d.calls| :: d.calls[k] == GroqChat(prompt, "llama-3.3-70b-versatile", 500)
    ensures tier == Hard ==> AllGemini(d.calls) && |d.calls| <= 5 && d.reply.cost.Some?
    ensures |d.calls| <= (if tier == Hard then 5 else 1)
    ensures tier == Simple ==> d == CallPhi3(prompt, keys.groq, provider)
    ensures tier == Medium ==> d == CallLlama70b(prompt, keys.groq, provider)
    ensures tier == Hard ==> d == Gpt4o(prompt, keys.gemini, provider)
  {
    match tier
    case Simple => CallPhi3(prompt, keys.groq, provider)
    case Medium => CallLlama70b(prompt, keys.groq, provider)
    case Hard => Gpt4o(prompt, keys.gemini, provider)
  }

  /** `max(1, len(prompt) / 4)`: four characters per token, at least one. */
  function EstimatedTokens(prompt: string): (t: real)
    ensures t >= 1.0 && t >= |prompt| as real / 4.0
    ensures t == 1.0 || t == |prompt| as real / 4.0
  {
    var quarter := |prompt| as real / 4.0;
    if quarter > 1.0 then quarter else 1.0
  }

  datatype Costs = Costs(estTokens: real, actual: real, hypothetical: real, savings: real)

  /** The price of the request on its tier, and on the top tier. */
  function CostsFor(tier: Tier, prompt: string): (c: Costs)
    ensures c.estTokens == EstimatedTokens(prompt)
    ensures c.hypothetical == c.estTokens / Million * PriceGpt4
    ensures c.savings == c.hypothetical - c.actual
    ensures tier == Hard ==> c.actual == c.hypothetical
    ensures tier == Simple ==> c.savings == c.hypothetical * 0.99
    ensures tier == Medium ==> c.savings == c.hypothetical * 0.9
    ensures tier != Hard ==> 0.0 < c.actual < c.hypothetical
    ensures c.savings >= 0.0 && (c.savings == 0.0 <==> tier == Hard)
  {
    var estTokens := EstimatedTokens(prompt);
    var hypothetical := estTokens / Million * PriceGpt4;
    var actual :=
      match tier
      case Simple => estTokens / Million * PriceLlamaSmall
      case Medium => estTokens / Million * PriceLlamaLarge
      case Hard => hypothetical;
    Costs(estTokens, actual, hypothetical, hypothetical - actual)
  }

  /** The body of a `/generate` response. */
  datatype Response = Response(routerDecision: Tier, modelUsed: string, content: string, costSaved: real)

  /** What `/generate` answers. */
  function Generate(prompt: string, keys: Keys, provider: Call -> Outcome): (r: Response)
    ensures r.routerDecision == ClassifyDifficulty(prompt)
    ensures var d := Route(r.routerDecision, prompt, keys, provider);
      r.modelUsed == d.reply.model && r.content == d.reply.response
    ensures r.costSaved == CostsFor(r.routerDecision, prompt).savings
    ensures r.costSaved >= 0.0 && (r.costSaved == 0.0 <==> r.routerDecision == Hard)
  {
    var tier := ClassifyDifficulty(prompt);
    ResponseFor(prompt, tier, Route(tier, prompt, keys, provider).reply)
  }

  /** The response built from the tier and the backend's reply. */
  function ResponseFor(prompt: string, tier: Tier, reply: Reply): Response {
    Response(tier, reply.model, reply.response, CostsFor(tier, prompt).savings)
  }

  /** The row built from the tier and the backend's reply. */
  function EntryFor(prompt: string, tier: Tier, reply: Reply): LogEntry {
    var costs := CostsFor(tier, prompt);
    LogEntry(prompt, tier.Name(), reply.model, costs.estTokens.Floor,
             costs.actual, costs.hypothetical, costs.savings)
  }

  /** The row `/generate` logs. */
  function LogEntryFor(prompt: string, keys: Keys, provider: Call -> Outcome): (e: LogEntry)
    ensures var r := Generate(prompt, keys, provider);
      e.promptText == prompt && e.difficultyLevel == r.routerDecision.Name() &&
      e.modelUsed == r.modelUsed && e.moneySaved == r.costSaved
    ensures e.tokenCount >= 1 && e.tokenCount as real <= EstimatedTokens(prompt) < e.tokenCount as real + 1.0
    ensures var c := CostsFor(ClassifyDifficulty(prompt), prompt);
      e.actualCost == c.actual && e.hypotheticalCostGpt4 == c.hypothetical
    ensures e.hypotheticalCostGpt4 - e.actualCost == e.moneySaved
  {
    var tier := ClassifyDifficulty(prompt);
    EntryFor(prompt, tier, Route(tier, prompt, keys, provider).reply)
  }

  /** `smart_generate`. A store that fails to take the row changes nothing in
      the response. */
  method SmartGenerate(db: Session, prompt: string, keys: Keys, provider: Call -> Outcome, now: int, commitSucceeds: bool)
    returns (r: Response)
    requires db.Valid()
    modifies db
    ensures db.Valid()
    ensures r == Generate(prompt, keys, provider)
    ensures commitSucceeds ==> db.rows == old(db.rows) + [RequestLog(old(db.nextId), now, LogEntryFor(prompt, keys, provider))]
    ensures !commitSucceeds ==> db.rows == old(db.rows)
  {
    var difficulty := ClassifyDifficulty(prompt);
    var result: Dispatch;
    if difficulty == Simple {
      result := CallPhi3(prompt, keys.groq, provider);
    } else if difficulty == Medium {
      result := CallLlama70b(prompt, keys.groq, provider);
    } else {
      result := CallGpt4o(prompt, keys.gemini, provider);
    }
    var entry := EntryFor(prompt, difficulty, result.reply);
    var _ := db.AddAndCommit(entry, now, commitSucceeds);
    r := ResponseFor(prompt, difficulty, result.reply);
  }

  /** Scenario: "hi" is SIMPLE, counts as one token and saves 4.95 dollars per
      million tokens. */
  lemma HiSavings(keys: Keys, provider: Call -> Outcome)
    ensures Generate("hi", keys, provider).routerDecision == Simple
    ensures Generate("hi", keys, provider).costSaved == 4.95 / Million
    ensures LogEntryFor("hi", keys, provider).tokenCount == 1
  {
    HiIsSimple();
  }

  // ------------------------------------------------------------- /logs

  /** Position of a row with the latest timestamp. */
  method IndexOfNewest(rows: seq<RequestLog>) returns (k: nat)
    requires |rows| > 0
    ensures k < |rows|
    ensures forall j | 0 <= j < |rows| :: rows[j].timestamp <= rows[k].timestamp
  {
    k := 0;
    for i := 1 to |rows|
      invariant k < i
      invariant forall j | 0 <= j < i :: rows[j].timestamp <= rows[k].timestamp
    {
      if rows[i].timestamp > rows[k].timestamp {
        k := i;
      }
    }
  }

  function Min(a: nat, b: nat): nat {
    if a < b then a else b
  }

  /** Timestamps never increase along `page`. */
  predicate Descending(page: seq<RequestLog>) {
    forall i, j | 0 <= i < j < |page| :: page[i].timestamp >= page[j].timestamp
  }

  /** No row of `rest` is newer than a row of `page`. */
  predicate NoneNewer(page: seq<RequestLog>, rest: seq<RequestLog>) {
    forall i, j | 0 <= i < |page| && 0 <= j < |rest| :: page[i].timestamp >= rest[j].timestamp
  }

  /** `ORDER BY timestamp DESC LIMIT limit`: the `limit` newest rows, newest
      first. Rows with equal timestamps may come in any order. */
  method NewestFirst(rows: seq<RequestLog>, limit: nat) returns (page: seq<RequestLog>)
    ensures |page| == Min(limit, |rows|)
    ensures multiset(page) <= multiset(rows)
    ensures Descending(page)
    ensures forall r, i | r in multiset(rows) - multiset(page) && 0 <= i < |page| :: page[i].timestamp >= r.timestamp
  {
    page := [];
    var rest := rows;
    while |page| < limit && rest != []
      invariant multiset(page) + multiset(rest) == multiset(rows)
      invariant |page| + |rest| == |rows| && |page| <= limit
      invariant Descending(page) && NoneNewer(page, rest)
      decreases |rest|
    {
      var k := IndexOfNewest(rest);
      SelectStep(page, rest, k);
      page := page + [rest[k]];
      rest := rest[..k] + rest[k + 1..];
    }
    forall r, i | r in multiset(rows) - multiset(page) && 0 <= i < |page|
      ensures page[i].timestamp >= r.timestamp
    {
      assert r in rest;
    }
  }

  /** Moving a newest row of `rest` to the end of `page` keeps the page in
      order and ahead of what is left. */
  lemma SelectStep(page: seq<RequestLog>, rest: seq<RequestLog>, k: nat)
    requires k < |rest|
    requires forall j | 0 <= j < |rest| :: rest[j].timestamp <= rest[k].timestamp
    requires Descending(page) && NoneNewer(page, rest)
    ensures Descending(page + [rest[k]])
    ensures NoneNewer(page + [rest[k]], rest[..k] + rest[k + 1..])
    ensures multiset(page + [rest[k]]) + multiset(rest[..k] + rest[k + 1..]) == multiset(page) + multiset(rest)
  {
    var others := rest[..k] + rest[k + 1..];
    assert rest == rest[..k] + [rest[k]] + rest[k + 1..];
    forall j | 0 <= j < |others|
      ensures others[j] == rest[if j < k then j else j + 1]
    {
    }
  }

  /** `get_logs`: the 50 newest rows, newest first. */
  method GetLogs(db: Session) returns (logs: seq<RequestLog>)
    ensures |logs| == Min(LogsPageSize, |db.rows|)
    ensures multiset(logs) <= multiset(db.rows)
    ensures Descending(logs)
    ensures forall r, i | r in multiset(db.rows) - multiset(logs) && 0 <= i < |logs| :: logs[i].timestamp >= r.timestamp
  {
    logs := NewestFirst(db.rows, LogsPageSize);
  }
}
