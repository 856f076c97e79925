# Cost-control smart router, modelled in Dafny

The router takes a prompt and does four things. It classifies the prompt as
SIMPLE, MEDIUM or HARD. It sends the prompt to the backend for that tier:
Llama-3.1-8b or Llama-3.3-70b on Groq, or a chain of Gemini models. It prices
the request against always using the top-tier model. It logs one row per
request in an append-only table. A second endpoint lists the 50 newest rows.

The model has five modules:

- `Strings` (strings.dfy): ASCII `str.lower()` and Python's substring test `w in s`.
- `RouterEngine` (router_engine.dfy): the classifier `classify_difficulty`.
- `LlmServices` (llm_services.dfy): the three tier calls. Providers are not
  called. The caller passes a function `provider: Call -> Outcome` that gives
  the answer to any request: `Ok(text)`, `QuotaExhausted(message)` (the 429
  `ResourceExhausted` fault) or `OtherError(message)`. Every tier call returns
  its reply dict together with the list of requests it made, in order.
  `call_gpt4o` is modelled twice. `CallGpt4o` is a method with the source's
  loop and early returns. `Fallback` is the same loop written as recursion.
  `FirstSuccess` is an independent reference: walk the flat list of possible
  requests and stop at the first success. Lemmas connect the three.
- `Database` (database.dfy): the `RequestLog` row (database.py:22-33) and a
  `Session` class over a `seq<RequestLog>` that `db.add`/`db.commit` append to.
- `RouterApi` (router_api.dfy): `smart_generate` (routing, token estimate,
  costs, logging, response) and `get_logs`.

Inputs that the source reads from its environment are parameters here. These
are key presence (`Keys`), provider answers (`provider`), the insertion time
(`now`) and whether the store accepts the write (`commitSucceeds`).

The docstring of `call_gpt4o` (llm_services.py:57-59) reads as if a rate-limit
fault on the first model switches to the backup model, and only a search
failure is retried without search. The code does something else, and the
model follows the code. In llm_services.py:79-91 the inner `except Exception`
also catches `ResourceExhausted`, so a failed search attempt is always
retried without search on the same model first. `SearchFaultRetriesPlain` and
`FaultKindIrrelevant` state what the code does.

## Model

| member | source | states |
|---|---|---|
| `Strings.Lower` | router_engine.py:2 | lower-casing keeps the length and lower-cases each character independently |
| `Strings.ContainsInContext` | router_engine.py:6 | a substring match survives any text added before or after it |
| `Strings.ContainsEdges` | router_engine.py:6 | Python's `w in s`: the empty word occurs in every text; an occurrence needs the word to be no longer than the text; at equal length only the text itself occurs |
| `Strings.LowerKeepsOccurrence` | router_engine.py:2-6 | an occurrence of a word in the prompt is an occurrence of the lower-cased word in the lower-cased prompt |
| `RouterEngine.Tier.Name` | router_engine.py:1-17 | the classifier's answer is always one of "SIMPLE", "MEDIUM", "HARD" |
| `RouterEngine.MentionsAny` | router_engine.py:6-11 | `any(w in text for w in words)`: false for an empty list; true as soon as any one word occurs |
| `RouterEngine.MentionsEither` | router_engine.py:6-12 | checking the recency list and then the complexity list is checking one joined list: a word of either gives a match, and a match comes from one of them |
| `RouterEngine.ClassifyDifficulty` | router_engine.py:1-17 | a recency word forces HARD whatever the length; HARD exactly when some recency or complexity word occurs in the lower-cased prompt; otherwise SIMPLE exactly below 50 characters and MEDIUM at 50 or more |
| `RouterEngine.CaseInsensitive` | router_engine.py:2 | two prompts equal up to case get the same tier |
| `RouterEngine.KeywordAnywhereIsHard` | router_engine.py:6-12 | a keyword in any case, anywhere in the prompt and even inside a longer word, makes the prompt HARD |
| `RouterEngine.HardStaysHard` | router_engine.py:6-12 | adding text around a HARD prompt keeps it HARD |
| `RouterEngine.UpperCaseNewsIsHard` | router_engine.py:2-7 | "NEWS" classifies HARD |
| `RouterEngine.BarcodeIsHard` | router_engine.py:10-12 | "barcode" classifies HARD because it contains "code" |
| `RouterEngine.LatestNewsIsHard` | router_engine.py:6-7 | any prompt containing "latest news" is HARD, whatever surrounds it |
| `RouterEngine.HiIsSimple` | router_engine.py:14-15 | "hi" classifies SIMPLE |
| `RouterEngine.PlainLongPromptIsMedium` | router_engine.py:14-17 | the keyword-free prompt of fifty 'z' characters, exactly at the length limit, classifies MEDIUM (the general rule is `ClassifyDifficulty`'s contract) |
| `LlmServices.CallGroq` | llm_services.py:20-52 | with no Groq key no request is made and the "Error" reply comes back; with a key exactly one chat request is made, with the tier's model id and token cap; a success gives the tier's "(Groq)" label, the provider's text and the tier's price; a fault gives the short label, "Error: " followed by the fault message, and cost 0 |
| `LlmServices.CallPhi3` | llm_services.py:20-35 | "cost" is absent exactly when the key is missing; cost 0.00005 exactly on success, with model "Llama-3.1-8b (Groq)" and the provider's text; cost 0 exactly on a fault, with model "Llama-3.1-8b" and response "Error: " plus the fault message |
| `LlmServices.CallLlama70b` | llm_services.py:37-52 | the same for the 70b tier: no cost without a key; cost 0.0005 on success, with model "Llama-3.3-70b (Groq)" and the provider's text; cost 0 on a fault, with model "Llama-3.3-70b" and response "Error: " plus the fault message |
| `LlmServices.SuccessReply` | llm_services.py:84-100 | a Gemini success costs 0.001 and is labelled with the model id plus " (Live Search)" or " (Standard)"; an empty search answer becomes "Search found no text."; a plain answer is passed through |
| `LlmServices.FullPlan` | llm_services.py:71-95 | the possible requests over a list of models are all Gemini requests, at most twice as many as there are models |
| `LlmServices.FirstSuccessSpec` | llm_services.py:71-111 | walking a plan to its first success: the requests made are a prefix of the plan; no reply exactly when every planned request fails, and then every one was made; otherwise the last request made is the only success and the reply is built from it |
| `LlmServices.TryModel` | llm_services.py:74-100 | one pass of the loop body makes a non-empty prefix of that model's planned requests; a success is the last and only successful request and costs 0.001; with no success all of the model's planned requests were made and all failed |
| `LlmServices.TryModelCases` | llm_services.py:77-100 | the branches of the loop body: a search success on a "2.0" model ends the pass after one request; otherwise the plain request follows the failed search, if any, and its outcome decides the reply |
| `LlmServices.ModelPlanWalk` | llm_services.py:76-95 | one model's attempts followed by the rest of the plan: stop at this model's success, or go on with the rest after this model's requests |
| `LlmServices.Fallback` | llm_services.py:71-109 | the loop over the model list makes only Gemini requests, at most twice as many as there are models, and a success costs 0.001 |
| `LlmServices.FallbackIsFirstSuccess` | llm_services.py:71-109 | the per-model loop (search attempt, then plain attempt, then next model) behaves exactly as walking the flat plan to its first success |
| `LlmServices.GeminiModelsPlan` | llm_services.py:65-95 | the plan for the three ids is: 2.0-flash with search, 2.0-flash plain, 2.0-flash-lite with search, 2.0-flash-lite plain, 1.5-flash plain; only "2.0" ids get a search attempt |
| `LlmServices.Conclude` | llm_services.py:83-111 | after the loop the requests made are kept; a success reply is returned unchanged; "System Overloaded" comes back when no request succeeded, and never in place of a success costing 0.001 |
| `LlmServices.Gpt4o` | llm_services.py:54-111 | with no Gemini key no request is made and the "Error" reply with cost 0 comes back; with a key the result is the first success of the five-request plan, or "System Overloaded" when there is none; the requests are a prefix of the plan, at most 5; the cost is 0 or 0.001 |
| `LlmServices.CallGpt4o` | llm_services.py:54-111 | the loop with its early returns computes exactly `Gpt4o` |
| `LlmServices.FaultKindIrrelevant` | llm_services.py:89-109 | a quota fault and any other fault lead to the same requests and the same reply |
| `LlmServices.SearchFaultRetriesPlain` | llm_services.py:78-95 | a failed search attempt, quota included, is always followed by a plain attempt on the same model |
| `LlmServices.NoRequestRepeated` | llm_services.py:65-71 | no request is made twice |
| `LlmServices.QuotaMovesToBackup` | llm_services.py:79-105 | quota faults on both attempts of the first model, then a search answer from the second: the label is "gemini-2.0-flash-lite-preview-02-05 (Live Search)", cost 0.001, after three requests |
| `LlmServices.OverloadedIffAllFail` | llm_services.py:71-111 | with a key, "System Overloaded" comes back exactly when all five planned requests fail, and then all five were made |
| `LlmServices.Gpt4oSuccessReply` | llm_services.py:71-100 | with a key, when some planned request succeeds, the last request made succeeded and the reply is the Gemini reply built from its model, search flag and text |
| `Database.Session.AddAndCommit` | main.py:57-70 | a committed write appends exactly one row with a fresh id and changes no earlier row; a failed write changes nothing |
| `RouterApi.Route` | main.py:30-37 | SIMPLE gets exactly `call_phi3`'s result, MEDIUM `call_llama70b`'s and HARD `call_gpt4o`'s; so SIMPLE only ever calls llama-3.1-8b-instant, MEDIUM only llama-3.3-70b-versatile, at most once, and HARD only Gemini, at most 5 times, always with a cost |
| `RouterApi.EstimatedTokens` | main.py:44 | the estimate is a quarter of the prompt length, but never below 1 |
| `RouterApi.CostsFor` | main.py:39-54 | savings = hypothetical - actual; HARD costs exactly the hypothetical price, so it saves 0; SIMPLE saves 99% and MEDIUM 90% of it; savings are 0 exactly for HARD and positive otherwise |
| `RouterApi.Generate` | main.py:25-77 | router_decision is the classifier's tier; model_used and content come from the routed backend's reply; cost_saved is the tier's savings, 0 exactly for HARD |
| `RouterApi.LogEntryFor` | main.py:56-66 | the logged row carries the prompt, the tier's name, the same model and savings as the response, token_count = int(est_tokens) >= 1, and the tier's actual and top-tier costs, whose difference is the savings |
| `RouterApi.SmartGenerate` | main.py:25-77 | the response equals `Generate` whether or not the store accepts the row; a committed request appends exactly that row, a failed one appends nothing |
| `RouterApi.HiSavings` | main.py:44-54 | "hi" is SIMPLE, one token, and saves 4.95 / 1e6 |
| `RouterApi.NewestFirst` | main.py:83 | returns min(limit, rows) rows taken from the table, in descending timestamp order, none older than any row left out |
| `RouterApi.SelectStep` | main.py:83 | moving a newest remaining row to the end of the page keeps the page in descending order, ahead of every row left, and loses no row |
| `RouterApi.GetLogs` | main.py:80-84 | at most 50 rows, newest first, none older than any row left out |

## Left out

- The vendor SDKs (`AsyncGroq`, `genai.GenerativeModel`, `generate_content_async`) are the `provider` parameter. Async/await and exception classes other than quota and "any other" are not modelled.
- `genai.GenerativeModel(model_id)` (llm_services.py:74) is assumed not to fault. In the source a fault there would also move to the next model.
- A Gemini `response.text` that raises, and a Groq `message.content` of `None`, are not modelled. A provider answer is a string; an empty string counts as "no text".
- Credential loading (`load_dotenv`, `os.environ`) is the `Keys` input. The `print` diagnostics are left out.
- Costs are `real`. Float rounding and the `f"${savings:.8f}"` formatting of `cost_saved` (main.py:76) are not modelled. The response carries the savings as a number.
- `result.get("model", "Unknown")` and `result.get("response", "Error generating response")` (main.py:61, 74-75): every reply the three tier calls build has both keys, so the defaults never apply and are not modelled.
- Lower-casing covers ASCII only. Unicode case mapping is not modelled.
- The store's id counter starts at 1 and skips nothing. The real id sequence belongs to the database engine. The `String(50)`/`String(100)` column widths are not enforced.
- Timestamps are an abstract integer supplied by the caller (`datetime.now` is left out). Rows with equal timestamps come back in an unspecified order, as in SQL.
- The SQLAlchemy engine and session lifecycle, the CORS middleware, the Mangum handler, the Streamlit dashboard and the React UI are not part of this model.
- Concurrent requests are not modelled; each request is handled alone.
