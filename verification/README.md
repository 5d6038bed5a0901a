# LLM usage cache: a Dafny model

This project models the per-model usage cache of `PricingFunctions.py`. It tracks what
queries to four language models cost. The first time a query is sent to a model, it is
billed at full price. A repeat of that query is billed only a cheaper "retrieval" charge,
based on the query's stored token count.

The model has four modules:

- `Tokenizer` (`tokenizer.dfy`): the part of `tokenizer` that is not tiktoken.
  - It canonicalises the model name (every `' '` removed, then lower-cased).
  - It picks the encoding for the four known models: `cl100k_base` for the two Claude
    models, and the encoding tiktoken gives `o3-12k` for GPT-4.1 and o3.
  - Any other name gives the sentinel `(0, 0, "Unknown Model")`.
  - Token counting is the caller-supplied function `count(text, encoding)`.
- `Memlog` (`memlog.dfy`): the `Memory` record and one model's memlog, a map from query
  string to record.
  - `Record` is the first-seen / repeat decision as a function on the map.
  - `Remember` is that decision as the source performs it, statement by statement.
  - `Consistent` is the invariant every memlog keeps. Each record carries its own key and
    at least one timestamp. Its first costs are token count times rate. Its total is the
    first cost plus one retrieval charge per later call.
- `Pricing` (`pricing.dfy`): the four memlogs together.
  - `Logs` is their contents at one moment.
  - The rate table has three rates per model, per token. Each rate is the source's dollars
    per million tokens divided by 1,000,000.
  - `AnthropicStep` and `OpenaiStep` specify `anthropic_pricing` and `openai_pricing`.
  - The class `MemLogs` holds the four memlogs as fields. Its methods `AnthropicPricing`,
    `OpenaiPricing` and `ClearAllLogs` update them in place.
- `Wrappers` (`wrappers.dfy`): an `Option` type.

Costs are exact `real`s. The current time is a parameter `now`.

## Model

| member | source | states |
|---|---|---|
| `Tokenizer.LowerChar` | PricingFunctions.py:55 | an upper-case ASCII letter becomes the lower-case letter at the same alphabet position ('A' to 'a', ..., 'Z' to 'z'); the result is never upper-case; it is a space exactly when the input is; every other character is kept |
| `Tokenizer.StripSpaces` | PricingFunctions.py:55 | no `' '` is left; the result is no longer than the input; a name without spaces is unchanged |
| `Tokenizer.ToLower` | PricingFunctions.py:55 | same length, and each position holds the lower-cased character of the input |
| `Tokenizer.Canonicalize` | PricingFunctions.py:55 | the canonical name contains no space and no upper-case ASCII letter, and is no longer than the input |
| `Tokenizer.EncodingFor` | PricingFunctions.py:57-63 | a canonical name has an encoding exactly when it is one of the four models' names, and then it is that model's encoding |
| `Tokenizer.Tokenize` | PricingFunctions.py:27-70 | the label is "Unknown Model" exactly when no model has the canonicalised name, and the counts are then 0 and 0; otherwise it is the model's canonical name with both texts counted in that model's encoding |
| `Tokenizer.CanonicalNameIsCanonical` | PricingFunctions.py:57-63 | the four names the dispatch compares against are fixed points of canonicalisation |
| `Tokenizer.CanonicalizeChar` | PricingFunctions.py:55 | a single character canonicalises to nothing if it is a space and to its lower case otherwise; with `CanonicalizeConcat` this fixes the canonical name of every string |
| `Tokenizer.StripSpacesConcat` | PricingFunctions.py:55 | removing spaces distributes over concatenation |
| `Tokenizer.CanonicalizeConcat` | PricingFunctions.py:55 | canonicalisation distributes over concatenation |
| `Tokenizer.CanonicalizeIdempotent` | PricingFunctions.py:55 | canonicalising twice gives the same result as once |
| `Tokenizer.SpaceInsensitive` | PricingFunctions.py:55 | inserting a space anywhere does not change the canonical name |
| `Tokenizer.TwoSpacesInsensitive` | PricingFunctions.py:55 | inserting two spaces anywhere does not change the canonical name |
| `Tokenizer.CaseInsensitive` | PricingFunctions.py:55 | lower-casing any one character does not change the canonical name |
| `Tokenizer.CanonicalizeSpaceFree` | PricingFunctions.py:55 | a name without spaces canonicalises to its letter-by-letter lower-casing |
| `Tokenizer.ExampleClaudeOpus4` | PricingFunctions.py:33-35 | "Claude Opus 4" canonicalises to `claudeopus4` |
| `Tokenizer.ExampleClaudeOpus4LowerCase` | PricingFunctions.py:73 | the default name "claude opus 4" canonicalises to `claudeopus4` as well |
| `Tokenizer.ExampleClaudeSonnet4` | PricingFunctions.py:37-39 | "Claude Sonnet 4" canonicalises to `claudesonnet4` |
| `Tokenizer.ExampleGpt41` | PricingFunctions.py:41-43 | "GPT-4.1" canonicalises to `gpt-4.1`, keeping the hyphen and the dot |
| `Tokenizer.ExampleOpenaiO3` | PricingFunctions.py:45-47 | "openaio3" canonicalises to `openaio3` |
| `Tokenizer.ExampleUnknown` | PricingFunctions.py:49-52 | "openai03" gives `(0, 0, "Unknown Model")` for any texts and any counter |
| `Memlog.Record` | PricingFunctions.py:82-110 | after a call the memlog has exactly the old keys plus the query; every other entry is unchanged |
| `Memlog.Remember` | PricingFunctions.py:82-110 | the statement-by-statement miss/hit branch produces exactly `Record`'s memlog |
| `Memlog.RecordMiss` | PricingFunctions.py:82-102 | a miss stores the query, the response and both counts; query cost is query tokens times query rate; response cost is response tokens times response rate; the total is their sum; the time list is exactly `[now]` |
| `Memlog.RecordHit` | PricingFunctions.py:104-110 | a hit keeps the query, response, counts and first costs; the total grows by exactly the stored query tokens times the retrieval rate; exactly one timestamp is appended |
| `Memlog.HitIgnoresCallInputs` | PricingFunctions.py:82 | on a hit, the call's response text and fresh token counts make no difference to the result |
| `Memlog.RecordSize` | PricingFunctions.py:92 | a miss adds exactly one record and a hit adds none, so each query has at most one record |
| `Memlog.FirstSeenAccounted` | PricingFunctions.py:84-102 | a newly created record satisfies the record invariant |
| `Memlog.RevisitedAccounted` | PricingFunctions.py:106-110 | a repeat keeps a record's invariant: the total is still the first cost plus one retrieval charge per later timestamp |
| `Memlog.RecordKeepsConsistent` | PricingFunctions.py:82-110 | every call keeps every record of the memlog consistent with the model's rates |
| `Memlog.RecordNeverLowersCost` | PricingFunctions.py:108-110 | with non-negative rates, no record's total decreases, and each time list only grows at its end |
| `Memlog.AccountedTotal` | PricingFunctions.py:86 | a consistent record's total is at least its first cost, and equals it while it has one timestamp |
| `Pricing.RatesOf` | PricingFunctions.py:84-230 | every model's rates are non-negative, and its retrieval rate is at most its first-seen query rate; the rate values themselves (Opus 18.75/75/1.5, Sonnet 3.75/15/1.5, GPT-4.1 and o3 2/8/0.5 per million tokens) are the constants `ClaudeOpus4Rates`, `ClaudeSonnet4Rates`, `Gpt41Rates` and `OpenaiO3Rates` that it returns |
| `Pricing.AnthropicStep` | PricingFunctions.py:73-155 | only the memlog of the Claude model that the name canonicalises to changes, by `Record` with that model's encoding and rates; every other memlog, and everything for any other name, is unchanged |
| `Pricing.OpenaiStep` | PricingFunctions.py:158-242 | only the memlog of the OpenAI model that the name canonicalises to changes, by `Record` with that model's encoding and rates; all else is unchanged |
| `Pricing.CallKeepsValid` | PricingFunctions.py:80-150 | replacing one model's memlog by a call's result keeps all four memlogs consistent; `openai_pricing` takes the same step (PricingFunctions.py:165-236) |
| `Pricing.AnthropicKeepsValid` | PricingFunctions.py:73-155 | `anthropic_pricing` keeps every memlog consistent with its own model's rates |
| `Pricing.OpenaiKeepsValid` | PricingFunctions.py:158-242 | `openai_pricing` keeps every memlog consistent with its own model's rates |
| `Pricing.RoutineReachesModel` | PricingFunctions.py:78-80 | for a name that canonicalises to model m, the routine of m's vendor turns m's memlog into `Call` on it: tokens counted in m's encoding, priced at m's rates |
| `Pricing.StepsNeverLowerCost` | PricingFunctions.py:104-232 | after either routine, every stored record is still present, its total has not decreased, and its old time list is a prefix of the new one |
| `Pricing.UnknownModelChangesNothing` | PricingFunctions.py:152-155 | a name no model has leaves all four memlogs unchanged in both routines |
| `Pricing.OtherVendorChangesNothing` | PricingFunctions.py:238-242 | an OpenAI model name leaves the memlogs unchanged in `anthropic_pricing`, and a Claude model name does the same in `openai_pricing` |
| `Pricing.FirstCallAfterClear` | PricingFunctions.py:268-274 | after clearing, a call for any known model creates the only record, at full price, with a single timestamp |
| `Pricing.SameQueryTwoModels` | PricingFunctions.py:21-24 | the same query priced for Claude Opus 4 and then GPT-4.1 is stored in both memlogs; the other two memlogs are untouched |
| `Pricing.RepeatQueryExample` | PricingFunctions.py:165-195 | on GPT-4.1, 5 query tokens and 10 response tokens first cost 10 + 80 = 90 per million; a repeat brings the total to 92.5 per million, with two timestamps |
| `Pricing.MemLogs.constructor` | PricingFunctions.py:21-24 | the four memlogs start empty and valid |
| `Pricing.MemLogs.AnthropicPricing` | PricingFunctions.py:73-155 | the new four memlogs are `AnthropicStep` of the old ones, and validity is kept |
| `Pricing.MemLogs.OpenaiPricing` | PricingFunctions.py:158-242 | the new four memlogs are `OpenaiStep` of the old ones, and validity is kept |
| `Pricing.MemLogs.ClearAllLogs` | PricingFunctions.py:268-274 | all four memlogs are empty afterwards |

Behaviour of the code that a reader might not expect, which the model follows:

- Canonicalisation removes only the space character `' '`, not all whitespace.
- An unknown model is the sentinel `(0, 0, "Unknown Model")` and a no-op. It is not an
  error result.
- Both routines return nothing. No record or per-call cost is handed back.
- On a hit the stored response text is kept from the first call. The new response is
  ignored.
- Only `clear_all_logs` exists. There is no clear for a single model.

## Left out

- The tiktoken calls `get_encoding`, `encoding_for_model` and `encode` (PricingFunctions.py:58-60, 66-67) belong to a foreign library. Token counting is the parameter `count(text, encoding)`. The encodings appear only as names.
- `datetime.now()` is a wall clock; the timestamp is the parameter `now`. The model claims nothing about timestamps increasing, because the code does not ensure it.
- All `print` output, including the cost messages and `print_log` (PricingFunctions.py:246-265), is display formatting only.
- Python `float` rounding: costs and rates are exact reals.
- `str.lower()` lower-cases all of Unicode; `Tokenizer.LowerChar` lower-cases only ASCII `A`-`Z`. The difference does not reach the dispatch except through a non-ASCII character that `str.lower()` maps to an ASCII one, and none of those maps to a character of the four names: KELVIN SIGN (U+212A) becomes `k`, which no name contains, and LATIN CAPITAL LETTER I WITH DOT ABOVE (U+0130) becomes `i` followed by U+0307, which no name contains either, so a name holding it still matches no model.
- The `Memory` dataclass is mutated in place. Here it is a value: a hit replaces the map entry. No code outside the memlogs keeps a reference to a record, so no aliasing is visible.
- Insertion order of the memlog dicts: a Dafny `map` has no order. Only `print_log` (PricingFunctions.py:251) depends on that order, and it is left out as display code.
- tiktoken's failure paths: `encode` raises `ValueError` on text containing special tokens, and the call then leaves every memlog unchanged. In the model, `count` is total, so such a call stores a record.
- `TestFile.py` is a driver script that calls the routines and sleeps; it makes no assertions.
- The module-level sample strings (PricingFunctions.py:6-7) are not modelled.
- The `global` declarations and `slots=True` are not modelled.
- Concurrency: the source is single-threaded.
