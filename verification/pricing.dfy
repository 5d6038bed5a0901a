/**
 * The four module-level memlogs of PricingFunctions.py and the routines that
 * update them: `anthropic_pricing`, `openai_pricing` and `clear_all_logs`.
 */
module Pricing {
  import opened Tokenizer
  import opened Memlog

  /** Prices per token, as the source writes them: dollars per million tokens. */
  const ClaudeOpus4Rates: Rates := Rates(18.75 / 1000000.0, 75.0 / 1000000.0, 1.5 / 1000000.0)
  const ClaudeSonnet4Rates: Rates := Rates(3.75 / 1000000.0, 15.0 / 1000000.0, 1.5 / 1000000.0)
  const Gpt41Rates: Rates := Rates(2.0 / 1000000.0, 8.0 / 1000000.0, 0.5 / 1000000.0)
  const OpenaiO3Rates: Rates := Rates(2.0 / 1000000.0, 8.0 / 1000000.0, 0.5 / 1000000.0)

  /**
   * The rate triple of each model. No rate is negative, and a repeat's
   * retrieval rate never exceeds the first-seen query rate.
   */
  function RatesOf(m: Model): (r: Rates)
    ensures r.NonNegative()
    ensures r.retrieval <= r.query
  {
    match m
    case ClaudeOpus4 => ClaudeOpus4Rates
    case ClaudeSonnet4 => ClaudeSonnet4Rates
    case Gpt41 => Gpt41Rates
    case OpenaiO3 => OpenaiO3Rates
  }

  /** The models `anthropic_pricing` handles; `openai_pricing` handles the others. */
  predicate IsAnthropic(m: Model)
  {
    m == ClaudeOpus4 || m == ClaudeSonnet4
  }

  /** The contents of the four memlogs at one moment. */
  datatype Logs = Logs(claudeOpus4: Log, claudeSonnet4: Log, gpt41: Log, openaiO3: Log)
  {
    function Get(m: Model): Log
    {
      match m
      case ClaudeOpus4 => claudeOpus4
      case ClaudeSonnet4 => claudeSonnet4
      case Gpt41 => gpt41
      case OpenaiO3 => openaiO3
    }

    /** Every memlog is consistent with its own model's rates. */
    ghost predicate Valid()
    {
      forall m :: Consistent(Get(m), RatesOf(m))
    }
  }

  /** The four memlogs as the module starts them, and as `clear_all_logs` leaves them. */
  const NoLogs: Logs := Logs(map[], map[], map[], map[])

  /**
   * The call `model` names, as it reaches model `m`'s memlog: `Record` with
   * tokens counted in `m`'s encoding and `m`'s rates.
   */
  function Call(logs: Logs, m: Model, query: string, llmResponse: string,
                count: (string, Encoding) -> nat, now: Timestamp): Log
  {
    Record(logs.Get(m), query, llmResponse, count(query, EncodingOf(m)), count(llmResponse, EncodingOf(m)),
           RatesOf(m), now)
  }

  /**
   * `anthropic_pricing`: tokenize, then dispatch on the canonical name the
   * tokenizer returns; any other name, including an OpenAI one, changes nothing.
   */
  function AnthropicStep(logs: Logs, query: string, llmResponse: string, model: string,
                         count: (string, Encoding) -> nat, now: Timestamp): (r: Logs)
    ensures forall m :: r.Get(m) == if IsAnthropic(m) && Canonicalize(model) == CanonicalName(m)
                                    then Call(logs, m, query, llmResponse, count, now)
                                    else logs.Get(m)
  {
    var t := Tokenize(query, llmResponse, model, count);
    if t.model == "claudeopus4" then
      logs.(claudeOpus4 := Record(logs.claudeOpus4, query, llmResponse, t.queryTokens, t.responseTokens,
                                  ClaudeOpus4Rates, now))
    else if t.model == "claudesonnet4" then
      logs.(claudeSonnet4 := Record(logs.claudeSonnet4, query, llmResponse, t.queryTokens, t.responseTokens,
                                    ClaudeSonnet4Rates, now))
    else
      logs
  }

  /**
   * `openai_pricing`: the same dispatch for GPT-4.1 and o3; any other name,
   * including a Claude one, changes nothing.
   */
  function OpenaiStep(logs: Logs, query: string, llmResponse: string, model: string,
                      count: (string, Encoding) -> nat, now: Timestamp): (r: Logs)
    ensures forall m :: r.Get(m) == if !IsAnthropic(m) && Canonicalize(model) == CanonicalName(m)
                                    then Call(logs, m, query, llmResponse, count, now)
                                    else logs.Get(m)
  {
    var t := Tokenize(query, llmResponse, model, count);
    if t.model == "gpt-4.1" then
      logs.(gpt41 := Record(logs.gpt41, query, llmResponse, t.queryTokens, t.responseTokens, Gpt41Rates, now))
    else if t.model == "openaio3" then
      logs.(openaiO3 := Record(logs.openaiO3, query, llmResponse, t.queryTokens, t.responseTokens,
                               OpenaiO3Rates, now))
    else
      logs
  }

  /** Replacing one memlog by a call's result keeps the four memlogs valid. */
  lemma CallKeepsValid(logs: Logs, r: Logs, m: Model, query: string, llmResponse: string,
                       count: (string, Encoding) -> nat, now: Timestamp)
    requires logs.Valid()
    requires forall m' :: r.Get(m') == if m' == m then Call(logs, m, query, llmResponse, count, now)
                                       else logs.Get(m')
    ensures r.Valid()
  {
    RecordKeepsConsistent(logs.Get(m), query, llmResponse, count(query, EncodingOf(m)),
                          count(llmResponse, EncodingOf(m)), RatesOf(m), now);
    assert Consistent(r.Get(m), RatesOf(m));
  }

  /** `anthropic_pricing` keeps every memlog consistent with its model's rates. */
  lemma AnthropicKeepsValid(logs: Logs, query: string, llmResponse: string, model: string,
                            count: (string, Encoding) -> nat, now: Timestamp)
    requires logs.Valid()
    ensures AnthropicStep(logs, query, llmResponse, model, count, now).Valid()
  {
    var r := AnthropicStep(logs, query, llmResponse, model, count, now);
    if m :| IsAnthropic(m) && Canonicalize(model) == CanonicalName(m) {
      CallKeepsValid(logs, r, m, query, llmResponse, count, now);
    } else {
      assert forall m :: r.Get(m) == logs.Get(m);
    }
  }

  /** `openai_pricing` keeps every memlog consistent with its model's rates. */
  lemma OpenaiKeepsValid(logs: Logs, query: string, llmResponse: string, model: string,
                         count: (string, Encoding) -> nat, now: Timestamp)
    requires logs.Valid()
    ensures OpenaiStep(logs, query, llmResponse, model, count, now).Valid()
  {
    var r := OpenaiStep(logs, query, llmResponse, model, count, now);
    if m :| !IsAnthropic(m) && Canonicalize(model) == CanonicalName(m) {
      CallKeepsValid(logs, r, m, query, llmResponse, count, now);
    } else {
      assert forall m :: r.Get(m) == logs.Get(m);
    }
  }

  /**
   * Neither routine lowers any stored total or rewrites any stored time
   * list: totals only grow and timestamps are only appended.
   */
  lemma StepsNeverLowerCost(logs: Logs, query: string, llmResponse: string, model: string,
                            count: (string, Encoding) -> nat, now: Timestamp, m: Model, q: string)
    requires q in logs.Get(m)
    ensures var a := AnthropicStep(logs, query, llmResponse, model, count, now).Get(m);
      q in a && a[q].totalCost >= logs.Get(m)[q].totalCost && logs.Get(m)[q].time <= a[q].time
    ensures var o := OpenaiStep(logs, query, llmResponse, model, count, now).Get(m);
      q in o && o[q].totalCost >= logs.Get(m)[q].totalCost && logs.Get(m)[q].time <= o[q].time
  {
  }

  /** A name no model answers to leaves all four memlogs as they were, in both routines. */
  lemma UnknownModelChangesNothing(logs: Logs, query: string, llmResponse: string, model: string,
                                   count: (string, Encoding) -> nat, now: Timestamp)
    requires forall m :: Canonicalize(model) != CanonicalName(m)
    ensures AnthropicStep(logs, query, llmResponse, model, count, now) == logs
    ensures OpenaiStep(logs, query, llmResponse, model, count, now) == logs
  {
  }

  /** A model of the other vendor is unknown to a routine: an OpenAI name changes nothing in
      `anthropic_pricing`, and a Claude name nothing in `openai_pricing`. */
  lemma OtherVendorChangesNothing(logs: Logs, query: string, llmResponse: string, model: string,
                                  count: (string, Encoding) -> nat, now: Timestamp, m: Model)
    requires Canonicalize(model) == CanonicalName(m)
    ensures !IsAnthropic(m) ==> AnthropicStep(logs, query, llmResponse, model, count, now) == logs
    ensures IsAnthropic(m) ==> OpenaiStep(logs, query, llmResponse, model, count, now) == logs
  {
  }

  /** The routine of model `m`'s vendor applies `Call` to `m`'s memlog. */
  lemma RoutineReachesModel(logs: Logs, query: string, llmResponse: string, model: string,
                            count: (string, Encoding) -> nat, now: Timestamp, m: Model)
    requires Canonicalize(model) == CanonicalName(m)
    ensures (if IsAnthropic(m) then AnthropicStep(logs, query, llmResponse, model, count, now)
             else OpenaiStep(logs, query, llmResponse, model, count, now)).Get(m)
         == Call(logs, m, query, llmResponse, count, now)
  {
  }

  /**
   * After `clear_all_logs`, every query is first seen again: a call for any
   * known model creates a full-price record with one timestamp.
   */
  lemma FirstCallAfterClear(query: string, llmResponse: string, model: string,
                            count: (string, Encoding) -> nat, now: Timestamp, m: Model)
    requires Canonicalize(model) == CanonicalName(m)
    ensures var r := if IsAnthropic(m) then AnthropicStep(NoLogs, query, llmResponse, model, count, now)
                     else OpenaiStep(NoLogs, query, llmResponse, model, count, now);
      && r.Get(m).Keys == {query}
      && r.Get(m)[query].time == [now]
      && r.Get(m)[query].queryCost == count(query, EncodingOf(m)) as real * RatesOf(m).query
      && r.Get(m)[query].responseCost == count(llmResponse, EncodingOf(m)) as real * RatesOf(m).response
      && r.Get(m)[query].totalCost == r.Get(m)[query].queryCost + r.Get(m)[query].responseCost
  {
    var qt, rt := count(query, EncodingOf(m)), count(llmResponse, EncodingOf(m));
    var c := Record(map[], query, llmResponse, qt, rt, RatesOf(m), now);
    RecordMiss(map[], query, llmResponse, qt, rt, RatesOf(m), now);
    assert c.Keys == {query};
    assert NoLogs.Get(m) == map[];
    RoutineReachesModel(NoLogs, query, llmResponse, model, count, now, m);
  }

  /**
   * The memlogs are independent: the same query priced for Claude Opus 4
   * (say as "Claude Opus 4") and then for GPT-4.1 (say as "GPT-4.1") ends up
   * in both memlogs, and the other two are untouched.
   */
  lemma SameQueryTwoModels(logs: Logs, query: string, llmResponse: string, opusName: string, gptName: string,
                           count: (string, Encoding) -> nat, t1: Timestamp, t2: Timestamp)
    requires Canonicalize(opusName) == CanonicalName(ClaudeOpus4)
    requires Canonicalize(gptName) == CanonicalName(Gpt41)
    ensures var r := OpenaiStep(AnthropicStep(logs, query, llmResponse, opusName, count, t1),
                                query, llmResponse, gptName, count, t2);
      && query in r.claudeOpus4 && query in r.gpt41
      && r.claudeSonnet4 == logs.claudeSonnet4 && r.openaiO3 == logs.openaiO3
  {
  }

  /**
   * A worked example on GPT-4.1 (named, say, "GPT-4.1"): a 5-token query
   * with a 10-token response first costs 10 + 80 = 90 dollars per million;
   * asking it again adds 5 * 0.5 = 2.5, for a total of 92.5 and two timestamps.
   */
  lemma RepeatQueryExample(logs: Logs, query: string, llmResponse: string, model: string,
                           count: (string, Encoding) -> nat, t1: Timestamp, t2: Timestamp)
    requires Canonicalize(model) == CanonicalName(Gpt41)
    requires query !in logs.gpt41
    requires count(query, EncodingOf(Gpt41)) == 5 && count(llmResponse, EncodingOf(Gpt41)) == 10
    ensures var once := OpenaiStep(logs, query, llmResponse, model, count, t1);
      var twice := OpenaiStep(once, query, llmResponse, model, count, t2);
      && once.gpt41[query].queryCost == 10.0 / 1000000.0
      && once.gpt41[query].responseCost == 80.0 / 1000000.0
      && once.gpt41[query].totalCost == 90.0 / 1000000.0
      && twice.gpt41[query].totalCost == 92.5 / 1000000.0
      && twice.gpt41[query].time == [t1, t2]
  {
  }

  /** The module's four memlogs, updated in place by the pricing routines. */
  class MemLogs {
    var claudeOpus4Memlog: Log
    var claudeSonnet4Memlog: Log
    var gpt41Memlog: Log
    var openaiO3Memlog: Log

    function Snapshot(): Logs
      reads this
    {
      Logs(claudeOpus4Memlog, claudeSonnet4Memlog, gpt41Memlog, openaiO3Memlog)
    }

    ghost predicate Valid()
      reads this
    {
      Snapshot().Valid()
    }

    /** The four memlogs start empty. */
    constructor ()
      ensures Valid() && Snapshot() == NoLogs
    {
      claudeOpus4Memlog, claudeSonnet4Memlog, gpt41Memlog, openaiO3Memlog := map[], map[], map[], map[];
    }

    /** `anthropic_pricing(query, llm_response, model = 'claude opus 4')`. */
    method AnthropicPricing(query: string, llmResponse: string, model: string := "claude opus 4",
                            count: (string, Encoding) -> nat, now: Timestamp)
      requires Valid()
      modifies this
      ensures Valid()
      ensures Snapshot() == AnthropicStep(old(Snapshot()), query, llmResponse, model, count, now)
    {
      AnthropicKeepsValid(Snapshot(), query, llmResponse, model, count, now);
      var t := Tokenize(query, llmResponse, model, count);
      if t.model == "claudeopus4" {
        claudeOpus4Memlog := Remember(claudeOpus4Memlog, query, llmResponse, t.queryTokens, t.responseTokens,
                                      ClaudeOpus4Rates, now);
      } else if t.model == "claudesonnet4" {
        claudeSonnet4Memlog := Remember(claudeSonnet4Memlog, query, llmResponse, t.queryTokens, t.responseTokens,
                                        ClaudeSonnet4Rates, now);
      }
    }

    /** `openai_pricing(query, llm_response, model = 'GPT-4.1')`. */
    method OpenaiPricing(query: string, llmResponse: string, model: string := "GPT-4.1",
                         count: (string, Encoding) -> nat, now: Timestamp)
      requires Valid()
      modifies this
      ensures Valid()
      ensures Snapshot() == OpenaiStep(old(Snapshot()), query, llmResponse, model, count, now)
    {
      OpenaiKeepsValid(Snapshot(), query, llmResponse, model, count, now);
      var t := Tokenize(query, llmResponse, model, count);
      if t.model == "gpt-4.1" {
        gpt41Memlog := Remember(gpt41Memlog, query, llmResponse, t.queryTokens, t.responseTokens,
                                Gpt41Rates, now);
      } else if t.model == "openaio3" {
        openaiO3Memlog := Remember(openaiO3Memlog, query, llmResponse, t.queryTokens, t.responseTokens,
                                   OpenaiO3Rates, now);
      }
    }

    /** `clear_all_logs`: all four memlogs emptied. */
    method ClearAllLogs()
      modifies this
      ensures Valid() && Snapshot() == NoLogs
    {
      claudeOpus4Memlog := map[];
      claudeSonnet4Memlog := map[];
      gpt41Memlog := map[];
      openaiO3Memlog := map[];
    }
  }
}
