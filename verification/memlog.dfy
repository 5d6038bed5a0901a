/**
 * One model's memlog (PricingFunctions.py): a map from a query string to
 * the `Memory` record of its usage, and the first-seen versus repeat
 * decision that every pricing call makes on it.
 */
module Memlog {

  /** A moment as read from the clock; the clock itself is left to the caller. */
  type Timestamp = int

  /**
   * The `Memory` dataclass. Everything but `totalCost` and `time` is fixed
   * when the record is created; `time` holds one entry per call.
   */
  datatype Memory = Memory(
    query: string,
    queryTokens: nat,
    queryCost: real,
    llmResponse: string,
    responseTokens: nat,
    responseCost: real,
    totalCost: real,
    time: seq<Timestamp>)

  /** A model's prices per token: first query, first response, and query retrieval on a repeat. */
  datatype Rates = Rates(query: real, response: real, retrieval: real)
  {
    predicate NonNegative()
    {
      query >= 0.0 && response >= 0.0 && retrieval >= 0.0
    }
  }

  /** A memlog: at most one record per query string. */
  type Log = map<string, Memory>

  /** The record a first-seen query gets: full price, one timestamp. */
  function FirstSeen(query: string, llmResponse: string, queryTokens: nat, responseTokens: nat,
                     rates: Rates, now: Timestamp): Memory
  {
    var queryCost := queryTokens as real * rates.query;
    var responseCost := responseTokens as real * rates.response;
    Memory(query, queryTokens, queryCost, llmResponse, responseTokens, responseCost,
           queryCost + responseCost, [now])
  }

  /** A stored record after one more call: the retrieval charge added, one timestamp appended. */
  function Revisited(stored: Memory, rates: Rates, now: Timestamp): Memory
  {
    stored.(totalCost := stored.totalCost + stored.queryTokens as real * rates.retrieval,
            time := stored.time + [now])
  }

  /**
   * The effect of one recognised pricing call on the model's memlog: a miss
   * inserts a first-seen record, a hit revisits the stored one. Nothing but
   * the entry for `query` is touched, and the entry exists afterwards.
   */
  function Record(log: Log, query: string, llmResponse: string, queryTokens: nat, responseTokens: nat,
                  rates: Rates, now: Timestamp): (r: Log)
    ensures r.Keys == log.Keys + {query}
    ensures forall q :: q in log && q != query ==> r[q] == log[q]
  {
    if query !in log then
      log[query := FirstSeen(query, llmResponse, queryTokens, responseTokens, rates, now)]
    else
      log[query := Revisited(log[query], rates, now)]
  }

  /**
   * The branch of `anthropic_pricing` / `openai_pricing` that runs once the
   * model is known, step by step as the source does it: build the record
   * with an empty time list and append to it, or add the retrieval cost to
   * the stored total and append.
   */
  method Remember(log: Log, query: string, llmResponse: string, queryTokens: nat, responseTokens: nat,
                  rates: Rates, now: Timestamp) returns (updated: Log)
    ensures updated == Record(log, query, llmResponse, queryTokens, responseTokens, rates, now)
  {
    updated := log;
    if query !in updated {
      var queryCost := queryTokens as real * rates.query;
      var responseCost := responseTokens as real * rates.response;
      var totalCost := queryCost + responseCost;
      updated := updated[query := Memory(query, queryTokens, queryCost, llmResponse,
                                         responseTokens, responseCost, totalCost, [])];
      updated := updated[query := updated[query].(time := updated[query].time + [now])];
      assert updated[query] == FirstSeen(query, llmResponse, queryTokens, responseTokens, rates, now);
    } else {
      var queryRetrievalCost := updated[query].queryTokens as real * rates.retrieval;
      updated := updated[query := updated[query].(totalCost := updated[query].totalCost + queryRetrievalCost)];
      updated := updated[query := updated[query].(time := updated[query].time + [now])];
      assert updated[query] == Revisited(log[query], rates, now);
    }
    assert updated.Keys == log.Keys + {query};
  }

  /**
   * What a record stored under `key` always satisfies: it carries its own key,
   * at least one timestamp, first costs that are token count times rate, and
   * a total that is the first cost plus one retrieval charge per later call.
   */
  ghost predicate Accounted(rec: Memory, key: string, rates: Rates)
  {
    && rec.query == key
    && |rec.time| >= 1
    && rec.queryCost == rec.queryTokens as real * rates.query
    && rec.responseCost == rec.responseTokens as real * rates.response
    && rec.totalCost == rec.queryCost + rec.responseCost
                        + (|rec.time| - 1) as real * (rec.queryTokens as real * rates.retrieval)
  }

  /** Every record of the memlog is accounted for at the model's rates. */
  ghost predicate Consistent(log: Log, rates: Rates)
  {
    forall q :: q in log ==> Accounted(log[q], q, rates)
  }

  /** A miss creates the full-price record, with exactly one timestamp. */
  lemma RecordMiss(log: Log, query: string, llmResponse: string, queryTokens: nat, responseTokens: nat,
                   rates: Rates, now: Timestamp)
    requires query !in log
    ensures var rec := Record(log, query, llmResponse, queryTokens, responseTokens, rates, now)[query];
      && rec.query == query && rec.llmResponse == llmResponse
      && rec.queryTokens == queryTokens && rec.responseTokens == responseTokens
      && rec.queryCost == queryTokens as real * rates.query
      && rec.responseCost == responseTokens as real * rates.response
      && rec.totalCost == rec.queryCost + rec.responseCost
      && rec.time == [now]
  {
  }

  /**
   * A hit changes only the total and the time list: the total grows by the
   * STORED query token count times the retrieval rate, and exactly one
   * timestamp is appended; counts, first costs and the first response stay.
   */
  lemma RecordHit(log: Log, query: string, llmResponse: string, queryTokens: nat, responseTokens: nat,
                  rates: Rates, now: Timestamp)
    requires query in log
    ensures var stored := log[query];
      var rec := Record(log, query, llmResponse, queryTokens, responseTokens, rates, now)[query];
      && rec.query == stored.query && rec.llmResponse == stored.llmResponse
      && rec.queryTokens == stored.queryTokens && rec.responseTokens == stored.responseTokens
      && rec.queryCost == stored.queryCost && rec.responseCost == stored.responseCost
      && rec.totalCost == stored.totalCost + stored.queryTokens as real * rates.retrieval
      && rec.time == stored.time + [now]
  {
  }

  /**
   * The key is the query alone: on a hit, the response text and the token
   * counts of the current call make no difference.
   */
  lemma HitIgnoresCallInputs(log: Log, query: string, rates: Rates, now: Timestamp,
                             llmResponse1: string, queryTokens1: nat, responseTokens1: nat,
                             llmResponse2: string, queryTokens2: nat, responseTokens2: nat)
    requires query in log
    ensures Record(log, query, llmResponse1, queryTokens1, responseTokens1, rates, now)
         == Record(log, query, llmResponse2, queryTokens2, responseTokens2, rates, now)
  {
  }

  /** A call adds a record on a miss and none on a hit. */
  lemma RecordSize(log: Log, query: string, llmResponse: string, queryTokens: nat, responseTokens: nat,
                   rates: Rates, now: Timestamp)
    ensures |Record(log, query, llmResponse, queryTokens, responseTokens, rates, now)|
         == if query in log then |log| else |log| + 1
  {
  }

  /** A first-seen record is accounted for. */
  lemma FirstSeenAccounted(query: string, llmResponse: string, queryTokens: nat, responseTokens: nat,
                           rates: Rates, now: Timestamp)
    ensures Accounted(FirstSeen(query, llmResponse, queryTokens, responseTokens, rates, now), query, rates)
  {
  }

  /** A revisit adds one timestamp and one retrieval charge, so it stays accounted for. */
  lemma RevisitedAccounted(stored: Memory, key: string, rates: Rates, now: Timestamp)
    requires Accounted(stored, key, rates)
    ensures Accounted(Revisited(stored, rates, now), key, rates)
  {
  }

  /** Each call keeps every record of the memlog accounted for. */
  lemma RecordKeepsConsistent(log: Log, query: string, llmResponse: string, queryTokens: nat,
                              responseTokens: nat, rates: Rates, now: Timestamp)
    requires Consistent(log, rates)
    ensures Consistent(Record(log, query, llmResponse, queryTokens, responseTokens, rates, now), rates)
  {
    var r := Record(log, query, llmResponse, queryTokens, responseTokens, rates, now);
    if query in log {
      RevisitedAccounted(log[query], query, rates, now);
    } else {
      FirstSeenAccounted(query, llmResponse, queryTokens, responseTokens, rates, now);
    }
    forall q | q in r
      ensures Accounted(r[q], q, rates)
    {
      if q != query {
        assert r[q] == log[q];
      }
    }
  }

  /**
   * With non-negative rates a call never lowers any record's total, and
   * every record's time list only grows at its end.
   */
  lemma RecordNeverLowersCost(log: Log, query: string, llmResponse: string, queryTokens: nat,
                              responseTokens: nat, rates: Rates, now: Timestamp)
    requires rates.NonNegative()
    ensures var r := Record(log, query, llmResponse, queryTokens, responseTokens, rates, now);
      forall q :: q in log ==> r[q].totalCost >= log[q].totalCost && log[q].time <= r[q].time
  {
  }

  /**
   * What the invariant gives a reader of one record: with non-negative rates
   * its total is at least its first cost, and exactly that after one call.
   */
  lemma AccountedTotal(rec: Memory, key: string, rates: Rates)
    requires Accounted(rec, key, rates) && rates.NonNegative()
    ensures rec.totalCost >= rec.queryCost + rec.responseCost
    ensures |rec.time| == 1 ==> rec.totalCost == rec.queryCost + rec.responseCost
  {
  }
}
