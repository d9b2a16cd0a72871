/** The buffering of the ElasticSearch logger (server/utils/logger.elastic-search.ts): log
    records and metric aggregates wait in two buffers of at most 1000 documents and leave in
    one bulk request when a buffer fills or a flush runs; metric samples wait per key until
    500 of them (or a flush) turn them into one aggregate. The ElasticSearch client is not
    part of this model: a bulk request is recorded in `sent`, and the answer to it only ever
    reaches the console. */
module EsLogger {
  import opened Types

  /** `bufferLimit`. */
  const BUFFER_LIMIT: nat := 1000
  /** The number of samples of one key that `stats` aggregates at once. */
  const AUTO_STATS_LIMIT: nat := 500
  /** `LOGGER_MODULE` of server/utils/logger.base.ts. */
  const LOGGER_MODULE: string := "server"

  datatype Level = Info | Warn | Error

  /** A metric sample as `stats` reads it. `extra` is the JSON text of the sample's extra
      object when it has one. */
  datatype StatsRequest = StatsRequest(name: string, value: real, unit: string,
                                       extra: Option<string>)

  datatype Stats = Stats(sum: real, avg: real, max: real, min: real, count: nat)

  /** The records pushed into the two buffers. */
  datatype Document =
    | LogDocument(hostname: string, loggerModule: string, timestamp: real, level: Level,
                  message: string, logExtra: Option<string>)
    | StatsDocument(hostname: string, loggerModule: string, timestamp: real, name: string,
                    unit: string, statsExtra: Option<string>, sum: real, avg: real,
                    max: real, min: real, count: nat)

  // ---------------------------------------------------------------- the stats key

  function ExtraText(extra: Option<string>): string {
    if extra.Some? then extra.value else ""
  }

  /** The key under which `stats` collects a sample: the name, `__`, the JSON of the extra
      object (nothing without one), `--`, the unit. */
  function StatsKey(r: StatsRequest): (key: string)
    ensures |key| == |r.name| + |ExtraText(r.extra)| + |r.unit| + 4
    ensures r.name <= key && key[|r.name|..|r.name| + 2] == "__"
    ensures key[|key| - |r.unit| - 2..] == "--" + r.unit
  {
    r.name + "__" + ExtraText(r.extra) + "--" + r.unit
  }

  /** Two words split at the first occurrence of a character that neither head contains
      are split the same way. */
  lemma SplitAtFirst(a1: string, b1: string, a2: string, b2: string, c: char)
    requires c !in a1 && c !in a2
    requires a1 + [c] + b1 == a2 + [c] + b2
    ensures a1 == a2 && b1 == b2
  {
    var w := a1 + [c] + b1;
    assert w[|a1|] == c;
    assert (a2 + [c] + b2)[|a2|] == c;
    if |a1| != |a2| {
      assert false;
    }
    assert a1 == w[..|a1|] && a2 == w[..|a2|];
    assert b1 == w[|a1| + 1..] && b2 == (a2 + [c] + b2)[|a2| + 1..];
  }

  /** The mirror image: split at the last occurrence of a character that neither tail
      contains. */
  lemma SplitAtLast(a1: string, b1: string, a2: string, b2: string, c: char)
    requires c !in b1 && c !in b2
    requires a1 + [c] + b1 == a2 + [c] + b2
    ensures a1 == a2 && b1 == b2
  {
    var w := a1 + [c] + b1;
    assert w[|a1|] == c;
    assert (a2 + [c] + b2)[|a2|] == c;
    if |a1| != |a2| {
      assert false;
    }
    assert a1 == w[..|a1|] && a2 == w[..|a2|];
    assert b1 == w[|a1| + 1..] && b2 == (a2 + [c] + b2)[|a2| + 1..];
  }

  /** The part of a key between the name's `_` and the unit's `-`. */
  function KeyMiddle(r: StatsRequest): string {
    "_" + ExtraText(r.extra) + "-"
  }

  lemma KeyParts(r: StatsRequest)
    ensures StatsKey(r) == r.name + ['_'] + (KeyMiddle(r) + ['-'] + r.unit)
    ensures ExtraText(r.extra) == KeyMiddle(r)[1..|KeyMiddle(r)| - 1]
  {
    var e := ExtraText(r.extra);
    assert r.name + "__" + e + "--" + r.unit == r.name + ['_'] + (("_" + e + "-") + ['-'] + r.unit);
  }

  /** Distinct metrics never share a key while names keep clear of `_`, units and the extra
      JSON keep clear of `-`, and an extra object's JSON is never empty. */
  lemma StatsKeyInjective(r1: StatsRequest, r2: StatsRequest)
    requires '_' !in r1.name && '_' !in r2.name
    requires '-' !in r1.unit && '-' !in r2.unit
    requires '-' !in ExtraText(r1.extra) && '-' !in ExtraText(r2.extra)
    requires r1.extra != Some("") && r2.extra != Some("")
    requires StatsKey(r1) == StatsKey(r2)
    ensures r1.name == r2.name && r1.unit == r2.unit && r1.extra == r2.extra
  {
    KeyParts(r1);
    KeyParts(r2);
    SplitAtFirst(r1.name, KeyMiddle(r1) + ['-'] + r1.unit,
                 r2.name, KeyMiddle(r2) + ['-'] + r2.unit, '_');
    SplitAtLast(KeyMiddle(r1), r1.unit, KeyMiddle(r2), r2.unit, '-');
  }

  // ---------------------------------------------------------------- statsFrom

  /** `values.reduce((a, b) => a + b, 0)`, summed from the left. */
  function Sum(rs: seq<StatsRequest>): real {
    if |rs| == 0 then 0.0 else Sum(rs[..|rs| - 1]) + rs[|rs| - 1].value
  }

  /** `Math.max(...values)` of a non-empty list. */
  function MaxValue(rs: seq<StatsRequest>): (r: real)
    requires |rs| > 0
    ensures forall i :: 0 <= i < |rs| ==> rs[i].value <= r
    ensures exists i :: 0 <= i < |rs| && rs[i].value == r
  {
    if |rs| == 1 then rs[0].value
    else
      var m := MaxValue(rs[..|rs| - 1]);
      assert forall i :: 0 <= i < |rs| - 1 ==> rs[..|rs| - 1][i] == rs[i];
      if rs[|rs| - 1].value > m then rs[|rs| - 1].value else m
  }

  /** `Math.min(...values)` of a non-empty list. */
  function MinValue(rs: seq<StatsRequest>): (r: real)
    requires |rs| > 0
    ensures forall i :: 0 <= i < |rs| ==> r <= rs[i].value
    ensures exists i :: 0 <= i < |rs| && rs[i].value == r
  {
    if |rs| == 1 then rs[0].value
    else
      var m := MinValue(rs[..|rs| - 1]);
      assert forall i :: 0 <= i < |rs| - 1 ==> rs[..|rs| - 1][i] == rs[i];
      if rs[|rs| - 1].value < m then rs[|rs| - 1].value else m
  }

  /** The sum of n values lies between n times any lower bound and n times any upper bound. */
  lemma {:induction false} SumBetween(rs: seq<StatsRequest>, lo: real, hi: real)
    requires forall i :: 0 <= i < |rs| ==> lo <= rs[i].value <= hi
    ensures |rs| as real * lo <= Sum(rs) <= |rs| as real * hi
  {
    if |rs| > 0 {
      var init := rs[..|rs| - 1];
      assert forall i :: 0 <= i < |init| ==> init[i] == rs[i];
      SumBetween(init, lo, hi);
      assert |rs| as real * lo == |init| as real * lo + lo;
      assert |rs| as real * hi == |init| as real * hi + hi;
    }
  }

  /** A mean of n values lies between the bounds of the values. */
  lemma MeanBetween(sum: real, n: real, lo: real, hi: real)
    requires n > 0.0 && n * lo <= sum <= n * hi
    ensures lo <= sum / n <= hi
  {
  }

  /** The mean of a non-empty list lies between any bounds of its values. */
  lemma MeanOfBounded(rs: seq<StatsRequest>, lo: real, hi: real)
    requires |rs| > 0
    requires forall i :: 0 <= i < |rs| ==> lo <= rs[i].value <= hi
    ensures lo <= Sum(rs) / |rs| as real <= hi
  {
    SumBetween(rs, lo, hi);
    MeanBetween(Sum(rs), |rs| as real, lo, hi);
  }

  /** `statsFrom(requests)` for the non-empty lists it is called with. */
  function StatsFrom(requests: seq<StatsRequest>): Stats
    requires |requests| > 0
  {
    var n := |requests| as real;
    Stats(Sum(requests), Sum(requests) / n, MaxValue(requests), MinValue(requests), |requests|)
  }

  /** The mean of an aggregate lies between its extremes (which `MaxValue` and `MinValue`
      show to be values of the list that bound all of it). */
  lemma StatsFromMean(requests: seq<StatsRequest>)
    requires |requests| > 0
    ensures StatsFrom(requests).min <= StatsFrom(requests).avg <= StatsFrom(requests).max
  {
    MeanOfBounded(requests, MinValue(requests), MaxValue(requests));
  }

  // ---------------------------------------------------------------- the buffers

  /** The record `addStats` pushes for a metric and its aggregate. */
  function AggregateDocument(hostname: string, request: StatsRequest, stats: Stats, now: real)
    : Document
  {
    StatsDocument(hostname, LOGGER_MODULE, now, request.name, request.unit, request.extra,
                  stats.sum, stats.avg, stats.max, stats.min, stats.count)
  }

  /** The aggregate `flushStats` pushes for one pending list: named after its first sample. */
  function AggregateOf(hostname: string, requests: seq<StatsRequest>, now: real): Document
    requires |requests| > 0
  {
    AggregateDocument(hostname, requests[0], StatsFrom(requests), now)
  }

  /** The documents of a run of bulk requests, in the order they went out. */
  ghost function Flatten(bulks: seq<seq<Document>>): seq<Document> {
    if |bulks| == 0 then [] else Flatten(bulks[..|bulks| - 1]) + bulks[|bulks| - 1]
  }

  /** `flush(index, buffer)` on a buffer and the bulk requests already made to its index:
      nothing for an empty buffer, otherwise one more request with the buffer's documents;
      the buffer ends empty and no document is lost or repeated. */
  function Flush(buffer: seq<Document>, bulks: seq<seq<Document>>)
    : (r: (seq<Document>, seq<seq<Document>>))
    ensures r.0 == []
    ensures buffer == [] ==> r.1 == bulks
    ensures Flatten(r.1) == Flatten(bulks) + buffer
  {
    if |buffer| == 0 then ([], bulks)
    else
      assert (bulks + [buffer])[..|bulks|] == bulks;
      ([], bulks + [buffer])
  }

  /** A push into a buffer followed by the source's limit test: the buffer is flushed once
      it holds 1000 documents. It stays below the limit, and the documents sent followed by
      those still buffered gain exactly the new one at the end. */
  function Push(buffer: seq<Document>, bulks: seq<seq<Document>>, doc: Document)
    : (r: (seq<Document>, seq<seq<Document>>))
    ensures |buffer| < BUFFER_LIMIT ==> |r.0| < BUFFER_LIMIT
    ensures |buffer| + 1 < BUFFER_LIMIT ==> r == (buffer + [doc], bulks)
    ensures Flatten(r.1) + r.0 == Flatten(bulks) + buffer + [doc]
  {
    var pushed := buffer + [doc];
    if |pushed| >= BUFFER_LIMIT then Flush(pushed, bulks) else (pushed, bulks)
  }

  /** The pushes of several documents, one after the other. */
  function PushAll(buffer: seq<Document>, bulks: seq<seq<Document>>, docs: seq<Document>)
    : (r: (seq<Document>, seq<seq<Document>>))
    ensures |buffer| < BUFFER_LIMIT ==> |r.0| < BUFFER_LIMIT
    ensures Flatten(r.1) + r.0 == Flatten(bulks) + buffer + docs
  {
    if |docs| == 0 then (buffer, bulks)
    else
      var before := PushAll(buffer, bulks, docs[..|docs| - 1]);
      assert docs == docs[..|docs| - 1] + [docs[|docs| - 1]];
      Push(before.0, before.1, docs[|docs| - 1])
  }

  lemma PushAllSnoc(buffer: seq<Document>, bulks: seq<seq<Document>>, docs: seq<Document>,
                    doc: Document)
    ensures var before := PushAll(buffer, bulks, docs);
      PushAll(buffer, bulks, docs + [doc]) == Push(before.0, before.1, doc)
  {
    assert (docs + [doc])[..|docs|] == docs;
  }

  /** `autoStatsBuffer` in its insertion order: keys distinct, exactly the stored ones, every
      list holding 1 to 499 samples of its own key. */
  ghost predicate PendingWellFormed(pending: map<string, seq<StatsRequest>>, order: seq<string>) {
    && Distinct(order)
    && (forall k :: k in pending <==> k in order)
    && (forall k :: k in pending ==> 0 < |pending[k]| < AUTO_STATS_LIMIT)
    && (forall k, r :: k in pending && r in pending[k] ==> StatsKey(r) == k)
  }

  /** A first sample starts a one-sample list under a new last key. */
  lemma PendingStart(pending: map<string, seq<StatsRequest>>, order: seq<string>,
                     request: StatsRequest)
    requires PendingWellFormed(pending, order) && StatsKey(request) !in pending
    ensures PendingWellFormed(pending[StatsKey(request) := [request]],
                              order + [StatsKey(request)])
  {
    var key := StatsKey(request);
    assert key !in order;
    var order' := order + [key];
    assert forall i :: 0 <= i < |order| ==> order'[i] == order[i];
  }

  /** Another sample of a pending key below 500 joins that key's list. */
  lemma PendingAdd(pending: map<string, seq<StatsRequest>>, order: seq<string>,
                   request: StatsRequest)
    requires PendingWellFormed(pending, order)
    requires StatsKey(request) in pending
    requires |pending[StatsKey(request)]| + 1 < AUTO_STATS_LIMIT
    ensures var key := StatsKey(request);
      PendingWellFormed(pending[key := pending[key] + [request]], order)
  {
  }

  /** Dropping a key leaves the others well formed, in their order. */
  lemma PendingDrop(pending: map<string, seq<StatsRequest>>, order: seq<string>, key: string)
    requires PendingWellFormed(pending, order)
    ensures PendingWellFormed(pending - {key}, Without(order, key))
  {
    WithoutDistinct(order, key);
  }

  /** The aggregates `flushStats` pushes, in key order, for the keys with a sample. */
  function Aggregates(hostname: string, pending: map<string, seq<StatsRequest>>,
                      order: seq<string>, now: real): seq<Document>
    requires forall k :: k in order ==> k in pending
  {
    if |order| == 0 then []
    else
      var init := order[..|order| - 1];
      var key := order[|order| - 1];
      assert forall k :: k in init ==> k in order;
      var requests := pending[key];
      Aggregates(hostname, pending, init, now)
        + (if |requests| > 0 then [AggregateOf(hostname, requests, now)] else [])
  }

  /** Where every pending key holds a sample, as in a well-formed `autoStatsBuffer`, there is
      exactly one aggregate per key, in key order, of that key's samples. */
  lemma {:induction false} AggregatesOnePerKey(hostname: string,
                                               pending: map<string, seq<StatsRequest>>,
                                               order: seq<string>, now: real)
    requires forall k :: k in order ==> k in pending && |pending[k]| > 0
    ensures var docs := Aggregates(hostname, pending, order, now);
      && |docs| == |order|
      && forall i :: 0 <= i < |order| ==> docs[i] == AggregateOf(hostname, pending[order[i]], now)
  {
    if |order| > 0 {
      var init := order[..|order| - 1];
      assert forall k :: k in init ==> k in order;
      AggregatesOnePerKey(hostname, pending, init, now);
      var before := Aggregates(hostname, pending, init, now);
      var docs := before + [AggregateOf(hostname, pending[order[|order| - 1]], now)];
      assert Aggregates(hostname, pending, order, now) == docs;
      forall i | 0 <= i < |order|
        ensures docs[i] == AggregateOf(hostname, pending[order[i]], now)
      {
        if i < |init| {
          assert docs[i] == before[i] && init[i] == order[i];
        }
      }
    }
  }

  lemma AggregatesSnoc(hostname: string, pending: map<string, seq<StatsRequest>>,
                       order: seq<string>, i: nat, now: real)
    requires i < |order| && forall k :: k in order ==> k in pending
    ensures forall k :: k in order[..i] ==> k in pending
    ensures forall k :: k in order[..i + 1] ==> k in pending
    ensures var requests := pending[order[i]];
      Aggregates(hostname, pending, order[..i + 1], now)
        == Aggregates(hostname, pending, order[..i], now)
           + (if |requests| > 0 then [AggregateOf(hostname, requests, now)] else [])
  {
    assert forall k :: k in order[..i + 1] ==> k in order;
    assert order[..i + 1][..i] == order[..i] && order[..i + 1][i] == order[i];
  }

  class ElasticSearchLogger {
    const hostname: string
    const logsIndex: string
    const statsIndex: string
    var logsBuffer: seq<Document>
    var statsBuffer: seq<Document>
    var autoStatsBuffer: map<string, seq<StatsRequest>>
    /** The keys of `autoStatsBuffer` in insertion order, the order of `Object.values`. */
    var autoStatsOrder: seq<string>
    /** The bulk requests made to each index, oldest first. */
    var logsSent: seq<seq<Document>>
    var statsSent: seq<seq<Document>>
    /** Whether the 10-second flush interval is still set. */
    var ticking: bool
    /** Every log record and every aggregate ever added, in order. */
    ghost var logged: seq<Document>
    ghost var aggregated: seq<Document>

    /** The log buffer stays below the limit, and every record added has been sent or is
        still buffered, in order, once. */
    ghost predicate LogsValid()
      reads this`logsBuffer, this`logsSent, this`logged
    {
      |logsBuffer| < BUFFER_LIMIT && Flatten(logsSent) + logsBuffer == logged
    }

    /** The same for the stats buffer and the aggregates. */
    ghost predicate StatsValid()
      reads this`statsBuffer, this`statsSent, this`aggregated
    {
      |statsBuffer| < BUFFER_LIMIT && Flatten(statsSent) + statsBuffer == aggregated
    }

    ghost predicate PendingValid()
      reads this`autoStatsBuffer, this`autoStatsOrder
    {
      PendingWellFormed(autoStatsBuffer, autoStatsOrder)
    }

    ghost predicate Valid()
      reads this
    {
      LogsValid() && StatsValid() && PendingValid()
    }

    /** `ElasticSearchLogger.create(…, indexNamespace, …)` and the constructor: the two
        indices under the namespace, empty buffers, and the interval set. `hostname` is the
        reading of `os.hostname()`. */
    constructor (hostname: string, indexNamespace: string)
      ensures Valid()
      ensures this.hostname == hostname
      ensures logsIndex == indexNamespace + "_logs" && statsIndex == indexNamespace + "_stats"
      ensures logsBuffer == [] && statsBuffer == [] && logsSent == [] && statsSent == []
      ensures autoStatsBuffer == map[] && autoStatsOrder == [] && ticking
    {
      this.hostname := hostname;
      logsIndex := indexNamespace + "_logs";
      statsIndex := indexNamespace + "_stats";
      logsBuffer, statsBuffer, logsSent, statsSent := [], [], [], [];
      autoStatsBuffer, autoStatsOrder, ticking := map[], [], true;
      logged, aggregated := [], [];
    }

    /** `flushLogs()`. */
    method FlushLogs()
      modifies this`logsBuffer, this`logsSent
      ensures (logsBuffer, logsSent) == Flush(old(logsBuffer), old(logsSent))
    {
      logsBuffer, logsSent := Flush(logsBuffer, logsSent).0, Flush(logsBuffer, logsSent).1;
    }

    /** `addLog(level, message, extra)` at clock reading `now`: the record is pushed and the
        log buffer flushed once it holds 1000 records, so it never reaches the limit. */
    method AddLog(level: Level, message: string, extra: Option<string>, now: real)
      requires LogsValid()
      modifies this`logsBuffer, this`logsSent, this`logged
      ensures LogsValid()
      ensures var doc := LogDocument(hostname, LOGGER_MODULE, now, level, message, extra);
        && (logsBuffer, logsSent) == Push(old(logsBuffer), old(logsSent), doc)
        && logged == old(logged) + [doc]
    {
      var doc := LogDocument(hostname, LOGGER_MODULE, now, level, message, extra);
      logsBuffer := logsBuffer + [doc];
      logged := logged + [doc];
      if |logsBuffer| >= BUFFER_LIMIT {
        FlushLogs();
      }
    }

    /** `addStats(statsRequest, stats)` at clock reading `now`, flushing the stats buffer
        when it fills. As written the source runs all of `flushStats` there, which does not
        return while a sample is pending (see `AddStatsAsWrittenDiverges`). */
    method AddStats(request: StatsRequest, stats: Stats, now: real)
      requires StatsValid()
      modifies this`statsBuffer, this`statsSent, this`aggregated
      ensures StatsValid()
      ensures var doc := AggregateDocument(hostname, request, stats, now);
        && (statsBuffer, statsSent) == Push(old(statsBuffer), old(statsSent), doc)
        && aggregated == old(aggregated) + [doc]
    {
      var doc := AggregateDocument(hostname, request, stats, now);
      statsBuffer := statsBuffer + [doc];
      aggregated := aggregated + [doc];
      if |statsBuffer| >= BUFFER_LIMIT {
        statsBuffer, statsSent := Flush(statsBuffer, statsSent).0, Flush(statsBuffer, statsSent).1;
      }
    }

    /** The loop of `flushStats`: the aggregate of each pending key, in insertion order,
        through `addStats`. */
    method AddAggregates(now: real)
      requires StatsValid()
      requires forall k :: k in autoStatsOrder ==> k in autoStatsBuffer
      modifies this`statsBuffer, this`statsSent, this`aggregated
      ensures StatsValid()
      ensures var docs := Aggregates(hostname, autoStatsBuffer, autoStatsOrder, now);
        && (statsBuffer, statsSent) == PushAll(old(statsBuffer), old(statsSent), docs)
        && aggregated == old(aggregated) + docs
    {
      ghost var docs: seq<Document> := [];
      for i := 0 to |autoStatsOrder|
        invariant StatsValid()
        invariant docs == Aggregates(hostname, autoStatsBuffer, autoStatsOrder[..i], now)
        invariant (statsBuffer, statsSent) == PushAll(old(statsBuffer), old(statsSent), docs)
        invariant aggregated == old(aggregated) + docs
      {
        AggregatesSnoc(hostname, autoStatsBuffer, autoStatsOrder, i, now);
        var requests := autoStatsBuffer[autoStatsOrder[i]];
        if |requests| > 0 {
          ghost var doc := AggregateOf(hostname, requests, now);
          PushAllSnoc(old(statsBuffer), old(statsSent), docs, doc);
          AddStats(requests[0], StatsFrom(requests), now);
          docs := docs + [doc];
        }
      }
      assert autoStatsOrder[..|autoStatsOrder|] == autoStatsOrder;
    }

    /** `flushStats()` at clock reading `now`: one aggregate per pending key, in insertion
        order, then no key pending and an empty stats buffer. */
    method FlushStats(now: real)
      requires StatsValid() && PendingValid()
      modifies this`statsBuffer, this`statsSent, this`aggregated, this`autoStatsBuffer,
        this`autoStatsOrder
      ensures StatsValid() && PendingValid()
      ensures var docs := Aggregates(hostname, old(autoStatsBuffer), old(autoStatsOrder), now);
        var pushed := PushAll(old(statsBuffer), old(statsSent), docs);
        && (statsBuffer, statsSent) == Flush(pushed.0, pushed.1)
        && aggregated == old(aggregated) + docs
      ensures autoStatsBuffer == map[] && autoStatsOrder == []
    {
      AddAggregates(now);
      autoStatsBuffer, autoStatsOrder := map[], [];
      statsBuffer, statsSent := Flush(statsBuffer, statsSent).0, Flush(statsBuffer, statsSent).1;
    }

    /** `stats(statsRequest)` at clock reading `now`. A new key starts a one-sample list at
        the end of the key order; a known key gains the sample, and at 500 samples its list
        becomes one aggregate and the key is dropped. */
    method Stats(request: StatsRequest, now: real)
      requires StatsValid() && PendingValid()
      modifies this`statsBuffer, this`statsSent, this`aggregated, this`autoStatsBuffer,
        this`autoStatsOrder
      ensures StatsValid() && PendingValid()
      ensures var key := StatsKey(request);
        key !in old(autoStatsBuffer) ==>
          && autoStatsBuffer == old(autoStatsBuffer)[key := [request]]
          && autoStatsOrder == old(autoStatsOrder) + [key]
          && statsBuffer == old(statsBuffer) && statsSent == old(statsSent)
          && aggregated == old(aggregated)
      ensures var key := StatsKey(request);
        key in old(autoStatsBuffer) && |old(autoStatsBuffer)[key]| + 1 < AUTO_STATS_LIMIT ==>
          && autoStatsBuffer == old(autoStatsBuffer)[key := old(autoStatsBuffer)[key] + [request]]
          && autoStatsOrder == old(autoStatsOrder)
          && statsBuffer == old(statsBuffer) && statsSent == old(statsSent)
          && aggregated == old(aggregated)
      ensures var key := StatsKey(request);
        key in old(autoStatsBuffer) && |old(autoStatsBuffer)[key]| + 1 >= AUTO_STATS_LIMIT ==>
          var doc := AggregateDocument(hostname, request,
                                       StatsFrom(old(autoStatsBuffer)[key] + [request]), now);
          && autoStatsBuffer == old(autoStatsBuffer) - {key}
          && autoStatsOrder == Without(old(autoStatsOrder), key)
          && (statsBuffer, statsSent) == Push(old(statsBuffer), old(statsSent), doc)
          && aggregated == old(aggregated) + [doc]
    {
      var key := StatsKey(request);
      if key !in autoStatsBuffer {
        PendingStart(autoStatsBuffer, autoStatsOrder, request);
        autoStatsBuffer := autoStatsBuffer[key := [request]];
        autoStatsOrder := autoStatsOrder + [key];
      } else {
        var existing := autoStatsBuffer[key] + [request];
        if |existing| < AUTO_STATS_LIMIT {
          PendingAdd(autoStatsBuffer, autoStatsOrder, request);
          autoStatsBuffer := autoStatsBuffer[key := existing];
        } else {
          ghost var pending := autoStatsBuffer;
          PendingDrop(autoStatsBuffer, autoStatsOrder, key);
          autoStatsBuffer := autoStatsBuffer[key := existing];
          AddStats(request, StatsFrom(existing), now);
          assert autoStatsBuffer - {key} == pending - {key};
          autoStatsBuffer := autoStatsBuffer - {key};
          autoStatsOrder := Without(autoStatsOrder, key);
        }
      }
    }

    /** The interval's callback: `flushLogs()` then `flushStats()`. */
    method Tick(now: real)
      requires Valid()
      modifies this`logsBuffer, this`logsSent, this`statsBuffer, this`statsSent,
        this`aggregated, this`autoStatsBuffer, this`autoStatsOrder
      ensures Valid()
      ensures logsBuffer == [] && statsBuffer == []
      ensures autoStatsBuffer == map[] && autoStatsOrder == []
      ensures aggregated
        == old(aggregated) + Aggregates(hostname, old(autoStatsBuffer), old(autoStatsOrder), now)
    {
      FlushLogs();
      FlushStats(now);
    }

    /** `destroy()`: the same flushes, and the interval cleared. */
    method Destroy(now: real)
      requires Valid()
      modifies this`logsBuffer, this`logsSent, this`statsBuffer, this`statsSent,
        this`aggregated, this`autoStatsBuffer, this`autoStatsOrder, this`ticking
      ensures Valid() && !ticking
      ensures logsBuffer == [] && statsBuffer == []
      ensures autoStatsBuffer == map[] && autoStatsOrder == []
      ensures aggregated
        == old(aggregated) + Aggregates(hostname, old(autoStatsBuffer), old(autoStatsOrder), now)
    {
      Tick(now);
      ticking := false;
    }
  }

  // ---------------------------------------------------------------- addStats as written

  /** The state `addStats` and `flushStats` touch: the stats buffer, the pending lists in
      insertion order, and the bulk requests made. */
  datatype StatsState = StatsState(statsBuffer: seq<Document>,
                                   pending: seq<(string, seq<StatsRequest>)>,
                                   sent: seq<seq<Document>>)

  /** `addStats` as written, which runs `flushStats` when the buffer fills, with at most
      `fuel` nested calls; None is a call that has not returned within them. */
  function AddStatsAsWritten(hostname: string, s: StatsState, doc: Document, now: real,
                             fuel: nat): Option<StatsState>
    decreases fuel, 0, 0
  {
    var pushed := s.(statsBuffer := s.statsBuffer + [doc]);
    if |pushed.statsBuffer| < BUFFER_LIMIT then Some(pushed)
    else if fuel == 0 then None
    else FlushStatsAsWritten(hostname, pushed, now, fuel - 1)
  }

  /** `flushStats` as written: the loop over a snapshot of the pending lists, then the reset
      and the flush. */
  function FlushStatsAsWritten(hostname: string, s: StatsState, now: real, fuel: nat)
    : Option<StatsState>
    decreases fuel, 2, 0
  {
    var lists := seq(|s.pending|, i requires 0 <= i < |s.pending| => s.pending[i].1);
    var looped := AggregateAllAsWritten(hostname, s, lists, now, fuel);
    if looped.None? then None
    else
      var reset := looped.value.(pending := []);
      var flushed := Flush(reset.statsBuffer, reset.sent);
      Some(reset.(statsBuffer := flushed.0, sent := flushed.1))
  }

  /** The loop of `flushStats` over the lists still to visit. */
  function AggregateAllAsWritten(hostname: string, s: StatsState,
                                 lists: seq<seq<StatsRequest>>, now: real, fuel: nat)
    : Option<StatsState>
    decreases fuel, 1, |lists|
  {
    if |lists| == 0 then Some(s)
    else if |lists[0]| == 0 then AggregateAllAsWritten(hostname, s, lists[1..], now, fuel)
    else
      var doc := AggregateOf(hostname, lists[0], now);
      var added := AddStatsAsWritten(hostname, s, doc, now, fuel);
      if added.None? then None
      else AggregateAllAsWritten(hostname, added.value, lists[1..], now, fuel)
  }

  /** Once the stats buffer fills while the first pending key holds a sample, `addStats`
      as written never returns, however deep the calls may nest: `flushStats` aggregates
      that key through `addStats` before anything empties the buffer, so the buffer is
      still full and the same key still pending one call further down. */
  lemma {:induction false} AddStatsAsWrittenDiverges(hostname: string, s: StatsState,
                                                     doc: Document, now: real, fuel: nat)
    requires |s.statsBuffer| + 1 >= BUFFER_LIMIT
    requires |s.pending| > 0 && |s.pending[0].1| > 0
    ensures AddStatsAsWritten(hostname, s, doc, now, fuel) == None
    decreases fuel
  {
    if fuel > 0 {
      var pushed := s.(statsBuffer := s.statsBuffer + [doc]);
      var lists := seq(|pushed.pending|, i requires 0 <= i < |pushed.pending| => pushed.pending[i].1);
      var first := AggregateOf(hostname, lists[0], now);
      AddStatsAsWrittenDiverges(hostname, pushed, first, now, fuel - 1);
      assert AggregateAllAsWritten(hostname, pushed, lists, now, fuel - 1) == None;
    }
  }

  /** Without a pending sample, or below the limit, `addStats` as written does what the
      corrected `AddStats` does: a push, and a flush of the stats buffer alone when it fills. */
  lemma AddStatsAsWrittenAgrees(hostname: string, s: StatsState, doc: Document, now: real,
                                fuel: nat)
    requires s.pending == [] || |s.statsBuffer| + 1 < BUFFER_LIMIT
    requires fuel > 0
    ensures var pushed := Push(s.statsBuffer, s.sent, doc);
      AddStatsAsWritten(hostname, s, doc, now, fuel)
        == Some(StatsState(pushed.0, s.pending, pushed.1))
  {
    var pushed := s.(statsBuffer := s.statsBuffer + [doc]);
    if |pushed.statsBuffer| >= BUFFER_LIMIT {
      var lists := seq(|pushed.pending|, i requires 0 <= i < |pushed.pending| => pushed.pending[i].1);
      assert lists == [];
      assert AggregateAllAsWritten(hostname, pushed, lists, now, fuel - 1) == Some(pushed);
    }
  }
}
