/** Relay performance metrics: hot buckets in memory, flushed into rows, both standing for one log of samples. */
module PerfMetrics {

  datatype Sample = Sample(model: string, group: string, latencyMs: int, ttftMs: int, hasTtft: bool,
                           success: bool, outputTokens: int, generationMs: int)

  datatype Key = Key(model: string, group: string, bucket: int)

  datatype Counters = Counters(requests: int, successes: int, latencyMs: int, ttftMs: int, ttfts: int,
                               outputTokens: int, generationMs: int)

  const ZERO := Counters(0, 0, 0, 0, 0, 0, 0)

  function Plus(a: Counters, b: Counters): Counters {
    Counters(a.requests + b.requests, a.successes + b.successes, a.latencyMs + b.latencyMs, a.ttftMs + b.ttftMs,
             a.ttfts + b.ttfts, a.outputTokens + b.outputTokens, a.generationMs + b.generationMs)
  }

  /** What one sample counts for: a latency or a first-token time only when it is one, and generated tokens
      only together with the time they took. */
  function CountersOf(s: Sample): Counters {
    var timed := s.hasTtft && s.ttftMs >= 0;
    var generated := s.outputTokens > 0 && s.generationMs > 0;
    Counters(1, if s.success then 1 else 0, if s.latencyMs > 0 then s.latencyMs else 0,
             if timed then s.ttftMs else 0, if timed then 1 else 0,
             if generated then s.outputTokens else 0, if generated then s.generationMs else 0)
  }

  datatype Logged = Logged(key: Key, sample: Sample)

  /** The counters a bucket should show: its samples, added up. */
  function Fold(log: seq<Logged>, key: Key): Counters {
    if log == [] then ZERO else
      var x := log[|log| - 1];
      if x.key == key then Plus(Fold(log[..|log| - 1], key), CountersOf(x.sample)) else Fold(log[..|log| - 1], key)
  }

  // ----- The same, counter by counter -----

  /** The key's samples that meet a condition. */
  function CountOf(log: seq<Logged>, key: Key, when: Sample -> bool): nat {
    if log == [] then 0 else
      var x := log[|log| - 1];
      CountOf(log[..|log| - 1], key, when) + if x.key == key && when(x.sample) then 1 else 0
  }

  /** A figure summed over the key's samples that meet a condition. */
  function SumOf(log: seq<Logged>, key: Key, when: Sample -> bool, figure: Sample -> int): int {
    if log == [] then 0 else
      var x := log[|log| - 1];
      SumOf(log[..|log| - 1], key, when, figure) + if x.key == key && when(x.sample) then figure(x.sample) else 0
  }

  function Latency(s: Sample): int { s.latencyMs }

  function FirstToken(s: Sample): int { s.ttftMs }

  function OutputTokens(s: Sample): int { s.outputTokens }

  function GenerationTime(s: Sample): int { s.generationMs }

  predicate AnyAtAll(s: Sample) { true }

  predicate Succeeded(s: Sample) { s.success }

  predicate TookTime(s: Sample) { s.latencyMs > 0 }

  predicate ShowedToken(s: Sample) { s.hasTtft && s.ttftMs >= 0 }

  predicate Generated(s: Sample) { s.outputTokens > 0 && s.generationMs > 0 }

  /** A bucket's counters: its requests and its successes; the latencies; the times to a first token, of those samples
      that have one, and how many do; and the generated tokens and the time they took, of those that have both. */
  lemma {:induction false} CountersMean(log: seq<Logged>, key: Key)
    ensures var c := Fold(log, key);
      && c.requests == CountOf(log, key, AnyAtAll) && c.successes == CountOf(log, key, Succeeded)
      && c.ttfts == CountOf(log, key, ShowedToken)
      && c.latencyMs == SumOf(log, key, TookTime, Latency) && c.ttftMs == SumOf(log, key, ShowedToken, FirstToken)
      && c.outputTokens == SumOf(log, key, Generated, OutputTokens)
      && c.generationMs == SumOf(log, key, Generated, GenerationTime)
  {
    if log != [] {
      CountersMean(log[..|log| - 1], key);
    }
  }

  /** No more successes and no more first tokens than requests. */
  lemma {:induction false} CountersInOrder(log: seq<Logged>, key: Key)
    ensures var c := Fold(log, key); 0 <= c.successes <= c.requests && 0 <= c.ttfts <= c.requests
  {
    if log != [] {
      CountersInOrder(log[..|log| - 1], key);
    }
  }

  /** Nothing is counted without a request. */
  predicate Sound(c: Counters) {
    && c.requests >= 0 && c.successes >= 0 && c.latencyMs >= 0 && c.ttftMs >= 0 && c.ttfts >= 0
    && c.outputTokens >= 0 && c.generationMs >= 0
    && (c.requests == 0 ==> c == ZERO)
  }

  lemma {:induction false} SamplesAreSound(s: Sample, c: Counters)
    requires Sound(c)
    ensures Sound(Plus(c, CountersOf(s)))
  {
  }

  lemma {:induction false} SumsAreSound(a: Counters, b: Counters)
    requires Sound(a) && Sound(b)
    ensures Sound(Plus(a, b))
  {
    if a.requests + b.requests == 0 {
      assert a == ZERO && b == ZERO;
    }
  }

  /** A row and a hot bucket that together are what was logged for the key. */
  predicate Agrees(row: Counters, hot: Counters, log: seq<Logged>, key: Key) {
    Plus(row, hot) == Fold(log, key) && Sound(row) && Sound(hot)
  }

  lemma {:induction false} NothingAgrees(key: Key)
    ensures Agrees(ZERO, ZERO, [], key)
  {
    hide Plus;
    PutBack(ZERO);
  }

  lemma {:induction false} PlusAssociates(a: Counters, b: Counters, c: Counters)
    ensures Plus(a, Plus(b, c)) == Plus(Plus(a, b), c)
  {
  }

  lemma {:induction false} FoldAppended(log: seq<Logged>, x: Logged, key: Key)
    ensures Fold(log + [x], key) == if x.key == key then Plus(Fold(log, key), CountersOf(x.sample)) else Fold(log, key)
  {
    hide Plus, CountersOf;
    assert (log + [x])[..|log|] == log;
  }

  lemma {:induction false} SampleAgrees(row: Counters, hot: Counters, log: seq<Logged>, x: Logged, key: Key)
    requires Agrees(row, hot, log, key)
    ensures Agrees(row, if x.key == key then Plus(hot, CountersOf(x.sample)) else hot, log + [x], key)
  {
    hide Plus, CountersOf, Fold, Sound;
    FoldAppended(log, x, key);
    PlusAssociates(row, hot, CountersOf(x.sample));
    SamplesAreSound(x.sample, hot);
  }

  lemma {:induction false} FlushAgrees(row: Counters, hot: Counters, log: seq<Logged>, key: Key)
    requires Agrees(row, hot, log, key)
    ensures Agrees(Plus(row, hot), ZERO, log, key) && (hot.requests == 0 ==> hot == ZERO)
  {
    SumsAreSound(row, hot);
  }

  lemma {:induction false} PutBack(c: Counters)
    ensures Plus(ZERO, c) == c == Plus(c, ZERO)
  {
  }

  class AtomicBucket {
    var requests: int
    var successes: int
    var latencyMs: int
    var ttftMs: int
    var ttfts: int
    var outputTokens: int
    var generationMs: int

    function Value(): Counters
      reads this
    {
      Counters(requests, successes, latencyMs, ttftMs, ttfts, outputTokens, generationMs)
    }

    constructor ()
      ensures Value() == ZERO
    {
      requests, successes, latencyMs, ttftMs, ttfts, outputTokens, generationMs := 0, 0, 0, 0, 0, 0, 0;
    }

    method Add(s: Sample)
      modifies this
      ensures Value() == Plus(old(Value()), CountersOf(s))
    {
      requests := requests + 1;
      if s.success {
        successes := successes + 1;
      }
      if s.latencyMs > 0 {
        latencyMs := latencyMs + s.latencyMs;
      }
      if s.hasTtft && s.ttftMs >= 0 {
        ttftMs := ttftMs + s.ttftMs;
        ttfts := ttfts + 1;
      }
      if s.outputTokens > 0 && s.generationMs > 0 {
        outputTokens := outputTokens + s.outputTokens;
        generationMs := generationMs + s.generationMs;
      }
    }

    method Drain() returns (c: Counters)
      modifies this
      ensures c == old(Value()) && Value() == ZERO
    {
      c := Value();
      requests, successes, latencyMs, ttftMs, ttfts, outputTokens, generationMs := 0, 0, 0, 0, 0, 0, 0;
    }

    method AddCounters(c: Counters)
      modifies this
      ensures Value() == Plus(old(Value()), c)
    {
      requests := requests + c.requests;
      successes := successes + c.successes;
      latencyMs := latencyMs + c.latencyMs;
      ttftMs := ttftMs + c.ttftMs;
      ttfts := ttfts + c.ttfts;
      outputTokens := outputTokens + c.outputTokens;
      generationMs := generationMs + c.generationMs;
    }
  }

  const DEFAULT_BUCKET_SECONDS := 3600

  /** The start of the bucket a time falls in. */
  function BucketStart(ts: nat, bucketSeconds: int): int {
    var size := if bucketSeconds <= 0 then DEFAULT_BUCKET_SECONDS else bucketSeconds;
    ts - ts % size
  }

  /** A time falls in the bucket that starts at the last multiple of the bucket's length, an hour when none is set. */
  lemma {:induction false} BucketContains(ts: nat, bucketSeconds: int)
    ensures var size := if bucketSeconds > 0 then bucketSeconds else 3600;
      var start := BucketStart(ts, bucketSeconds);
      start <= ts < start + size && start == ts / size * size
  {
    var size := if bucketSeconds > 0 then bucketSeconds else 3600;
    assert ts == ts / size * size + ts % size;
  }

  class MetricStore {
    var hot: map<Key, AtomicBucket>
    var rows: map<Key, Counters>
    /** Every sample recorded so far, under its key. */
    ghost var log: seq<Logged>

    function Hot(key: Key): Counters
      reads this, hot.Values
    {
      if key in hot then hot[key].Value() else ZERO
    }

    function Row(key: Key): Counters
      reads this
    {
      if key in rows then rows[key] else ZERO
    }

    ghost predicate Distinct()
      reads this
    {
      forall k, k' | k in hot && k' in hot && k != k' :: hot[k] != hot[k']
    }

    /** Rows and hot buckets together are the log. */
    ghost predicate Valid()
      reads this, hot.Values
    {
      Distinct() && forall key :: Agrees(Row(key), Hot(key), log, key)
    }

    constructor ()
      ensures Valid() && log == [] && hot == map[] && rows == map[]
    {
      hot, rows, log := map[], map[], [];
      new;
      hide Agrees;
      forall key ensures Agrees(Row(key), Hot(key), log, key) {
        NothingAgrees(key);
      }
    }

    method Record(sample: Sample, enabled: bool, now: nat, bucketSeconds: int)
      requires Valid()
      modifies this`hot, this`log, hot.Values
      ensures Valid() && fresh(hot.Values - old(hot.Values))
      ensures if !enabled || sample.model == "" then log == old(log)
              else log == old(log) + [Logged(Key(sample.model, if sample.group == "" then "default" else sample.group,
                                                 BucketStart(now, bucketSeconds)),
                                             sample)]
    {
      hide Agrees, BucketStart;
      if !enabled || sample.model == "" {
        return;
      }
      var group := if sample.group == "" then "default" else sample.group;
      AddSample(Key(sample.model, group, BucketStart(now, bucketSeconds)), sample);
    }

    method AddSample(key: Key, sample: Sample)
      requires Valid()
      modifies this`hot, this`log, hot.Values
      ensures Valid() && log == old(log) + [Logged(key, sample)]
      ensures fresh(hot.Values - old(hot.Values))
    {
      hide Agrees, Plus, CountersOf;
      if key !in hot {
        var bucket := new AtomicBucket();
        hot := hot[key := bucket];
      }
      ghost var x := Logged(key, sample);
      hot[key].Add(sample);
      log := log + [x];
      forall k ensures Agrees(Row(k), Hot(k), log, k) {
        SampleAgrees(old(Row(k)), old(Hot(k)), old(log), x, k);
      }
    }

    /** One bucket's turn.  A refused write puts the drained counters back; an old bucket is dropped once it
        is empty. */
    method FlushBucket(key: Key, refused: bool, expired: bool)
      requires Valid() && key in hot
      modifies this`hot, this`rows, hot.Values
      ensures Valid() && hot.Values <= old(hot.Values)
      ensures hot.Keys == if key in hot then old(hot.Keys) else old(hot.Keys) - {key}
      ensures forall k | k != key :: Hot(k) == old(Hot(k)) && Row(k) == old(Row(k))
      ensures Moved(!refused, old(Row(key)), old(Hot(key)), Row(key), Hot(key))
    {
      hide Agrees, Plus;
      var drained := hot[key].Drain();
      FlushAgrees(old(Row(key)), old(Hot(key)), log, key);
      PutBack(old(Hot(key)));
      PutBack(old(Row(key)));
      if drained.requests == 0 {
        if expired {
          hot := hot - {key};
        }
      } else if refused {
        hot[key].AddCounters(drained);
      } else {
        rows := rows[key := Plus(Row(key), drained)];
        if expired {
          hot := hot - {key};
        }
      }
      forall k ensures Agrees(Row(k), Hot(k), log, k) {
        if k != key {
          assert Row(k) == old(Row(k)) && Hot(k) == old(Hot(k));
        }
      }
    }

    /** Flushes every bucket before the current one, in any order; refused names the writes that fail. */
    method FlushCompletedBuckets(current: int, oldest: int, refused: set<Key>)
      requires Valid()
      modifies this`hot, this`rows, hot.Values
      ensures Valid() && log == old(log)
      ensures forall k: Key :: Moved(k.bucket < current && k !in refused, old(Row(k)), old(Hot(k)), Row(k), Hot(k))
    {
      hide Agrees, Moved, Due;
      var rest := hot.Keys;
      forall k: Key ensures Moved(Due(k, rest, current, refused), Row(k), Hot(k), Row(k), Hot(k)) {
        DueOrHot(k, rest, current, refused);
        NotMoved(Row(k), Hot(k));
      }
      while rest != {}
        invariant Valid() && rest <= hot.Keys && hot.Values <= old(hot.Values)
        invariant forall k | k in rest :: Row(k) == old(Row(k)) && Hot(k) == old(Hot(k))
        invariant forall k: Key :: Moved(Due(k, rest, current, refused), old(Row(k)), old(Hot(k)), Row(k), Hot(k))
        decreases |rest|
      {
        var key :| key in rest;
        label Before:
        if key.bucket < current {
          FlushBucket(key, key in refused, key.bucket < oldest);
        } else {
          NotMoved(Row(key), Hot(key));
        }
        forall k: Key ensures Moved(Due(k, rest - {key}, current, refused), old(Row(k)), old(Hot(k)), Row(k), Hot(k)) {
          DueNext(k, key, rest, current, refused);
          if k != key {
            assert Row(k) == old@Before(Row(k)) && Hot(k) == old@Before(Hot(k));
          }
        }
        rest := rest - {key};
      }
      forall k: Key ensures Due(k, rest, current, refused) == (k.bucket < current && k !in refused) {
        DueOrHot(k, rest, current, refused);
      }
    }

    /** The counters of a model and group (or of every group) over a window, rows and hot buckets merged. */
    method Query(model: string, group: string, start: int, end: int) returns (merged: map<Key, Counters>)
      requires Valid()
      ensures forall key :: Shows(merged, key, if InWindow(key, model, group, start, end) then Fold(log, key) else ZERO)
    {
      hide Agrees, Plus, Fold, Merge, Shows, InWindow;
      merged := map[];
      NothingShown();
      var rest := rows.Keys;
      while rest != {}
        invariant rest <= rows.Keys
        invariant forall key ::
          Shows(merged, key, if key !in rest && InWindow(key, model, group, start, end) then Row(key) else ZERO)
        decreases |rest|
      {
        var key :| key in rest;
        if InWindow(key, model, group, start, end) {
          RowAndBucketAgree(key);
          MergeShows(merged, key, ZERO, rows[key]);
          PutBack(rows[key]);
          merged := Merge(merged, key, rows[key]);
        }
        rest := rest - {key};
      }
      rest := hot.Keys;
      ghost var fromRows := merged;
      forall key
        ensures Plus(Row(key), ZERO) == Row(key) && Plus(Row(key), Hot(key)) == Fold(log, key) && Sound(Row(key))
        ensures Sound(Hot(key))
      {
        PutBack(Row(key));
        RowAndBucketAgree(key);
      }
      while rest != {}
        invariant rest <= hot.Keys
        invariant forall key ::
          Shows(merged, key, if !InWindow(key, model, group, start, end) then ZERO
                             else if key in rest then Row(key) else Fold(log, key))
        decreases |rest|
      {
        var key :| key in rest;
        var bucket := hot[key].Value();
        if InWindow(key, model, group, start, end) {
          MergeShows(merged, key, Row(key), bucket);
          merged := Merge(merged, key, bucket);
        }
        rest := rest - {key};
      }
    }

    lemma {:induction false} RowAndBucketAgree(key: Key)
      requires Valid()
      ensures Plus(Row(key), Hot(key)) == Fold(log, key) && Sound(Row(key)) && Sound(Hot(key))
    {
      assert Agrees(Row(key), Hot(key), log, key);
    }
  }

  /** The bucket has had its turn in a flush, and its write was not refused. */
  predicate Due(key: Key, rest: set<Key>, current: int, refused: set<Key>) {
    key !in rest && key.bucket < current && key !in refused
  }

  lemma {:induction false} DueNext(k: Key, key: Key, rest: set<Key>, current: int, refused: set<Key>)
    requires key in rest
    ensures Due(k, rest - {key}, current, refused) ==
            if k == key then key.bucket < current && key !in refused else Due(k, rest, current, refused)
  {
  }

  lemma {:induction false} DueOrHot(key: Key, rest: set<Key>, current: int, refused: set<Key>)
    ensures Due(key, rest, current, refused) == (key !in rest && key.bucket < current && key !in refused)
  {
  }

  /** A flush took a bucket over into its row, or left both alone. */
  predicate Moved(flushed: bool, row: Counters, hot: Counters, row': Counters, hot': Counters) {
    if flushed then hot' == ZERO && row' == Plus(row, hot) else hot' == hot && row' == row
  }

  lemma {:induction false} NotMoved(row: Counters, hot: Counters)
    ensures Moved(false, row, hot, row, hot) && (hot == ZERO ==> Moved(true, row, hot, row, hot))
  {
    PutBack(row);
  }

  // ----- Merging -----

  predicate InWindow(key: Key, model: string, group: string, start: int, end: int) {
    key.model == model && start <= key.bucket <= end && (group == "" || key.group == group)
  }

  /** A window is its buckets, both ends included: the single ones tell which model and group they show, and two windows
      side by side show what the whole does.  Without a group every group is shown. */
  lemma {:induction false} WindowsAddUp(key: Key, model: string, group: string, start: int, mid: int, end: int)
    ensures InWindow(key, model, group, key.bucket, key.bucket) <==> key.model == model && group in {"", key.group}
    ensures start <= mid < end ==>
      (InWindow(key, model, group, start, end) <==>
       InWindow(key, model, group, start, mid) || InWindow(key, model, group, mid + 1, end))
    ensures InWindow(key, model, group, start, start) ==> key.bucket == start
  {
  }

  /** Adds counters to a key's; counters without a request are not merged. */
  function Merge(merged: map<Key, Counters>, key: Key, c: Counters): map<Key, Counters> {
    if c.requests == 0 then merged else merged[key := Plus(if key in merged then merged[key] else ZERO, c)]
  }

  /** The map shows the key's counters, or leaves it out when there was no request. */
  predicate Shows(merged: map<Key, Counters>, key: Key, c: Counters) {
    if c.requests == 0 then key !in merged else key in merged && merged[key] == c
  }

  lemma {:induction false} NothingShown()
    ensures forall key :: Shows(map[], key, ZERO)
  {
  }

  lemma {:induction false} MergeShows(merged: map<Key, Counters>, key: Key, a: Counters, b: Counters)
    requires Shows(merged, key, a) && Sound(a) && Sound(b)
    ensures Shows(Merge(merged, key, b), key, Plus(a, b))
    ensures forall k, c | k != key :: Shows(Merge(merged, key, b), k, c) <==> Shows(merged, k, c)
  {
    hide Plus;
    PutBack(a);
    PutBack(b);
    RequestsAdd(a, b);
  }

  lemma {:induction false} RequestsAdd(a: Counters, b: Counters)
    ensures Plus(a, b).requests == a.requests + b.requests
  {
  }
}
