/** The bounded concurrent fetch behind every RPC wave: batches run in a fixed number
    of lanes, finish in any order, and stop being scheduled after a systemic failure
    or once the generation was replaced. */
module ConcurrentFetches {
  import opened Base
  import opened FactTable
  import opened SliceSteps
  import opened Pipelines

  // What came back for one batch: one value for each request, or nothing at all.
  datatype BatchOutcome<+V> =
    | Answered(values: seq<RpcValue<V>>, missing: nat, systemicResponses: nat)
    | Failed

  /** The outside world of one fetch: how batches are cut, what they return, which
      running batch finishes next, and whether the generation is still current. */
  datatype World<!K, !V> = World(
    batchSize: seq<K> -> nat,
    outcome: seq<K> -> BatchOutcome<V>,
    finishesNext: nat -> nat,
    current: nat -> bool)

  ghost predicate WorldOk<K(!new), V(!new)>(world: World<K, V>, sound: (K, RpcValue<V>) -> bool) {
    && (forall rest: seq<K> :: rest != [] ==> 1 <= world.batchSize(rest) <= |rest|)
    && (forall batch: seq<K> :: world.outcome(batch).Answered? ==> OutcomeOk(batch, world.outcome(batch), sound))
    && (forall k: K :: sound(k, SystemicFailure))
  }

  ghost predicate OutcomeOk<K, V>(batch: seq<K>, outcome: BatchOutcome<V>, sound: (K, RpcValue<V>) -> bool) {
    && outcome.Answered? && |outcome.values| == |batch|
    && (forall i :: 0 <= i < |batch| ==> sound(batch[i], outcome.values[i]))
    && (forall i :: 0 <= i < |batch| && outcome.values[i].SystemicFailure? ==> outcome.systemicResponses > 0)
  }

  function Keys<K, V>(values: seq<(K, RpcValue<V>)>): seq<K> {
    seq(|values|, i requires 0 <= i < |values| => values[i].0)
  }

  function Zip<K, V>(batch: seq<K>, values: seq<RpcValue<V>>): seq<(K, RpcValue<V>)>
    requires |batch| == |values|
  {
    seq(|batch|, i requires 0 <= i < |batch| => (batch[i], values[i]))
  }

  function Flat<K>(tasks: seq<seq<K>>): seq<K> {
    if tasks == [] then [] else Flat(tasks[..|tasks| - 1]) + tasks[|tasks| - 1]
  }

  // A batch without a single answer is as bad as a failure.
  predicate AllMissing<K, V>(batch: seq<K>, outcome: BatchOutcome<V>)
    requires outcome.Answered?
  {
    |batch| > 1 && outcome.missing == |batch|
  }

  function ValuesOf<K, V>(batch: seq<K>, outcome: BatchOutcome<V>): seq<(K, RpcValue<V>)>
    requires outcome.Answered? && |outcome.values| == |batch|
  {
    if AllMissing(batch, outcome) then seq(|batch|, i requires 0 <= i < |batch| => (batch[i], SystemicFailure))
    else Zip(batch, outcome.values)
  }

  // The batches that run, and the requests that wait for a lane.
  datatype Running<K> = Running(tasks: seq<seq<K>>, waiting: seq<K>)

  // Some running batch finishes, and its lane may take the next requests.
  ghost predicate Finishes<K>(a: Running<K>, b: Running<K>, i: nat, n: nat) {
    && i < |a.tasks| && n <= |a.waiting|
    && b == Running(a.tasks[..i] + a.tasks[i + 1..] + (if n == 0 then [] else [a.waiting[..n]]), a.waiting[n..])
  }

  ghost predicate Follows<K>(a: Running<K>, b: Running<K>) {
    exists i: nat, n: nat :: Finishes(a, b, i, n)
  }

  /** A fetch from its first batches to its last: the lanes take the requests in
      order, one batch finishes at a time, and every batch that was started does. */
  ghost predicate IsHistory<K>(requests: seq<K>, history: seq<Running<K>>) {
    && history != [] && Flat(history[0].tasks) + history[0].waiting == requests
    && (forall t :: 0 < t < |history| ==> Follows(history[t - 1], history[t]))
  }

  // The batch came back as a failure, or counts as one.
  ghost predicate Fails<K, V>(world: World<K, V>, batch: seq<K>) {
    match world.outcome(batch)
    case Failed => true
    case Answered(_, missing, systemicResponses) => systemicResponses > 0 || (|batch| > 1 && missing == |batch|)
  }

  ghost predicate SomeFails<K, V>(world: World<K, V>, batches: seq<seq<K>>) {
    exists j :: 0 <= j < |batches| && Fails(world, batches[j])
  }

  // What one batch adds to the values.
  ghost function Answers<K, V>(world: World<K, V>, batch: seq<K>): seq<(K, RpcValue<V>)> {
    var outcome := world.outcome(batch);
    if outcome.Answered? && |outcome.values| == |batch| then ValuesOf(batch, outcome) else []
  }

  ghost function Collected<K, V>(world: World<K, V>, batches: seq<seq<K>>): seq<(K, RpcValue<V>)> {
    if batches == [] then []
    else Collected(world, batches[..|batches| - 1]) + Answers(world, batches[|batches| - 1])
  }

  lemma CollectedMore<K, V>(world: World<K, V>, batches: seq<seq<K>>, batch: seq<K>)
    ensures Collected(world, batches + [batch]) == Collected(world, batches) + Answers(world, batch)
    ensures SomeFails(world, batches + [batch]) <==> SomeFails(world, batches) || Fails(world, batch)
  {
    var more := batches + [batch];
    assert more[..|batches|] == batches;
    if SomeFails(world, batches) {
      var j :| 0 <= j < |batches| && Fails(world, batches[j]);
      assert more[j] == batches[j];
    }
    assert more[|batches|] == batch;
  }

  // The freed lane takes the next requests unless some batch has failed or the generation was replaced.
  ghost function Takes<K, V>(world: World<K, V>, waiting: seq<K>, finished: seq<seq<K>>, tick: nat): nat {
    if SomeFails(world, finished) || !world.current(tick) || waiting == [] then 0 else world.batchSize(waiting)
  }

  // The last of these batches finishes, and its lane goes on.
  ghost predicate Steps<K, V>(
    world: World<K, V>, a: Running<K>, b: Running<K>, finished: seq<seq<K>>, tick: nat)
  {
    && finished != []
    && exists i: nat ::
         && i < |a.tasks| && a.tasks[i] == finished[|finished| - 1]
         && Finishes(a, b, i, Takes(world, a.waiting, finished, tick))
  }

  ghost predicate RanAs<K, V>(
    world: World<K, V>, lanes: nat, history: seq<Running<K>>, finished: seq<seq<K>>)
  {
    && |history| == |finished| + 1
    && forall t :: 0 <= t < |finished| ==> Steps(world, history[t], history[t + 1], finished[..t + 1], lanes + t)
  }

  lemma RanMore<K, V>(
    world: World<K, V>, lanes: nat, history: seq<Running<K>>, finished: seq<seq<K>>, next: Running<K>, batch: seq<K>)
    requires RanAs(world, lanes, history, finished)
    requires Steps(world, history[|history| - 1], next, finished + [batch], lanes + |finished|)
    ensures RanAs(world, lanes, history + [next], finished + [batch])
  {
    hide Steps;
    var more := finished + [batch];
    forall t | 0 <= t < |more|
      ensures Steps(world, (history + [next])[t], (history + [next])[t + 1], more[..t + 1], lanes + t)
    {
      if t < |finished| {
        assert more[..t + 1] == finished[..t + 1];
      } else {
        assert more[..t + 1] == more;
      }
    }
  }

  lemma HistoryMore<K>(requests: seq<K>, history: seq<Running<K>>, next: Running<K>)
    requires IsHistory(requests, history) && Follows(history[|history| - 1], next)
    ensures IsHistory(requests, history + [next])
  {
    hide Flat, Finishes, Follows;
    var more := history + [next];
    forall t | 0 < t < |more| ensures Follows(more[t - 1], more[t]) {
      assert t < |history| ==> more[t - 1] == history[t - 1] && more[t] == history[t];
    }
  }

  // Every request is answered, running, waiting, or lost to a failure that was recorded.
  ghost predicate Accounted<K, V>(
    requests: seq<K>, values: seq<(K, RpcValue<V>)>, tasks: seq<seq<K>>, remaining: seq<K>, lost: multiset<K>)
  {
    multiset(Keys(values)) + multiset(Flat(tasks)) + multiset(remaining) + lost == multiset(requests)
  }

  ghost predicate ValuesSound<K, V>(
    values: seq<(K, RpcValue<V>)>, systemic: bool, sound: (K, RpcValue<V>) -> bool)
  {
    forall i :: 0 <= i < |values| ==>
      sound(values[i].0, values[i].1) && (values[i].1.SystemicFailure? ==> systemic)
  }

  lemma {:induction false} FlatWithout<K>(tasks: seq<seq<K>>, i: nat)
    requires i < |tasks|
    ensures multiset(Flat(tasks[..i] + tasks[i + 1..])) + multiset(tasks[i]) == multiset(Flat(tasks))
    decreases |tasks|
  {
    hide Flat;
    var front, last := tasks[..|tasks| - 1], tasks[|tasks| - 1];
    assert tasks == front + [last];
    FlatMore(front, last);
    if i == |front| {
      assert tasks[..i] + tasks[i + 1..] == front;
    } else {
      FlatWithout(front, i);
      var less := front[..i] + front[i + 1..];
      assert tasks[..i] + tasks[i + 1..] == less + [last];
      FlatMore(less, last);
    }
  }

  lemma FlatMore<K>(tasks: seq<seq<K>>, batch: seq<K>)
    ensures Flat(tasks + [batch]) == Flat(tasks) + batch
  {
    assert (tasks + [batch])[..|tasks|] == tasks;
  }

  // Starting the next batch moves its requests from waiting to running.
  lemma AccountedStart<K, V>(
    requests: seq<K>, values: seq<(K, RpcValue<V>)>, tasks: seq<seq<K>>, remaining: seq<K>, lost: multiset<K>, n: nat)
    requires Accounted(requests, values, tasks, remaining, lost) && n <= |remaining|
    ensures Accounted(requests, values, tasks + [remaining[..n]], remaining[n..], lost)
  {
    FlatMore(tasks, remaining[..n]);
    assert remaining == remaining[..n] + remaining[n..];
  }

  lemma AccountedAnswer<K, V>(
    requests: seq<K>, values: seq<(K, RpcValue<V>)>, tasks: seq<seq<K>>, remaining: seq<K>, lost: multiset<K>, i: nat,
    more: seq<(K, RpcValue<V>)>)
    requires Accounted(requests, values, tasks, remaining, lost) && i < |tasks| && Keys(more) == tasks[i]
    ensures Accounted(requests, values + more, tasks[..i] + tasks[i + 1..], remaining, lost)
  {
    FlatWithout(tasks, i);
    assert Keys(values + more) == Keys(values) + Keys(more);
  }

  lemma AccountedLoss<K, V>(
    requests: seq<K>, values: seq<(K, RpcValue<V>)>, tasks: seq<seq<K>>, remaining: seq<K>, lost: multiset<K>, i: nat)
    requires Accounted(requests, values, tasks, remaining, lost) && i < |tasks|
    ensures Accounted(requests, values, tasks[..i] + tasks[i + 1..], remaining, lost + multiset(tasks[i]))
  {
    FlatWithout(tasks, i);
  }

  /** One answer at most for each request, each of them sound; and one for every
      request, none of them systemic, unless a systemic failure was recorded or the
      generation was replaced. At no time do more batches run than there are lanes. */
  method FetchConcurrently<K(!new, ==), V(!new)>(
    requests: seq<K>, lanes: nat, world: World<K, V>, ghost sound: (K, RpcValue<V>) -> bool)
    returns (fetched: Fetch<K, V>, ghost history: seq<Running<K>>, ghost finished: seq<seq<K>>)
    requires lanes > 0 && NoDuplicates(requests) && WorldOk(world, sound)
    ensures NoDuplicates(Keys(fetched.values)) && forall k :: k in Keys(fetched.values) ==> k in requests
    ensures ValuesSound(fetched.values, fetched.systemic, sound)
    ensures !fetched.systemic && (forall tick :: world.current(tick)) ==>
              forall k :: k in requests ==> k in Keys(fetched.values)
    ensures IsHistory(requests, history) && history[|history| - 1].tasks == []
    ensures forall t :: 0 <= t < |history| ==> |history[t].tasks| <= lanes
    ensures RanAs(world, lanes, history, finished) && fetched.values == Collected(world, finished)
    ensures fetched.systemic <==> SomeFails(world, finished)
  {
    hide Flat, Accounted, Keys, ValuesSound, OutcomeOk, NoDuplicates, IsHistory, Fails, SomeFails, Collected, Answers,
         Steps, RanAs, Takes, Finishes, Follows, ValuesOf;
    var tasks: seq<seq<K>>, remaining := StartLanes(requests, lanes, world, sound);
    var tick := lanes;
    var values: seq<(K, RpcValue<V>)> := [];
    var systemic := false;
    ghost var lost: multiset<K> := multiset{};
    NothingYet(requests, tasks, remaining, sound);
    history, finished := [Running(tasks, remaining)], [];
    NothingRan(world, lanes, history[0]);
    while tasks != []
      invariant history != [] && history[|history| - 1] == Running(tasks, remaining) && IsHistory(requests, history)
      invariant forall t :: 0 <= t < |history| ==> |history[t].tasks| <= lanes
      invariant Accounted(requests, values, tasks, remaining, lost) && ValuesSound(values, systemic, sound)
      invariant lost != multiset{} ==> systemic
      invariant RanAs(world, lanes, history, finished) && values == Collected(world, finished)
      invariant (systemic <==> SomeFails(world, finished)) && tick == lanes + |finished|
      invariant (forall t :: world.current(t)) && !systemic ==> remaining == [] || |tasks| == lanes
      decreases |remaining| + |tasks|
    {
      var i := world.finishesNext(tick) % |tasks|;
      var batch := tasks[i];
      CollectedMore(world, finished, batch);
      values, systemic, lost := FinishBatch(requests, values, systemic, tasks, remaining, lost, i, world, sound);
      ghost var finished0 := finished;
      finished := finished + [batch];
      ghost var before, taken := Running(tasks, remaining), 0;
      tasks := tasks[..i] + tasks[i + 1..];
      if !systemic && world.current(tick) && remaining != [] {
        var n := world.batchSize(remaining);
        taken := n;
        AccountedStart(requests, values, tasks, remaining, lost, n);
        tasks, remaining := tasks + [remaining[..n]], remaining[n..];
      }
      OneStep(world, before, Running(tasks, remaining), finished, tick, i, taken);
      RanMore(world, lanes, history, finished0, Running(tasks, remaining), batch);
      HistoryMore(requests, history, Running(tasks, remaining));
      history := history + [Running(tasks, remaining)];
      tick := tick + 1;
    }
    fetched := Fetch(values, systemic);
    AllAccounted(requests, values, remaining, lost);
  }

  // Reads the batch that finished; a failed one loses its requests.
  method FinishBatch<K(!new, ==), V(!new)>(
    ghost requests: seq<K>, values0: seq<(K, RpcValue<V>)>, systemic0: bool, tasks: seq<seq<K>>, ghost remaining: seq<K>,
    ghost lost0: multiset<K>, i: nat, world: World<K, V>, ghost sound: (K, RpcValue<V>) -> bool)
    returns (values: seq<(K, RpcValue<V>)>, systemic: bool, ghost lost: multiset<K>)
    requires WorldOk(world, sound) && i < |tasks|
    requires Accounted(requests, values0, tasks, remaining, lost0) && ValuesSound(values0, systemic0, sound)
    requires lost0 != multiset{} ==> systemic0
    ensures Accounted(requests, values, tasks[..i] + tasks[i + 1..], remaining, lost) && ValuesSound(values, systemic, sound)
    ensures lost != multiset{} ==> systemic
    ensures values == values0 + Answers(world, tasks[i]) && (systemic <==> systemic0 || Fails(world, tasks[i]))
  {
    hide Flat, Accounted, Keys, ValuesSound, Fails, Answers, ValuesOf;
    values, systemic, lost := values0, systemic0, lost0;
    var batch := tasks[i];
    var outcome := world.outcome(batch);
    ReadAs(world, batch);
    match outcome {
      case Answered(_, missing, systemicResponses) =>
        var more, failed := ReadBatch(batch, outcome, sound);
        AccountedAnswer(requests, values, tasks, remaining, lost, i, more);
        ValuesSoundMore(values, systemic, more, failed, sound);
        values, systemic := values + more, systemic || failed;
      case Failed =>
        AccountedLoss(requests, values, tasks, remaining, lost, i);
        ValuesSoundMore(values, systemic, [], true, sound);
        assert values + [] == values;
        lost := lost + multiset(batch);
        systemic := true;
    }
  }

  lemma NothingRan<K, V>(world: World<K, V>, lanes: nat, start: Running<K>)
    ensures RanAs(world, lanes, [start], []) && Collected(world, []) == [] && !SomeFails(world, [])
  {
  }

  lemma ReadAs<K, V>(world: World<K, V>, batch: seq<K>)
    ensures var outcome := world.outcome(batch);
            && (outcome.Failed? ==> Fails(world, batch) && Answers(world, batch) == [])
            && (outcome.Answered? && |outcome.values| == |batch| ==>
                  && Answers(world, batch) == ValuesOf(batch, outcome)
                  && (Fails(world, batch) <==>
                        outcome.systemicResponses > 0 || (|batch| > 1 && outcome.missing == |batch|)))
  {
  }

  lemma OneStep<K, V>(
    world: World<K, V>, a: Running<K>, b: Running<K>, finished: seq<seq<K>>, tick: nat, i: nat, taken: nat)
    requires i < |a.tasks| && taken <= |a.waiting|
    requires finished != [] && finished[|finished| - 1] == a.tasks[i]
    requires taken == (if SomeFails(world, finished) || !world.current(tick) || a.waiting == [] then 0
                       else world.batchSize(a.waiting))
    requires b == Running(a.tasks[..i] + a.tasks[i + 1..] + (if taken == 0 then [] else [a.waiting[..taken]]), a.waiting[taken..])
    ensures Steps(world, a, b, finished, tick) && Follows(a, b)
  {
    assert Finishes(a, b, i, taken);
    assert taken == Takes(world, a.waiting, finished, tick);
  }

  // Each lane starts with one batch while there are requests.
  method StartLanes<K(!new, ==), V(!new)>(
    requests: seq<K>, lanes: nat, world: World<K, V>, ghost sound: (K, RpcValue<V>) -> bool)
    returns (tasks: seq<seq<K>>, remaining: seq<K>)
    requires WorldOk(world, sound)
    ensures |tasks| <= lanes && Accounted<K, V>(requests, [], tasks, remaining, multiset{})
    ensures (forall t :: world.current(t)) ==> remaining == [] || |tasks| == lanes
    ensures IsHistory(requests, [Running(tasks, remaining)])
  {
    hide Flat, Accounted, Follows;
    FlatNothing<K>();
    tasks, remaining := [], requests;
    NothingAnswered<K, V>(requests);
    for lane := 0 to lanes
      invariant |tasks| <= lane && Accounted<K, V>(requests, [], tasks, remaining, multiset{})
      invariant (forall t :: world.current(t)) ==> remaining == [] || |tasks| == lane
      invariant Flat(tasks) + remaining == requests
    {
      if !world.current(lane) || remaining == [] {
        break;
      }
      var n := world.batchSize(remaining);
      AccountedStart<K, V>(requests, [], tasks, remaining, multiset{}, n);
      FlatStart(tasks, remaining, n);
      tasks, remaining := tasks + [remaining[..n]], remaining[n..];
    }
  }

  lemma FlatStart<K>(tasks: seq<seq<K>>, remaining: seq<K>, n: nat)
    requires n <= |remaining|
    ensures Flat(tasks + [remaining[..n]]) + remaining[n..] == Flat(tasks) + remaining
  {
    hide Flat;
    FlatMore(tasks, remaining[..n]);
    assert remaining == remaining[..n] + remaining[n..];
  }

  lemma FlatNothing<K>()
    ensures Flat<K>([]) == []
  {
  }

  lemma NothingAnswered<K, V>(requests: seq<K>)
    ensures Accounted<K, V>(requests, [], [], requests, multiset{})
  {
    assert Keys<K, V>([]) == [];
  }

  lemma NothingYet<K, V>(
    requests: seq<K>, tasks: seq<seq<K>>, remaining: seq<K>, sound: (K, RpcValue<V>) -> bool)
    ensures ValuesSound<K, V>([], false, sound)
  {
  }

  // Reads one finished batch, and whether it stops the scheduling.
  method ReadBatch<K(!new, ==), V(!new)>(batch: seq<K>, outcome: BatchOutcome<V>, ghost sound: (K, RpcValue<V>) -> bool)
    returns (more: seq<(K, RpcValue<V>)>, failed: bool)
    requires OutcomeOk(batch, outcome, sound) && forall k: K :: sound(k, SystemicFailure)
    ensures Keys(more) == batch && ValuesSound(more, failed, sound) && more == ValuesOf(batch, outcome)
    ensures failed <==> outcome.systemicResponses > 0 || (|batch| > 1 && outcome.missing == |batch|)
    ensures |more| == |batch|
    ensures forall i :: 0 <= i < |batch| ==>
              more[i] == (batch[i],
                          if |batch| > 1 && outcome.missing == |batch| then SystemicFailure else outcome.values[i])
  {
    more := ValuesOf(batch, outcome);
    failed := outcome.systemicResponses > 0 || AllMissing(batch, outcome);
    assert |Keys(more)| == |batch|;
  }

  lemma ValuesSoundMore<K, V>(
    values: seq<(K, RpcValue<V>)>, systemic: bool, more: seq<(K, RpcValue<V>)>, failed: bool,
    sound: (K, RpcValue<V>) -> bool)
    requires ValuesSound(values, systemic, sound) && (more == [] || ValuesSound(more, failed, sound))
    ensures ValuesSound(values + more, systemic || failed, sound)
  {
  }

  lemma AllAccounted<K, V>(
    requests: seq<K>, values: seq<(K, RpcValue<V>)>, remaining: seq<K>, lost: multiset<K>)
    requires NoDuplicates(requests) && Accounted(requests, values, [], remaining, lost)
    ensures NoDuplicates(Keys(values)) && forall k :: k in Keys(values) ==> k in requests
    ensures remaining == [] && lost == multiset{} ==> forall k :: k in requests ==> k in Keys(values)
  {
    var keys := Keys(values);
    forall k | k in keys ensures k in requests {
      assert k in multiset(keys) && k in multiset(requests);
    }
    DistinctOnce(requests);
    assert forall k :: multiset(keys)[k] <= multiset(requests)[k];
    OnceDistinct(keys);
    if remaining == [] && lost == multiset{} {
      forall k | k in requests ensures k in keys {
        assert k in multiset(requests);
      }
    }
  }

  lemma {:induction false} DistinctOnce<K>(s: seq<K>)
    requires NoDuplicates(s)
    ensures forall k :: multiset(s)[k] <= 1
  {
    if s != [] {
      var front, last := s[..|s| - 1], s[|s| - 1];
      assert s == front + [last];
      DistinctOnce(front);
      assert last !in front;
    }
  }

  lemma OnceDistinct<K>(s: seq<K>)
    requires forall k :: multiset(s)[k] <= 1
    ensures NoDuplicates(s)
  {
    forall i, j | 0 <= i < j < |s| ensures s[i] != s[j] {
      if s[i] == s[j] {
        TwiceCounts(s, i, j);
      }
    }
  }

  lemma TwiceCounts<K>(s: seq<K>, i: nat, j: nat)
    requires i < j < |s| && s[i] == s[j]
    ensures multiset(s)[s[i]] >= 2
  {
    assert s == s[..j] + s[j..];
    assert s[i] in s[..j] && s[j] in s[j..];
    assert multiset(s) == multiset(s[..j]) + multiset(s[j..]);
  }

  // --- what the waves rely on ------------------------------------------------------------

  /** A raw fetch whose positive answers are true is what a slice expects of it. */
  lemma RawFetchIsHonest(
    wave: seq<ExpectedVariant>, fetched: Fetch<ExpectedVariant, Transaction>,
    sound: (ExpectedVariant, RpcValue<Transaction>) -> bool, truth: OutPoint -> Script)
    requires NoDuplicates(Keys(fetched.values)) && forall k :: k in Keys(fetched.values) ==> k in wave
    requires ValuesSound(fetched.values, fetched.systemic, sound)
    requires forall e, t :: sound(e, Found(t)) ==> RawFoundOk(e, t, truth)
    requires !fetched.systemic ==> forall k :: k in wave ==> k in Keys(fetched.values)
    ensures RawFetchOk(wave, fetched, truth)
  {
    hide RawFoundOk;
    var keys := Keys(fetched.values);
    forall i | 0 <= i < |fetched.values| ensures fetched.values[i].0 in wave {
      assert keys[i] in keys;
    }
    forall i, j | 0 <= i < j < |fetched.values| ensures fetched.values[i].0 != fetched.values[j].0 {
      assert keys[i] != keys[j];
    }
    if !fetched.systemic {
      forall e | e in wave
        ensures exists i :: 0 <= i < |fetched.values| && fetched.values[i].0 == e && !fetched.values[i].1.SystemicFailure?
      {
        var i :| 0 <= i < |keys| && keys[i] == e;
        assert fetched.values[i].0 == e;
      }
    }
  }

  /** The same for previous outputs. */
  lemma PrevoutFetchIsHonest(
    wave: seq<OutPoint>, fetched: Fetch<OutPoint, Script>, sound: (OutPoint, RpcValue<Script>) -> bool,
    truth: OutPoint -> Script)
    requires NoDuplicates(Keys(fetched.values)) && forall k :: k in Keys(fetched.values) ==> k in wave
    requires ValuesSound(fetched.values, fetched.systemic, sound)
    requires forall o, s :: sound(o, Found(s)) ==> s == truth(o) && ScriptBounded(s)
    requires !fetched.systemic ==> forall k :: k in wave ==> k in Keys(fetched.values)
    ensures PrevoutFetchOk(wave, fetched, truth)
  {
    hide ScriptBounded;
    var keys := Keys(fetched.values);
    forall i | 0 <= i < |fetched.values| ensures fetched.values[i].0 in wave {
      assert keys[i] in keys;
    }
    forall i, j | 0 <= i < j < |fetched.values| ensures fetched.values[i].0 != fetched.values[j].0 {
      assert keys[i] != keys[j];
    }
    forall i | 0 <= i < |fetched.values| && fetched.values[i].1.Found?
      ensures fetched.values[i].1.value == truth(fetched.values[i].0) && ScriptBounded(fetched.values[i].1.value)
    {
      assert sound(fetched.values[i].0, Found(fetched.values[i].1.value));
    }
    if !fetched.systemic {
      forall o | o in Elements(wave)
        ensures exists i :: 0 <= i < |fetched.values| && fetched.values[i].0 == o && !fetched.values[i].1.SystemicFailure?
      {
        var i :| 0 <= i < |keys| && keys[i] == o;
        assert fetched.values[i].0 == o;
      }
    }
  }
}
