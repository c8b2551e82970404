/** The classification driver over all sources: schedulers mark sources pending and
    notify, the driver takes what is pending and serves active sources in turn. A
    notification is one stored permit. */
module Drivers {
  import opened Base
  import opened RoundRobin

  // The smallest index of the set at or after `from`.
  function FirstFrom(active: set<nat>, from: nat, n: nat): (i: Option<nat>)
    ensures i.Some? ==> i.value in active && from <= i.value < n
    ensures i.Some? ==> forall j :: j in active && from <= j ==> i.value <= j
    ensures i.None? ==> forall j :: j in active ==> !(from <= j < n)
    decreases n - from
  {
    if from >= n then None else if from in active then Some(from) else FirstFrom(active, from + 1, n)
  }

  function NextSource(active: set<nat>, next: nat, n: nat): Option<nat> {
    var later := FirstFrom(active, next, n);
    if later.Some? then later else FirstFrom(active, 0, n)
  }

  /** The choice is the first active source in cyclic order from the cursor, and
      fails only when none is active. */
  lemma NextSourceIsNext(active: set<nat>, next: nat, n: nat)
    requires next < n && forall i :: i in active ==> i < n
    ensures NextSource(active, next, n).None? <==> active == {}
    ensures NextSource(active, next, n).Some? ==> IsNext(n, next, active, NextSource(active, next, n).value)
  {
    if i :| i in active {
      assert next <= i < n || 0 <= i < n;
    }
  }

  // A source that is active and not served stays active.
  ghost predicate Persistent(turns: seq<Turn>) {
    forall t, k :: 0 <= t < |turns| - 1 && k in turns[t].eligible && k != turns[t].served ==> k in turns[t + 1].eligible
  }

  /** An active source is served within as many turns as there are sources. */
  lemma {:induction false} ServedWithinSources(n: nat, turns: seq<Turn>, first: nat, k: nat) returns (t: nat)
    requires IsRun(n, turns) && Persistent(turns) && k < n
    requires first < |turns| && k in turns[first].eligible
    requires first + Distance(n, turns[first].cursor, k) < |turns|
    ensures first <= t <= first + Distance(n, turns[first].cursor, k) && t < first + n
    ensures turns[t].served == k
    decreases |turns| - first
  {
    var turn := turns[first];
    assert IsNext(n, turn.cursor, turn.eligible, turn.served);
    if turn.served == k {
      t := first;
    } else {
      AdvanceShortens(n, turn.cursor, turn.served, k);
      t := ServedWithinSources(n, turns, first + 1, k);
    }
  }

  lemma RunMore(n: nat, turns: seq<Turn>, turn: Turn)
    requires IsRun(n, turns) && Persistent(turns)
    requires turn.cursor < n && IsNext(n, turn.cursor, turn.eligible, turn.served)
    requires turns != [] ==>
               var last := turns[|turns| - 1];
               && last.served < n && turn.cursor == Advance(n, last.served)
               && forall k :: k in last.eligible && k != last.served ==> k in turn.eligible
    ensures IsRun(n, turns + [turn]) && Persistent(turns + [turn])
  {
  }

  lemma AdvanceWraps(n: nat, i: nat)
    requires i < n
    ensures (i + 1) % n == Advance(n, i)
  {
  }

  datatype Place =
    | Asleep           // awaits a notification
    | Taking           // about to take the pending set
    | Choosing         // about to choose a source, or to go back to sleep
    | Serving(source: nat)

  datatype Event =
    | MarkPending(source: nat)
    | Notify
    | Drive(continues: bool)

  class ClassificationDriver {
    const sources: nat
    var pending: set<nat>
    var notifying: nat     // schedulers that have marked a source and not yet notified
    var permit: bool
    var place: Place
    var active: set<nat>
    var nextSource: nat
    ghost var turns: seq<Turn>   // since the driver last woke

    // The driver has a take ahead before it can sleep.
    predicate TakeAhead()
      reads this
    {
      place.Taking? || place.Serving? || (place.Choosing? && active != {})
    }

    ghost predicate Valid()
      reads this
    {
      && 0 < sources && nextSource < sources
      && (forall i :: i in pending || i in active ==> i < sources)
      && (place.Serving? ==> place.source < sources && place.source !in active)
      && (place.Asleep? ==> active == {})
      && (pending != {} ==> permit || notifying > 0 || TakeAhead())
      && History()
    }

    // The turns since waking, and how the next one continues them.
    ghost predicate History()
      reads this
    {
      && IsRun(sources, turns) && Persistent(turns)
      && (turns != [] ==>
            var last := turns[|turns| - 1];
            && last.served < sources
            && (place.Serving? ==> place.source == last.served)
            && (!place.Serving? && !place.Asleep? ==> nextSource == Advance(sources, last.served))
            && (!place.Asleep? ==> forall k :: k in last.eligible && k != last.served ==> k in active))
      && (turns == [] && !place.Asleep? ==> nextSource == 0 && !place.Serving?)
    }

    constructor (sources: nat)
      requires 0 < sources
      ensures Valid() && this.sources == sources && place == Asleep && pending == {} && !permit
    {
      this.sources := sources;
      pending, notifying, permit, place, active, nextSource, turns := {}, 0, false, Asleep, {}, 0, [];
    }

    // Scheduling marks the source first and notifies second.
    method MarkPending(source: nat)
      requires Valid() && source < sources
      modifies this`pending, this`notifying
      ensures Valid() && pending == old(pending) + {source} && notifying == old(notifying) + 1
    {
      hide IsRun, Persistent;
      pending := pending + {source};
      notifying := notifying + 1;
    }

    method Notify()
      requires Valid() && notifying > 0
      modifies this`notifying, this`permit
      ensures Valid() && permit && notifying == old(notifying) - 1
    {
      hide IsRun, Persistent;
      notifying := notifying - 1;
      permit := true;
    }

    // A driver that sleeps starts over with the first source.
    method Wake()
      requires Valid() && place.Asleep? && permit
      modifies this`permit, this`place, this`active, this`nextSource, this`turns
      ensures Valid() && !permit && place == Taking && active == {} && turns == []
    {
      permit, place, active, nextSource, turns := false, Taking, {}, 0, [];
    }

    /** Everything pending becomes active. */
    method Take()
      requires Valid() && place.Taking?
      modifies this`pending, this`active, this`place
      ensures Valid() && place == Choosing && pending == {} && active == old(active) + old(pending)
    {
      hide IsRun, Persistent;
      active := active + pending;
      pending := {};
      place := Choosing;
    }

    /** Chooses the next active source, or sleeps when there is none. */
    method Choose()
      requires Valid() && place.Choosing?
      modifies this`active, this`place, this`turns
      ensures Valid()
      ensures old(active) == {} ==> place == Asleep && active == {} && turns == old(turns)
      ensures old(active) != {} ==>
                && place.Serving? && active == old(active) - {place.source}
                && IsNext(sources, nextSource, old(active), place.source)
                && turns == old(turns) + [Turn(nextSource, old(active), place.source)]
    {
      hide IsRun, Persistent, IsNext, FirstFrom;
      NextSourceIsNext(active, nextSource, sources);
      var chosen := NextSource(active, nextSource, sources);
      if chosen.None? {
        place := Asleep;
        return;
      }
      RunMore(sources, turns, Turn(nextSource, active, chosen.value));
      turns := turns + [Turn(nextSource, active, chosen.value)];
      active := active - {chosen.value};
      place := Serving(chosen.value);
    }

    /** The slice is over; the source stays active if it has more to do. */
    method Serve(continues: bool)
      requires Valid() && place.Serving?
      modifies this`active, this`place, this`nextSource
      ensures Valid() && place == Taking && nextSource == (old(place).source + 1) % sources
      ensures active == old(active) + (if continues then {old(place).source} else {})
    {
      hide IsRun, Persistent, Advance;
      var source := place.source;
      AdvanceWraps(sources, source);
      if continues {
        active := active + {source};
      }
      nextSource := (source + 1) % sources;
      place := Taking;
    }

    /** Schedulers and the driver interleave in any order. */
    method Step(event: Event)
      requires Valid() && (event.MarkPending? ==> event.source < sources)
      modifies this
      ensures Valid()
    {
      hide IsRun, Persistent, IsNext;
      match event {
        case MarkPending(source) =>
          MarkPending(source);
        case Notify =>
          if notifying > 0 {
            Notify();
          }
        case Drive(continues) =>
          match place {
            case Asleep =>
              if permit {
                Wake();
              }
            case Taking => Take();
            case Choosing => Choose();
            case Serving(_) => Serve(continues);
          }
      }
    }

    method Run(schedule: seq<Event>)
      requires Valid() && forall e :: e in schedule && e.MarkPending? ==> e.source < sources
      modifies this
      ensures Valid()
    {
      hide IsRun, Persistent, IsNext;
      for i := 0 to |schedule|
        invariant Valid()
      {
        assert schedule[i] in schedule;
        Step(schedule[i]);
      }
    }

    /** No wakeup is lost: with every notification given, a pending source finds the
        driver awake or about to wake, and the driver takes it within four of its own
        steps. */
    method TakesPending(continues: bool) returns (steps: nat)
      requires Valid() && pending != {} && notifying == 0
      modifies this
      ensures Valid() && steps <= 4 && pending == {} && old(pending) <= active
    {
      hide IsRun, Persistent, IsNext;
      steps := 0;
      if place.Choosing? {
        Choose();
        steps := steps + 1;
      }
      if place.Serving? {
        Serve(continues);
        steps := steps + 1;
      } else if place.Asleep? {
        Wake();
        steps := steps + 1;
      }
      Take();
      steps := steps + 1;
    }

    /** Since the driver woke, every source it found active was served within one
        turn per source. */
    lemma ServedInTurn(first: nat, k: nat) returns (t: nat)
      requires Valid() && first < |turns| && k in turns[first].eligible && first + sources <= |turns| && k < sources
      ensures first <= t < first + sources && turns[t].served == k
    {
      assert IsNext(sources, turns[first].cursor, turns[first].eligible, turns[first].served);
      t := ServedWithinSources(sources, turns, first, k);
    }
  }
}
