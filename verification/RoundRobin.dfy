/** Cyclic selection: from a cursor, serve the first eligible index at or after
    it, wrapping around, and leave the cursor just behind the served index. The
    fact cursor of a pending candidate and the driver's turn over sources both
    select this way. */
module RoundRobin {

  // How many steps the cursor takes to reach `i`.
  function Distance(n: nat, cursor: nat, i: nat): (d: nat)
    requires cursor < n && i < n
    ensures d < n
  {
    if i >= cursor then i - cursor else n - cursor + i
  }

  // (i + 1) mod n
  function Advance(n: nat, i: nat): (c: nat)
    requires i < n
    ensures c < n
  {
    if i + 1 == n then 0 else i + 1
  }

  ghost predicate IsNext(n: nat, cursor: nat, eligible: set<nat>, i: nat)
    requires cursor < n
  {
    && i < n && i in eligible
    && forall j :: j in eligible && j < n ==> Distance(n, cursor, i) <= Distance(n, cursor, j)
  }

  datatype Turn = Turn(cursor: nat, eligible: set<nat>, served: nat)

  // Consecutive turns: each serves the next eligible index from where the last one left off.
  ghost predicate IsRun(n: nat, turns: seq<Turn>) {
    && (forall t :: 0 <= t < |turns| ==>
          turns[t].cursor < n && IsNext(n, turns[t].cursor, turns[t].eligible, turns[t].served))
    && (forall t :: 0 < t < |turns| ==> turns[t].cursor == Advance(n, turns[t - 1].served))
  }

  lemma AdvanceShortens(n: nat, cursor: nat, served: nat, k: nat)
    requires cursor < n && served < n && k < n
    requires Distance(n, cursor, served) < Distance(n, cursor, k)
    ensures Distance(n, Advance(n, served), k) == Distance(n, cursor, k) - Distance(n, cursor, served) - 1
  {
  }

  /** An index that stays eligible is served before the cursor has gone round
      once: within `Distance + 1` turns, hence within `n`. */
  lemma {:induction false} ServedWithinOneRound(n: nat, turns: seq<Turn>, k: nat) returns (t: nat)
    requires IsRun(n, turns) && k < n
    requires forall u :: 0 <= u < |turns| ==> k in turns[u].eligible
    requires |turns| > 0 && Distance(n, turns[0].cursor, k) < |turns|
    ensures t < |turns| && turns[t].served == k
    ensures t <= Distance(n, turns[0].cursor, k)
    decreases |turns|
  {
    var first := turns[0];
    assert IsNext(n, first.cursor, first.eligible, first.served);
    if first.served == k {
      t := 0;
    } else {
      AdvanceShortens(n, first.cursor, first.served, k);
      var rest := turns[1..];
      assert forall u :: 0 <= u < |rest| ==> rest[u] == turns[u + 1];
      var u := ServedWithinOneRound(n, rest, k);
      t := u + 1;
    }
  }

  // The turn's sweep comes to `k`: it serves `k` or passes it.
  predicate Reaches(n: nat, turn: Turn, k: nat)
    requires turn.cursor < n && turn.served < n && k < n
  {
    Distance(n, turn.cursor, k) <= Distance(n, turn.cursor, turn.served)
  }

  // The turns of a run stay within bounds.
  ghost predicate Bounded(n: nat, turns: seq<Turn>) {
    forall t :: 0 <= t < |turns| ==> turns[t].cursor < n && turns[t].served < n
  }

  lemma RunBounded(n: nat, turns: seq<Turn>)
    requires IsRun(n, turns)
    ensures Bounded(n, turns)
  {
    forall t | 0 <= t < |turns| ensures turns[t].served < n {
      assert IsNext(n, turns[t].cursor, turns[t].eligible, turns[t].served);
    }
  }

  /** Between two turns that serve the same index, the cursor comes to every other
      index. */
  lemma ReachedBetween(n: nat, turns: seq<Turn>, k: nat) returns (t: nat)
    requires IsRun(n, turns) && Bounded(n, turns) && |turns| >= 2 && k < n
    requires turns[0].served == turns[|turns| - 1].served != k
    ensures 0 < t < |turns| && Reaches(n, turns[t], k)
  {
    var i := turns[0].served;
    t := 1;
    while !Reaches(n, turns[t], k)
      invariant 0 < t < |turns|
      invariant Distance(n, turns[t].cursor, k) < Distance(n, turns[t].cursor, i)
      decreases |turns| - t
    {
      var turn := turns[t];
      AdvanceShortens(n, turn.cursor, turn.served, k);
      AdvanceShortens(n, turn.cursor, turn.served, i);
      t := t + 1;
    }
  }

  /** A turn that comes to an eligible index serves it. */
  lemma ServedWhenReached(n: nat, turns: seq<Turn>, t: nat, k: nat)
    requires IsRun(n, turns) && Bounded(n, turns) && t < |turns| && k < n
    ensures turns[t].served == k <==> Reaches(n, turns[t], k) && k in turns[t].eligible
  {
    var turn := turns[t];
    assert IsNext(n, turn.cursor, turn.eligible, turn.served);
  }

  // A stretch of a run is a run.
  lemma SubRun(n: nat, turns: seq<Turn>, a: nat, b: nat)
    requires IsRun(n, turns) && a <= b <= |turns|
    ensures IsRun(n, turns[a..b])
  {
    var part := turns[a..b];
    assert forall t :: 0 <= t < |part| ==> part[t] == turns[a + t];
    forall t | 0 < t < |part| ensures part[t].cursor == Advance(n, part[t - 1].served) {
      assert turns[a + t].cursor == Advance(n, turns[a + t - 1].served);
    }
  }

  /** Between two turns that serve the same index, every other index that stayed
      eligible is served. */
  lemma NoRepeatBeforeOthers(n: nat, turns: seq<Turn>, k: nat) returns (t: nat)
    requires IsRun(n, turns) && |turns| >= 2 && k < n
    requires turns[0].served == turns[|turns| - 1].served != k
    requires forall u :: 0 < u < |turns| ==> k in turns[u].eligible
    ensures 0 < t < |turns| - 1 && turns[t].served == k
  {
    RunBounded(n, turns);
    t := ReachedBetween(n, turns, k);
    ServedWhenReached(n, turns, t, k);
  }
}
