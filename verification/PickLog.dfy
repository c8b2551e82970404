/** The history of a slice's waves: which fact each candidate offered at each of its
    turns, and what its cursor made of the others. */
module PickLogs {
  import opened Base
  import opened FactTable
  import opened SliceSteps
  import RoundRobin

  datatype WaveKind = ParentWave | ConfirmedWave

  // One turn of a candidate that offered a fact, and which of its facts awaited a mempool parent.
  datatype Pick = Pick(
    key: Wtxid, outpoint: OutPoint, kind: WaveKind, turn: RoundRobin.Turn, awaiting: set<nat>)

  function PicksOf(picks: seq<Pick>, key: Wtxid): seq<Pick> {
    if picks == [] then []
    else
      var last := picks[|picks| - 1];
      PicksOf(picks[..|picks| - 1], key) + if last.key == key then [last] else []
  }

  lemma PicksMore(picks: seq<Pick>, pick: Pick, key: Wtxid)
    ensures PicksOf(picks + [pick], key) == if pick.key == key then PicksOf(picks, key) + [pick] else PicksOf(picks, key)
  {
    assert (picks + [pick])[..|picks|] == picks;
  }

  function Turns(own: seq<Pick>): seq<RoundRobin.Turn> {
    seq(|own|, i requires 0 <= i < |own| => own[i].turn)
  }

  /** A candidate's turns: each took the next eligible fact from where the last one
      left the cursor, and the cursor is where the last one left it. */
  ghost predicate OwnRun(candidate: Candidate, own: seq<Pick>) {
    var n := |candidate.required|;
    && RoundRobin.IsRun(n, Turns(own)) && RoundRobin.Bounded(n, Turns(own))
    && (forall t :: 0 <= t < |own| ==> own[t].turn.served < n && candidate.required[own[t].turn.served] == own[t].outpoint)
    && (own == [] ==> candidate.factCursor == 0)
    && (own != [] ==>
          && own[0].turn.cursor == 0
          && candidate.factCursor == RoundRobin.Advance(n, own[|own| - 1].turn.served))
  }

  // The facts of a candidate that await a mempool parent.
  ghost function AwaitingParents(required: seq<OutPoint>, facts: Facts): set<nat> {
    set i | 0 <= i < |required| && required[i] in facts && facts[required[i]].AwaitingParent()
  }

  /** No fact of a candidate begins to await a parent: what does now did at every
      turn, and each turn of a parent wave took one that did. */
  ghost predicate ParentsRun(candidate: Candidate, facts: Facts, own: seq<Pick>) {
    && (forall s, t :: 0 <= s < t < |own| ==> own[t].awaiting <= own[s].awaiting)
    && (forall t :: 0 <= t < |own| ==> AwaitingParents(candidate.required, facts) <= own[t].awaiting)
    && (forall t :: 0 <= t < |own| && own[t].kind.ParentWave? ==> own[t].turn.served in own[t].awaiting)
  }

  // Every active candidate has such a history, and a queued one has none yet.
  ghost predicate HistoryOk(active: Candidates, queued: seq<Prepared>, facts: Facts, picks: seq<Pick>) {
    && (forall k :: k in active ==> OwnRun(active[k], PicksOf(picks, k)) && ParentsRun(active[k], facts, PicksOf(picks, k)))
    && forall p :: p in queued ==> PicksOf(picks, p.expected.wtxid) == []
  }

  lemma HistoryStart(queued: seq<Prepared>)
    ensures HistoryOk(map[], queued, map[], [])
  {
  }

  // No fact has begun to await a parent.
  ghost predicate NoneBegins(before: Facts, after: Facts) {
    forall o :: o in after && after[o].AwaitingParent() ==> o in before && before[o].AwaitingParent()
  }

  lemma HistoryKeeps(active: Candidates, queued: seq<Prepared>, before: Facts, after: Facts, picks: seq<Pick>)
    requires HistoryOk(active, queued, before, picks) && NoneBegins(before, after)
    ensures HistoryOk(active, queued, after, picks)
  {
    hide OwnRun, PicksOf;
    forall k | k in active ensures ParentsRun(active[k], after, PicksOf(picks, k)) {
      assert ParentsRun(active[k], before, PicksOf(picks, k));
    }
  }

  lemma HistoryLess(active: Candidates, queued: seq<Prepared>, facts: Facts, picks: seq<Pick>, doomed: set<Wtxid>)
    requires HistoryOk(active, queued, facts, picks)
    ensures HistoryOk(active - doomed, queued, facts, picks)
  {
  }

  // A candidate enters: its facts are added, and no other candidate's facts change.
  lemma HistoryNext(
    active: Candidates, queued: seq<Prepared>, before: Facts, after: Facts, picks: seq<Pick>, candidate: Candidate)
    requires HistoryOk(active, queued, before, picks) && queued != [] && candidate.factCursor == 0
    requires Covered(active, before) && forall o :: o in before ==> o in after && after[o] == before[o]
    ensures HistoryOk(active[queued[0].expected.wtxid := candidate], queued[1..], after, picks)
  {
    hide OwnRun, PicksOf;
    var key, own := queued[0].expected.wtxid, PicksOf(picks, queued[0].expected.wtxid);
    assert queued[0] in queued;
    FirstTurns(candidate, after);
    forall k | k in active && k != key ensures ParentsRun(active[k], after, PicksOf(picks, k)) {
      assert ParentsRun(active[k], before, PicksOf(picks, k));
      assert AwaitingParents(active[k].required, after) == AwaitingParents(active[k].required, before);
    }
  }

  lemma FirstTurns(candidate: Candidate, facts: Facts)
    requires candidate.factCursor == 0
    ensures OwnRun(candidate, []) && ParentsRun(candidate, facts, [])
  {
  }

  // A turn as the candidate's cursor and facts have it.
  ghost predicate IsTurnOf(pick: Pick, candidate: Candidate, facts: Facts) {
    var n := |candidate.required|;
    && pick.turn.cursor == candidate.factCursor < n
    && RoundRobin.IsNext(n, pick.turn.cursor, pick.turn.eligible, pick.turn.served)
    && candidate.required[pick.turn.served] == pick.outpoint
    && pick.awaiting == AwaitingParents(candidate.required, facts)
    && (pick.kind.ParentWave? ==> pick.turn.served in pick.awaiting)
  }

  ghost function Moved(candidate: Candidate, turn: RoundRobin.Turn): Candidate
    requires turn.served < |candidate.required|
  {
    candidate.(factCursor := RoundRobin.Advance(|candidate.required|, turn.served))
  }

  // The turn behind what a candidate offers next.
  lemma NextTurn(
    key: Wtxid, candidate: Candidate, facts: Facts, p: (OutPoint, FactState) -> bool, kind: WaveKind, o: OutPoint,
    moved: Candidate)
    returns (made: Pick)
    requires candidate.required != [] && candidate.factCursor < |candidate.required|
    requires exists i: nat ::
               && RoundRobin.IsNext(
                    |candidate.required|, candidate.factCursor, EligibleIndices(candidate.required, facts, p), i)
               && o == candidate.required[i]
               && moved == candidate.(factCursor := RoundRobin.Advance(|candidate.required|, i))
    requires kind.ParentWave? ==> forall o, state :: p(o, state) ==> state.AwaitingParent()
    ensures made.key == key && made.outpoint == o && made.kind == kind && IsTurnOf(made, candidate, facts)
    ensures made.turn.eligible == EligibleIndices(candidate.required, facts, p)
    ensures moved == Moved(candidate, made.turn) && o in candidate.required && o in facts && p(o, facts[o])
  {
    var n, eligible := |candidate.required|, EligibleIndices(candidate.required, facts, p);
    var i: nat :|
      && RoundRobin.IsNext(n, candidate.factCursor, eligible, i) && o == candidate.required[i]
      && moved == candidate.(factCursor := RoundRobin.Advance(n, i));
    made := Pick(
      key, o, kind, RoundRobin.Turn(candidate.factCursor, eligible, i), AwaitingParents(candidate.required, facts));
  }

  lemma TurnOffers(pick: Pick, candidate: Candidate, facts: Facts)
    requires IsTurnOf(pick, candidate, facts)
    ensures pick.turn.served < |candidate.required| && pick.turn.served in pick.turn.eligible
    ensures candidate.required[pick.turn.served] == pick.outpoint
  {
  }

  // The next turn of a candidate.
  lemma HistoryPick(active: Candidates, queued: seq<Prepared>, facts: Facts, picks: seq<Pick>, pick: Pick)
    requires HistoryOk(active, queued, facts, picks) && QueueOk(queued, active) && pick.key in active
    requires IsTurnOf(pick, active[pick.key], facts)
    ensures HistoryOk(active[pick.key := Moved(active[pick.key], pick.turn)], queued, facts, picks + [pick])
  {
    hide PicksOf, OwnRun, ParentsRun;
    var after := active[pick.key := Moved(active[pick.key], pick.turn)];
    forall k | k in after
      ensures OwnRun(after[k], PicksOf(picks + [pick], k)) && ParentsRun(after[k], facts, PicksOf(picks + [pick], k))
    {
      PicksMore(picks, pick, k);
      if k == pick.key {
        RunMore(active[k], facts, PicksOf(picks, k), pick);
      }
    }
    forall p | p in queued ensures PicksOf(picks + [pick], p.expected.wtxid) == [] {
      PicksMore(picks, pick, p.expected.wtxid);
      var i :| 0 <= i < |queued| && queued[i] == p;
    }
  }

  lemma RunMore(candidate: Candidate, facts: Facts, own: seq<Pick>, pick: Pick)
    requires OwnRun(candidate, own) && ParentsRun(candidate, facts, own) && IsTurnOf(pick, candidate, facts)
    ensures OwnRun(Moved(candidate, pick.turn), own + [pick]) && ParentsRun(Moved(candidate, pick.turn), facts, own + [pick])
  {
    hide RoundRobin.IsNext;
    var more := own + [pick];
    assert Turns(more) == Turns(own) + [pick.turn];
  }

  // --- what the waves add ---------------------------------------------------------

  // The facts a candidate may still offer to a confirmed wave, and to a parent wave.
  ghost function OpenConfirmed(required: seq<OutPoint>, facts: Facts, selected: seq<OutPoint>): set<nat> {
    set i | 0 <= i < |required| && required[i] in facts && facts[required[i]].ConfirmedEligible() && required[i] !in selected
  }

  ghost function OpenParents(required: seq<OutPoint>, facts: Facts, parents: set<Txid>): set<nat> {
    set i | 0 <= i < |required| && required[i] in facts && facts[required[i]].ParentEligible()
      && required[i].txid !in parents
  }

  // Attempts recorded in this wave do not hide what was not selected.
  lemma OpenConfirmedNow(required: seq<OutPoint>, facts: Facts, selected: seq<OutPoint>, p: (OutPoint, FactState) -> bool)
    requires forall o, state :: p(o, state) <==> state.ConfirmedEligible() && o !in selected
    ensures EligibleIndices(required, AttemptAll(facts, Elements(selected)), p) == OpenConfirmed(required, facts, selected)
  {
  }

  lemma OpenParentsNow(required: seq<OutPoint>, facts: Facts, parents: set<Txid>, p: (OutPoint, FactState) -> bool)
    requires forall o, state :: p(o, state) <==> state.ParentEligible() && o.txid !in parents
    ensures EligibleIndices(required, AttemptParents(facts, parents), p) == OpenParents(required, facts, parents)
  {
  }

  // The turn behind the next selection of a confirmed wave.
  ghost predicate ConfirmedPick(
    pick: Pick, facts: Facts, active: Candidates, selected: seq<OutPoint>, o: OutPoint, owner: Wtxid)
  {
    && pick.key == owner && pick.outpoint == o && pick.kind.ConfirmedWave? && owner in active
    && pick.turn.eligible == OpenConfirmed(active[owner].required, facts, selected)
  }

  // Since `before`, one turn was recorded for each selection, in order.
  ghost predicate ConfirmedPicks(
    before: seq<Pick>, picks: seq<Pick>, facts: Facts, active: Candidates, selected: seq<OutPoint>, owners: seq<Wtxid>)
  {
    && |selected| == |owners| && |picks| == |before| + |selected| && before <= picks
    && forall j :: 0 <= j < |selected| ==>
         ConfirmedPick(picks[|before| + j], facts, active, selected[..j], selected[j], owners[j])
  }

  lemma ConfirmedPicksNone(picks: seq<Pick>, facts: Facts, active: Candidates)
    ensures ConfirmedPicks(picks, picks, facts, active, [], [])
  {
  }

  lemma ConfirmedPicksMore(
    before: seq<Pick>, picks: seq<Pick>, facts: Facts, active: Candidates, selected: seq<OutPoint>, owners: seq<Wtxid>,
    pick: Pick, o: OutPoint, owner: Wtxid)
    requires ConfirmedPicks(before, picks, facts, active, selected, owners)
    requires ConfirmedPick(pick, facts, active, selected, o, owner)
    ensures ConfirmedPicks(before, picks + [pick], facts, active, selected + [o], owners + [owner])
  {
    hide ConfirmedPick;
    var selected' := selected + [o];
    assert selected'[..|selected|] == selected;
    assert forall j :: 0 <= j < |selected| ==> selected'[..j] == selected[..j];
  }

  // The parent of this outpoint, in the variant the membership lists.
  function ParentVariant(o: OutPoint, variants: Variants): ExpectedVariant
    requires o.txid in variants
  {
    ExpectedVariant(o.txid, variants[o.txid].wtxid, variants[o.txid].vsize)
  }

  // The turn behind the next parent that a parent wave looks at.
  ghost predicate ParentPick(
    pick: Pick, facts: Facts, active: Candidates, variants: Variants, selected: seq<ExpectedVariant>)
  {
    && pick.key in active && pick.kind.ParentWave? && pick.outpoint.txid in variants
    && pick.turn.eligible == OpenParents(active[pick.key].required, facts, Txids(selected))
  }

  // A candidate has no other parent to offer, or one that is too large beside the selected ones.
  ghost predicate NoneFits(
    facts: Facts, required: seq<OutPoint>, variants: Variants, selected: seq<ExpectedVariant>)
  {
    || OpenParents(required, facts, Txids(selected)) == {}
    || exists i :: i in OpenParents(required, facts, Txids(selected)) && TooLarge(required[i].txid, selected, variants)
  }

  // The turn took one of the parents the candidate could offer.
  ghost predicate OffersOpen(pick: Pick, required: seq<OutPoint>, facts: Facts, selected: seq<ExpectedVariant>) {
    pick.turn.served in OpenParents(required, facts, Txids(selected)) && required[pick.turn.served] == pick.outpoint
  }

  lemma IsTooLarge(parent: Txid, selected: seq<ExpectedVariant>, variants: Variants)
    requires parent in variants && selected != []
    requires RawBytes(selected) + EstimatedRawResponseBytes(ExpectedVariant(parent, variants[parent].wtxid, variants[parent].vsize))
             > MAX_RAW_RESPONSE_BYTES_PER_SLICE
    ensures TooLarge(parent, selected, variants)
  {
  }

  lemma OffersTooLarge(
    pick: Pick, required: seq<OutPoint>, facts: Facts, variants: Variants, selected: seq<ExpectedVariant>)
    requires OffersOpen(pick, required, facts, selected) && TooLarge(pick.outpoint.txid, selected, variants)
    ensures NoneFits(facts, required, variants, selected)
  {
  }

  lemma NothingOffered(facts: Facts, required: seq<OutPoint>, variants: Variants, selected: seq<ExpectedVariant>)
    ensures OpenParents(required, facts, Txids(selected)) == {} ==> NoneFits(facts, required, variants, selected)
  {
  }

  lemma NoneOpen(required: seq<OutPoint>, facts: Facts, p: (OutPoint, FactState) -> bool)
    requires forall o :: o in required && o in facts ==> !p(o, facts[o])
    ensures EligibleIndices(required, facts, p) == {}
  {
  }

  lemma NoneFitsMaximal(facts: Facts, active: Candidates, variants: Variants, selected: seq<ExpectedVariant>)
    requires Covered(active, facts)
    requires forall k :: k in active ==> NoneFits(facts, active[k].required, variants, selected)
    ensures Maximal(facts, variants, selected)
  {
    hide Txids, TooLarge;
    if o :| o in facts && facts[o].ParentEligible() && o.txid !in Txids(selected) {
      var k :| k in active && o in active[k].required;
      assert NoneFits(facts, active[k].required, variants, selected);
      var required := active[k].required;
      var i :| 0 <= i < |required| && required[i] == o;
      assert i in OpenParents(required, facts, Txids(selected));
      var j :| j in OpenParents(required, facts, Txids(selected)) && TooLarge(required[j].txid, selected, variants);
      assert required[j] in facts;
    }
  }

  /** Since `before`, the turns of a parent wave: each offered a parent that was
      selected, or one that was turned down because its response would have been
      too large beside the others'. */
  ghost predicate ParentPicks(
    before: seq<Pick>, picks: seq<Pick>, facts: Facts, active: Candidates, variants: Variants,
    selected: seq<ExpectedVariant>, maximum: nat)
  {
    if |picks| <= |before| then picks == before && selected == []
    else
      var rest, last := picks[..|picks| - 1], picks[|picks| - 1];
      && selected != []
      && var front := selected[..|selected| - 1];
         || (&& ParentPick(last, facts, active, variants, front)
             && selected[|selected| - 1] == ParentVariant(last.outpoint, variants)
             && ParentPicks(before, rest, facts, active, variants, front, maximum))
         || (&& |selected| < maximum && ParentPick(last, facts, active, variants, selected)
             && TooLarge(last.outpoint.txid, selected, variants)
             && ParentPicks(before, rest, facts, active, variants, selected, maximum))
  }

  lemma ParentSelected(
    before: seq<Pick>, picks: seq<Pick>, facts: Facts, active: Candidates, variants: Variants,
    selected: seq<ExpectedVariant>, maximum: nat, pick: Pick)
    requires ParentPicks(before, picks, facts, active, variants, selected, maximum) && |before| <= |picks|
    requires ParentPick(pick, facts, active, variants, selected)
    ensures ParentPicks(
              before, picks + [pick], facts, active, variants, selected + [ParentVariant(pick.outpoint, variants)], maximum)
  {
    var more := selected + [ParentVariant(pick.outpoint, variants)];
    assert (picks + [pick])[..|picks|] == picks && more[..|selected|] == selected;
  }

  lemma ParentTurnedDown(
    before: seq<Pick>, picks: seq<Pick>, facts: Facts, active: Candidates, variants: Variants,
    selected: seq<ExpectedVariant>, maximum: nat, pick: Pick)
    requires ParentPicks(before, picks, facts, active, variants, selected, maximum) && |before| <= |picks|
    requires ParentPick(pick, facts, active, variants, selected) && |selected| < maximum
    requires TooLarge(pick.outpoint.txid, selected, variants)
    ensures ParentPicks(before, picks + [pick], facts, active, variants, selected, maximum)
  {
    assert (picks + [pick])[..|picks|] == picks;
  }

  // --- fairness among a candidate's facts ---------------------------------------------

  /** Between two turns that took the same fact, every other fact that was eligible
      at each turn in between was taken. */
  lemma NoRepeatBeforeOthers(candidate: Candidate, own: seq<Pick>, a: nat, b: nat, k: nat) returns (t: nat)
    requires OwnRun(candidate, own) && NoDuplicates(candidate.required) && a < b < |own| && k < |candidate.required|
    requires own[a].outpoint == own[b].outpoint != candidate.required[k]
    requires forall u :: a < u <= b ==> k in own[u].turn.eligible
    ensures a < t < b && own[t].outpoint == candidate.required[k]
  {
    hide RoundRobin.IsRun;
    var n := |candidate.required|;
    var turns := Turns(own)[a..b + 1];
    RoundRobin.SubRun(n, Turns(own), a, b + 1);
    assert forall u :: 0 <= u < |turns| ==> turns[u] == Turns(own)[a + u] == own[a + u].turn;
    t := RoundRobin.NoRepeatBeforeOthers(n, turns, k);
    t := a + t;
  }

  /** A fact that stays eligible is taken within as many turns of its candidate as
      the candidate has facts. */
  lemma TakenWithinRound(candidate: Candidate, own: seq<Pick>, a: nat, k: nat) returns (t: nat)
    requires OwnRun(candidate, own) && k < |candidate.required| && a + |candidate.required| <= |own|
    requires forall u :: a <= u < a + |candidate.required| ==> k in own[u].turn.eligible
    ensures a <= t < a + |candidate.required| && own[t].outpoint == candidate.required[k]
  {
    hide RoundRobin.IsRun;
    var n := |candidate.required|;
    var turns := Turns(own)[a..a + n];
    RoundRobin.SubRun(n, Turns(own), a, a + n);
    assert forall u :: 0 <= u < n ==> turns[u] == Turns(own)[a + u] == own[a + u].turn;
    t := RoundRobin.ServedWithinOneRound(n, turns, k);
    t := a + t;
  }

  // Once none of a candidate's facts awaits a parent, all its turns are those of confirmed waves.
  lemma ParentTurnsOver(candidate: Candidate, facts: Facts, own: seq<Pick>, a: nat)
    requires ParentsRun(candidate, facts, own) && a < |own| && own[a].awaiting == {}
    ensures forall t :: a <= t < |own| ==> own[t].awaiting == {} && own[t].kind.ConfirmedWave?
  {
    forall t | a <= t < |own| ensures own[t].awaiting == {} {
      assert own[t].awaiting <= own[a].awaiting;
    }
  }

  /** From a turn on at which none of a candidate's facts awaited a parent, no fact is
      taken again before every other one that confirmed waves could have taken all
      the while. */
  lemma OpenFactFirst(candidate: Candidate, facts: Facts, own: seq<Pick>, a: nat, b: nat, k: nat) returns (t: nat)
    requires OwnRun(candidate, own) && ParentsRun(candidate, facts, own) && NoDuplicates(candidate.required)
    requires a < b < |own| && k < |candidate.required| && own[a].awaiting == {}
    requires own[a].outpoint == own[b].outpoint != candidate.required[k]
    requires forall u :: a < u <= b && own[u].kind.ConfirmedWave? ==> k in own[u].turn.eligible
    ensures a < t < b && own[t].outpoint == candidate.required[k]
  {
    hide OwnRun;
    ParentTurnsOver(candidate, facts, own, a);
    t := NoRepeatBeforeOthers(candidate, own, a, b, k);
  }
}
