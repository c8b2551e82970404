/** The comparison of two current snapshots: a merge join into three membership
    regions, and the lookup of a transaction across them. */
module Comparisons {
  import opened Base
  import opened Assessments

  datatype MempoolTransaction = MempoolTransaction(
    txid: Txid, wtxid: Wtxid, vsize: nat, assessment: Option<Assessment>)

  datatype LoadedSnapshot = LoadedSnapshot(
    sourceId: string, observedAtMs: nat, transactions: seq<MempoolTransaction>)

  datatype Side = Left | Right

  datatype Region = Common | LeftOnly | RightOnly

  datatype ComparedTransaction = ComparedTransaction(
    txid: Txid, left: Option<MempoolTransaction>, right: Option<MempoolTransaction>, sameWtxid: Option<bool>)

  datatype Totals = Totals(
    unionCount: nat, commonCount: nat, commonLeftVsize: nat, commonRightVsize: nat, leftOnlyCount: nat,
    leftOnlyVsize: nat, rightOnlyCount: nat, rightOnlyVsize: nat)

  datatype Comparison = Comparison(
    left: LoadedSnapshot, right: LoadedSnapshot, observedSkewMs: nat, earlierSide: Option<Side>,
    common: seq<ComparedTransaction>, leftOnly: seq<ComparedTransaction>, rightOnly: seq<ComparedTransaction>,
    totals: Totals)
  {
    function Entries(region: Region): seq<ComparedTransaction> {
      match region
      case Common => common
      case LeftOnly => leftOnly
      case RightOnly => rightOnly
    }
  }

  function Paired(l: MempoolTransaction, r: MempoolTransaction): ComparedTransaction {
    ComparedTransaction(l.txid, Some(l), Some(r), Some(l.wtxid == r.wtxid))
  }

  function OnlyLeft(l: MempoolTransaction): ComparedTransaction {
    ComparedTransaction(l.txid, Some(l), None, None)
  }

  function OnlyRight(r: MempoolTransaction): ComparedTransaction {
    ComparedTransaction(r.txid, None, Some(r), None)
  }

  function SourceEntry(entry: ComparedTransaction, side: Side): Option<MempoolTransaction> {
    if side.Left? then entry.left else entry.right
  }

  function PolicySideForRegion(region: Region, preferred: Side): Side {
    match region
    case LeftOnly => Left
    case RightOnly => Right
    case Common => preferred
  }

  // --- what the regions are -------------------------------------------------------

  ghost predicate SortedTransactions(s: seq<MempoolTransaction>) {
    forall i, j :: 0 <= i < j < |s| ==> s[i].txid < s[j].txid
  }

  ghost predicate SortedEntries(s: seq<ComparedTransaction>) {
    forall i, j :: 0 <= i < j < |s| ==> s[i].txid < s[j].txid
  }

  ghost predicate Has(s: seq<MempoolTransaction>, txid: Txid) {
    exists t :: t in s && t.txid == txid
  }

  ghost predicate Lists(s: seq<ComparedTransaction>, txid: Txid) {
    exists e :: e in s && e.txid == txid
  }

  function VsizeOf(s: seq<MempoolTransaction>): nat {
    if s == [] then 0 else VsizeOf(s[..|s| - 1]) + s[|s| - 1].vsize
  }

  function VsizeOn(s: seq<ComparedTransaction>, side: Side): nat {
    if s == [] then 0
    else
      var own := SourceEntry(s[|s| - 1], side);
      VsizeOn(s[..|s| - 1], side) + (if own.Some? then own.value.vsize else 0)
  }

  /** The three regions of two snapshots: sorted, every entry shows its snapshots'
      own transactions, and every transaction is in the region it belongs to. */
  ghost predicate Joined(
    left: seq<MempoolTransaction>, right: seq<MempoolTransaction>, common: seq<ComparedTransaction>,
    leftOnly: seq<ComparedTransaction>, rightOnly: seq<ComparedTransaction>)
  {
    && SortedEntries(common) && SortedEntries(leftOnly) && SortedEntries(rightOnly)
    && (forall e :: e in common ==> exists l, r :: l in left && r in right && l.txid == r.txid && e == Paired(l, r))
    && (forall e :: e in leftOnly ==> !Has(right, e.txid) && exists l :: l in left && e == OnlyLeft(l))
    && (forall e :: e in rightOnly ==> !Has(left, e.txid) && exists r :: r in right && e == OnlyRight(r))
    && (forall l, r :: l in left && r in right && l.txid == r.txid ==> Paired(l, r) in common)
    && (forall l :: l in left && !Has(right, l.txid) ==> OnlyLeft(l) in leftOnly)
    && (forall r :: r in right && !Has(left, r.txid) ==> OnlyRight(r) in rightOnly)
  }

  // Everything joined so far comes before everything still to join.
  ghost predicate Before(s: seq<MempoolTransaction>, txid: Txid) {
    forall t :: t in s ==> t.txid < txid
  }

  lemma JoinCommon(
    left: seq<MempoolTransaction>, right: seq<MempoolTransaction>, common: seq<ComparedTransaction>,
    leftOnly: seq<ComparedTransaction>, rightOnly: seq<ComparedTransaction>, l: MempoolTransaction, r: MempoolTransaction)
    requires Joined(left, right, common, leftOnly, rightOnly)
    requires l.txid == r.txid && Before(left, l.txid) && Before(right, r.txid)
    ensures Joined(left + [l], right + [r], common + [Paired(l, r)], leftOnly, rightOnly)
  {
    HasMore(left, l);
    HasMore(right, r);
    forall e | e in common ensures e.txid < l.txid {
      var a, b :| a in left && b in right && a.txid == b.txid && e == Paired(a, b);
    }
    SortedMore(common, Paired(l, r));
  }

  lemma JoinLeft(
    left: seq<MempoolTransaction>, right: seq<MempoolTransaction>, common: seq<ComparedTransaction>,
    leftOnly: seq<ComparedTransaction>, rightOnly: seq<ComparedTransaction>, l: MempoolTransaction)
    requires Joined(left, right, common, leftOnly, rightOnly)
    requires Before(left, l.txid) && Before(right, l.txid)
    ensures Joined(left + [l], right, common, leftOnly + [OnlyLeft(l)], rightOnly)
  {
    HasMore(left, l);
    forall e | e in leftOnly ensures e.txid < l.txid {
      var a :| a in left && e == OnlyLeft(a);
    }
    SortedMore(leftOnly, OnlyLeft(l));
  }

  lemma JoinRight(
    left: seq<MempoolTransaction>, right: seq<MempoolTransaction>, common: seq<ComparedTransaction>,
    leftOnly: seq<ComparedTransaction>, rightOnly: seq<ComparedTransaction>, r: MempoolTransaction)
    requires Joined(left, right, common, leftOnly, rightOnly)
    requires Before(left, r.txid) && Before(right, r.txid)
    ensures Joined(left, right + [r], common, leftOnly, rightOnly + [OnlyRight(r)])
  {
    HasMore(right, r);
    forall e | e in rightOnly ensures e.txid < r.txid {
      var a :| a in right && e == OnlyRight(a);
    }
    SortedMore(rightOnly, OnlyRight(r));
  }

  lemma HasMore(s: seq<MempoolTransaction>, t: MempoolTransaction)
    ensures forall txid :: Has(s + [t], txid) <==> Has(s, txid) || txid == t.txid
  {
    forall txid ensures Has(s + [t], txid) <==> Has(s, txid) || txid == t.txid {
      assert t in s + [t];
      if Has(s, txid) {
        var x :| x in s && x.txid == txid;
        assert x in s + [t];
      }
    }
  }

  lemma SortedMore(s: seq<ComparedTransaction>, e: ComparedTransaction)
    requires SortedEntries(s) && forall x :: x in s ==> x.txid < e.txid
    ensures SortedEntries(s + [e])
  {
  }

  // --- the merge join -----------------------------------------------------------------

  // Whatever is joined next comes after all that is joined.
  ghost predicate Frontier(
    left: seq<MempoolTransaction>, right: seq<MempoolTransaction>, i: nat, j: nat)
    requires i <= |left| && j <= |right|
  {
    && (forall a :: i <= a < |left| ==> Before(left[..i], left[a].txid) && Before(right[..j], left[a].txid))
    && (forall b :: j <= b < |right| ==> Before(left[..i], right[b].txid) && Before(right[..j], right[b].txid))
  }

  ghost predicate Conserved(
    left: seq<MempoolTransaction>, right: seq<MempoolTransaction>, common: seq<ComparedTransaction>,
    leftOnly: seq<ComparedTransaction>, rightOnly: seq<ComparedTransaction>, totals: Totals)
  {
    && totals.commonLeftVsize == VsizeOn(common, Left) && totals.commonRightVsize == VsizeOn(common, Right)
    && totals.leftOnlyVsize == VsizeOn(leftOnly, Left) && totals.rightOnlyVsize == VsizeOn(rightOnly, Right)
    && VsizeOf(left) == totals.commonLeftVsize + totals.leftOnlyVsize
    && VsizeOf(right) == totals.commonRightVsize + totals.rightOnlyVsize
    && |left| == |common| + |leftOnly| && |right| == |common| + |rightOnly|
  }

  lemma VsizeMore(s: seq<MempoolTransaction>, t: MempoolTransaction)
    ensures VsizeOf(s + [t]) == VsizeOf(s) + t.vsize
  {
    assert (s + [t])[..|s|] == s;
  }

  lemma VsizeOnMore(s: seq<ComparedTransaction>, e: ComparedTransaction, side: Side)
    ensures VsizeOn(s + [e], side)
            == VsizeOn(s, side) + (if SourceEntry(e, side).Some? then SourceEntry(e, side).value.vsize else 0)
  {
    assert (s + [e])[..|s|] == s;
  }

  lemma TakeOne(s: seq<MempoolTransaction>, i: nat)
    requires i < |s|
    ensures s[..i + 1] == s[..i] + [s[i]]
  {
  }

  lemma FrontierNext(left: seq<MempoolTransaction>, right: seq<MempoolTransaction>, i: nat, j: nat, di: nat, dj: nat)
    requires SortedTransactions(left) && SortedTransactions(right) && i <= |left| && j <= |right|
    requires Frontier(left, right, i, j) && i + di <= |left| && j + dj <= |right| && di <= 1 && dj <= 1
    requires di == 1 ==> forall b :: j + dj <= b < |right| ==> left[i].txid < right[b].txid
    requires dj == 1 ==> forall a :: i + di <= a < |left| ==> right[j].txid < left[a].txid
    ensures Frontier(left, right, i + di, j + dj)
  {
    if di == 1 {
      TakeOne(left, i);
    }
    if dj == 1 {
      TakeOne(right, j);
    }
  }

  // The join of the first `i` and `j` transactions.
  ghost predicate JoinedUpTo(
    l: seq<MempoolTransaction>, r: seq<MempoolTransaction>, i: nat, j: nat, common: seq<ComparedTransaction>,
    leftOnly: seq<ComparedTransaction>, rightOnly: seq<ComparedTransaction>, totals: Totals)
  {
    && i <= |l| && j <= |r| && Frontier(l, r, i, j)
    && Joined(l[..i], r[..j], common, leftOnly, rightOnly)
    && Conserved(l[..i], r[..j], common, leftOnly, rightOnly, totals)
  }

  lemma FrontierCommon(l: seq<MempoolTransaction>, r: seq<MempoolTransaction>, i: nat, j: nat)
    requires SortedTransactions(l) && SortedTransactions(r) && i < |l| && j < |r| && Frontier(l, r, i, j)
    requires l[i].txid == r[j].txid
    ensures Frontier(l, r, i + 1, j + 1) && Before(l[..i], l[i].txid) && Before(r[..j], r[j].txid)
  {
    hide Before;
    assert Before(l[..i], l[i].txid) && Before(r[..j], r[j].txid);
    FrontierNext(l, r, i, j, 1, 1);
  }

  /** Puts each transaction of two sorted snapshots into its region. Two views of
      one source are not compared. */
  method CompareCurrentSnapshots(left: LoadedSnapshot, right: LoadedSnapshot) returns (result: Option<Comparison>)
    requires SortedTransactions(left.transactions) && SortedTransactions(right.transactions)
    ensures result.None? <==> left.sourceId == right.sourceId
    ensures result.Some? ==>
              var c := result.value;
              && c.left == left && c.right == right
              && Joined(left.transactions, right.transactions, c.common, c.leftOnly, c.rightOnly)
              && Conserved(left.transactions, right.transactions, c.common, c.leftOnly, c.rightOnly, c.totals)
              && c.totals.commonCount == |c.common| && c.totals.leftOnlyCount == |c.leftOnly|
              && c.totals.rightOnlyCount == |c.rightOnly|
              && c.totals.unionCount == |c.common| + |c.leftOnly| + |c.rightOnly|
              && (left.observedAtMs + c.observedSkewMs == right.observedAtMs
                  || right.observedAtMs + c.observedSkewMs == left.observedAtMs)
              && (c.earlierSide == Some(Left) <==> left.observedAtMs < right.observedAtMs)
              && (c.earlierSide == Some(Right) <==> right.observedAtMs < left.observedAtMs)
              && EntriesSay(left.transactions, right.transactions, c.common, c.leftOnly, c.rightOnly)
  {
    hide Joined, Conserved, JoinedUpTo, SortedTransactions;
    if left.sourceId == right.sourceId {
      return None;
    }
    var l, r := left.transactions, right.transactions;
    var common, leftOnly, rightOnly: seq<ComparedTransaction> := [], [], [];
    var totals := Totals(0, 0, 0, 0, 0, 0, 0, 0);
    var i, j := 0, 0;
    JoinNothing(l, r);
    while i < |l| || j < |r|
      invariant i <= |l| && j <= |r|
      invariant JoinedUpTo(l, r, i, j, common, leftOnly, rightOnly, totals)
      decreases |l| - i + |r| - j
    {
      if i == |l| {
        PushRight(l, r, i, j, common, leftOnly, rightOnly, totals);
        rightOnly := rightOnly + [OnlyRight(r[j])];
        totals := totals.(rightOnlyVsize := totals.rightOnlyVsize + r[j].vsize);
        j := j + 1;
      } else if j == |r| {
        PushLeft(l, r, i, j, common, leftOnly, rightOnly, totals);
        leftOnly := leftOnly + [OnlyLeft(l[i])];
        totals := totals.(leftOnlyVsize := totals.leftOnlyVsize + l[i].vsize);
        i := i + 1;
      } else if l[i].txid == r[j].txid {
        PushCommon(l, r, i, j, common, leftOnly, rightOnly, totals);
        common := common + [Paired(l[i], r[j])];
        totals := totals.(
          commonLeftVsize := totals.commonLeftVsize + l[i].vsize, commonRightVsize := totals.commonRightVsize + r[j].vsize);
        i, j := i + 1, j + 1;
      } else if l[i].txid < r[j].txid {
        PushLeft(l, r, i, j, common, leftOnly, rightOnly, totals);
        leftOnly := leftOnly + [OnlyLeft(l[i])];
        totals := totals.(leftOnlyVsize := totals.leftOnlyVsize + l[i].vsize);
        i := i + 1;
      } else {
        PushRight(l, r, i, j, common, leftOnly, rightOnly, totals);
        rightOnly := rightOnly + [OnlyRight(r[j])];
        totals := totals.(rightOnlyVsize := totals.rightOnlyVsize + r[j].vsize);
        j := j + 1;
      }
    }
    JoinedAll(l, r, common, leftOnly, rightOnly, totals);
    var skew := if left.observedAtMs < right.observedAtMs then right.observedAtMs - left.observedAtMs
                else left.observedAtMs - right.observedAtMs;
    var earlier := if left.observedAtMs == right.observedAtMs then None
                   else if left.observedAtMs < right.observedAtMs then Some(Left) else Some(Right);
    result := Some(
      Comparison(
        left, right, skew, earlier, common, leftOnly, rightOnly,
        totals.(
          unionCount := |common| + |leftOnly| + |rightOnly|, commonCount := |common|, leftOnlyCount := |leftOnly|,
          rightOnlyCount := |rightOnly|)));
    ConservedCounts(l, r, common, leftOnly, rightOnly, totals, result.value.totals);
    JoinedSays(l, r, common, leftOnly, rightOnly);
  }

  // What the entries of each region show, field by field.
  ghost predicate EntriesSay(
    left: seq<MempoolTransaction>, right: seq<MempoolTransaction>, common: seq<ComparedTransaction>,
    leftOnly: seq<ComparedTransaction>, rightOnly: seq<ComparedTransaction>)
  {
    && (forall e :: e in common ==>
          && e.left.Some? && e.left.value in left && e.right.Some? && e.right.value in right
          && e.left.value.txid == e.txid == e.right.value.txid
          && e.sameWtxid.Some? && (e.sameWtxid.value <==> e.left.value.wtxid == e.right.value.wtxid))
    && (forall e :: e in leftOnly ==>
          && e.left.Some? && e.left.value in left && e.left.value.txid == e.txid
          && e.right.None? && e.sameWtxid.None? && forall r :: r in right ==> r.txid != e.txid)
    && (forall e :: e in rightOnly ==>
          && e.right.Some? && e.right.value in right && e.right.value.txid == e.txid
          && e.left.None? && e.sameWtxid.None? && forall l :: l in left ==> l.txid != e.txid)
  }

  lemma JoinedSays(
    left: seq<MempoolTransaction>, right: seq<MempoolTransaction>, common: seq<ComparedTransaction>,
    leftOnly: seq<ComparedTransaction>, rightOnly: seq<ComparedTransaction>)
    requires Joined(left, right, common, leftOnly, rightOnly)
    ensures EntriesSay(left, right, common, leftOnly, rightOnly)
  {
  }

  lemma ConservedCounts(
    l: seq<MempoolTransaction>, r: seq<MempoolTransaction>, common: seq<ComparedTransaction>,
    leftOnly: seq<ComparedTransaction>, rightOnly: seq<ComparedTransaction>, a: Totals, b: Totals)
    requires Conserved(l, r, common, leftOnly, rightOnly, a)
    requires a.commonLeftVsize == b.commonLeftVsize && a.commonRightVsize == b.commonRightVsize
    requires a.leftOnlyVsize == b.leftOnlyVsize && a.rightOnlyVsize == b.rightOnlyVsize
    ensures Conserved(l, r, common, leftOnly, rightOnly, b)
  {
  }

  lemma JoinedAll(
    l: seq<MempoolTransaction>, r: seq<MempoolTransaction>, common: seq<ComparedTransaction>,
    leftOnly: seq<ComparedTransaction>, rightOnly: seq<ComparedTransaction>, totals: Totals)
    requires JoinedUpTo(l, r, |l|, |r|, common, leftOnly, rightOnly, totals)
    ensures Joined(l, r, common, leftOnly, rightOnly) && Conserved(l, r, common, leftOnly, rightOnly, totals)
  {
    hide Joined, Conserved, Frontier;
    assert l[..|l|] == l && r[..|r|] == r;
  }

  lemma JoinNothing(l: seq<MempoolTransaction>, r: seq<MempoolTransaction>)
    ensures JoinedUpTo(l, r, 0, 0, [], [], [], Totals(0, 0, 0, 0, 0, 0, 0, 0))
  {
  }

  lemma PushCommon(
    l: seq<MempoolTransaction>, r: seq<MempoolTransaction>, i: nat, j: nat, common: seq<ComparedTransaction>,
    leftOnly: seq<ComparedTransaction>, rightOnly: seq<ComparedTransaction>, totals: Totals)
    requires SortedTransactions(l) && SortedTransactions(r) && i < |l| && j < |r| && l[i].txid == r[j].txid
    requires JoinedUpTo(l, r, i, j, common, leftOnly, rightOnly, totals)
    ensures JoinedUpTo(
              l, r, i + 1, j + 1, common + [Paired(l[i], r[j])], leftOnly, rightOnly,
              totals.(
                commonLeftVsize := totals.commonLeftVsize + l[i].vsize,
                commonRightVsize := totals.commonRightVsize + r[j].vsize))
  {
    hide Joined, VsizeOf, VsizeOn, Frontier, Before, SortedTransactions;
    FrontierCommon(l, r, i, j);
    JoinCommon(l[..i], r[..j], common, leftOnly, rightOnly, l[i], r[j]);
    TakeOne(l, i);
    TakeOne(r, j);
    VsizeMore(l[..i], l[i]);
    VsizeMore(r[..j], r[j]);
    VsizeOnMore(common, Paired(l[i], r[j]), Left);
    VsizeOnMore(common, Paired(l[i], r[j]), Right);
  }

  lemma PushLeft(
    l: seq<MempoolTransaction>, r: seq<MempoolTransaction>, i: nat, j: nat, common: seq<ComparedTransaction>,
    leftOnly: seq<ComparedTransaction>, rightOnly: seq<ComparedTransaction>, totals: Totals)
    requires SortedTransactions(l) && SortedTransactions(r) && i < |l| && j <= |r|
    requires j < |r| ==> l[i].txid < r[j].txid
    requires JoinedUpTo(l, r, i, j, common, leftOnly, rightOnly, totals)
    ensures JoinedUpTo(
              l, r, i + 1, j, common, leftOnly + [OnlyLeft(l[i])], rightOnly,
              totals.(leftOnlyVsize := totals.leftOnlyVsize + l[i].vsize))
  {
    hide Joined, VsizeOf, VsizeOn;
    FrontierNext(l, r, i, j, 1, 0);
    JoinLeft(l[..i], r[..j], common, leftOnly, rightOnly, l[i]);
    TakeOne(l, i);
    VsizeMore(l[..i], l[i]);
    VsizeOnMore(leftOnly, OnlyLeft(l[i]), Left);
  }

  lemma PushRight(
    l: seq<MempoolTransaction>, r: seq<MempoolTransaction>, i: nat, j: nat, common: seq<ComparedTransaction>,
    leftOnly: seq<ComparedTransaction>, rightOnly: seq<ComparedTransaction>, totals: Totals)
    requires SortedTransactions(l) && SortedTransactions(r) && i <= |l| && j < |r|
    requires i < |l| ==> r[j].txid < l[i].txid
    requires JoinedUpTo(l, r, i, j, common, leftOnly, rightOnly, totals)
    ensures JoinedUpTo(
              l, r, i, j + 1, common, leftOnly, rightOnly + [OnlyRight(r[j])],
              totals.(rightOnlyVsize := totals.rightOnlyVsize + r[j].vsize))
  {
    hide Joined, VsizeOf, VsizeOn;
    FrontierNext(l, r, i, j, 0, 1);
    JoinRight(l[..i], r[..j], common, leftOnly, rightOnly, r[j]);
    TakeOne(r, j);
    VsizeMore(r[..j], r[j]);
    VsizeOnMore(rightOnly, OnlyRight(r[j]), Right);
  }

  /** Each transaction of the union is in exactly one region. */
  lemma ExactlyOneRegion(c: Comparison, txid: Txid)
    requires Joined(c.left.transactions, c.right.transactions, c.common, c.leftOnly, c.rightOnly)
    ensures Lists(c.common, txid) <==> Has(c.left.transactions, txid) && Has(c.right.transactions, txid)
    ensures Lists(c.leftOnly, txid) <==> Has(c.left.transactions, txid) && !Has(c.right.transactions, txid)
    ensures Lists(c.rightOnly, txid) <==> !Has(c.left.transactions, txid) && Has(c.right.transactions, txid)
  {
    if e :| e in c.common && e.txid == txid {
      var l, r :| l in c.left.transactions && r in c.right.transactions && l.txid == r.txid && e == Paired(l, r);
    }
    if Has(c.left.transactions, txid) && Has(c.right.transactions, txid) {
      var l :| l in c.left.transactions && l.txid == txid;
      var r :| r in c.right.transactions && r.txid == txid;
      assert Paired(l, r) in c.common;
    }
    if l :| l in c.left.transactions && l.txid == txid && !Has(c.right.transactions, txid) {
      assert OnlyLeft(l) in c.leftOnly;
    }
    if r :| r in c.right.transactions && r.txid == txid && !Has(c.left.transactions, txid) {
      assert OnlyRight(r) in c.rightOnly;
    }
  }

  // --- lookup ---------------------------------------------------------------------------

  method FindComparedTransaction(entries: seq<ComparedTransaction>, txid: Txid) returns (index: Option<nat>)
    requires SortedEntries(entries)
    ensures index.Some? <==> Lists(entries, txid)
    ensures index.Some? ==> index.value < |entries| && entries[index.value].txid == txid
  {
    var low, high := 0, |entries|;
    while low < high
      invariant low <= high <= |entries|
      invariant forall k :: 0 <= k < low ==> entries[k].txid < txid
      invariant forall k :: high <= k < |entries| ==> txid <= entries[k].txid
    {
      var middle := low + (high - low) / 2;
      if entries[middle].txid < txid {
        low := middle + 1;
      } else {
        high := middle;
      }
    }
    if low < |entries| && entries[low].txid == txid {
      return Some(low);
    }
    return None;
  }

  datatype Place = Place(region: Region, index: nat, entry: ComparedTransaction)

  /** Finds a transaction exactly when it is in either snapshot, in the one region
      and at the one index where it is listed. */
  method LookupComparisonTransaction(c: Comparison, txid: Txid) returns (found: Option<Place>)
    requires Joined(c.left.transactions, c.right.transactions, c.common, c.leftOnly, c.rightOnly)
    ensures found.Some? <==> Has(c.left.transactions, txid) || Has(c.right.transactions, txid)
    ensures found.Some? ==>
              var f := found.value;
              && f.index < |c.Entries(f.region)| && c.Entries(f.region)[f.index] == f.entry && f.entry.txid == txid
              && forall region, k :: 0 <= k < |c.Entries(region)| && c.Entries(region)[k].txid == txid ==>
                   region == f.region && k == f.index
  {
    ExactlyOneRegion(c, txid);
    var regions := [Common, LeftOnly, RightOnly];
    for i := 0 to |regions|
      invariant forall j :: 0 <= j < i ==> !Lists(c.Entries(regions[j]), txid)
    {
      var region := regions[i];
      var index := FindComparedTransaction(c.Entries(region), txid);
      if index.Some? {
        OnlyThere(c, txid, region, index.value);
        return Some(Place(region, index.value, c.Entries(region)[index.value]));
      }
    }
    assert !Lists(c.Entries(regions[0]), txid) && !Lists(c.Entries(regions[1]), txid) && !Lists(c.Entries(regions[2]), txid);
    return None;
  }

  lemma OnlyThere(c: Comparison, txid: Txid, region: Region, index: nat)
    requires Joined(c.left.transactions, c.right.transactions, c.common, c.leftOnly, c.rightOnly)
    requires index < |c.Entries(region)| && c.Entries(region)[index].txid == txid
    ensures forall other, k :: 0 <= k < |c.Entries(other)| && c.Entries(other)[k].txid == txid ==>
              other == region && k == index
  {
    ExactlyOneRegion(c, txid);
    forall other, k | 0 <= k < |c.Entries(other)| && c.Entries(other)[k].txid == txid
      ensures other == region && k == index
    {
      assert Lists(c.Entries(other), txid) && Lists(c.Entries(region), txid);
      assert SortedEntries(c.Entries(region));
    }
  }
}
