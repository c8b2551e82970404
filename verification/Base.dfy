/** Values shared by the classification pipeline: identifiers, scripts, size
    estimates and RPC outcomes, and finite sums over maps. */
module Base {

  datatype Option<+T> = None | Some(value: T)

  // Transaction and witness identifiers are opaque hashes: only equality matters.
  type Txid = nat
  type Wtxid = nat

  datatype OutPoint = OutPoint(txid: Txid, vout: nat)

  // The previous output of a coinbase input.
  const NULL_OUTPOINT: OutPoint := OutPoint(0, 0xFFFF_FFFF)

  newtype Byte = b: int | 0 <= b < 256
  type Script = seq<Byte>

  const U64_MAX: nat := 0xFFFF_FFFF_FFFF_FFFF
  const ESTIMATED_JSON_BYTES_PER_RESPONSE: nat := 512
  const MAX_CONFIRMED_SCRIPT_HEX_CHARACTERS: nat := 64 * 1024
  const ESTIMATED_GETTXOUT_RESPONSE_BYTES: nat :=
    MAX_CONFIRMED_SCRIPT_HEX_CHARACTERS + ESTIMATED_JSON_BYTES_PER_RESPONSE
  const MAX_AUXILIARY_CACHE_BYTES: nat := 512 * 1024 * 1024
  const MAX_RAW_RESPONSE_BYTES_PER_SLICE: nat := 256 * 1024 * 1024
  const MAX_FACT_ATTEMPTS_PER_SOURCE_PER_WINDOW: nat := 2

  function EstimatedScriptBytes(script: Script): nat {
    |script| + ESTIMATED_JSON_BYTES_PER_RESPONSE
  }

  // usize::saturating_sub
  function SaturatingSub(a: nat, b: nat): nat {
    if a >= b then a - b else 0
  }

  datatype Transaction = Transaction(txid: Txid, wtxid: Wtxid, inputs: seq<OutPoint>, outputs: seq<Script>) {
    predicate IsCoinbase() {
      |inputs| == 1 && inputs[0] == NULL_OUTPOINT
    }

    // Only a coinbase spends the null outpoint.
    predicate WellFormed() {
      NULL_OUTPOINT in inputs ==> IsCoinbase()
    }
  }

  datatype ExpectedVariant = ExpectedVariant(txid: Txid, wtxid: Wtxid, vsize: nat)

  function EstimatedRawResponseBytes(expected: ExpectedVariant): nat {
    expected.vsize * 8 + ESTIMATED_JSON_BYTES_PER_RESPONSE
  }

  datatype CachedOutputs = CachedOutputs(wtxid: Wtxid, scripts: seq<Script>, estimatedBytes: nat) {
    function ScriptAt(vout: nat): Option<Script> {
      if vout < |scripts| then Some(scripts[vout]) else None
    }
  }

  datatype RpcValue<+T> = Found(value: T) | ExplicitNull | RetryableFailure | SystemicFailure

  /** The outcome of one concurrent fetch. `systemic` records a failed batch, a
      systemic response or an all-missing batch: the failures that pause a
      generation. */
  datatype Fetch<+K, +V> = Fetch(values: seq<(K, RpcValue<V>)>, systemic: bool)

  ghost predicate NoDuplicates<T>(s: seq<T>) {
    forall i, j :: 0 <= i < j < |s| ==> s[i] != s[j]
  }

  ghost function Elements<T>(s: seq<T>): set<T> {
    set x | x in s
  }

  lemma AppendNoDuplicates<T>(s: seq<T>, x: T)
    requires NoDuplicates(s) && x !in s
    ensures NoDuplicates(s + [x])
  {
  }

  lemma NoDuplicatesSize<T>(s: seq<T>)
    requires NoDuplicates(s)
    ensures |Elements(s)| == |s|
  {
    if s == [] {
      assert Elements(s) == {};
    } else {
      var front, last := s[..|s| - 1], s[|s| - 1];
      assert s == front + [last];
      NoDuplicatesSize(front);
      assert Elements(s) == Elements(front) + {last};
      assert last !in front;
    }
  }

  lemma SubsetSize<T>(a: set<T>, b: set<T>)
    requires a <= b
    ensures |a| <= |b|
  {
    assert b == a + (b - a);
  }

  // Every element of `s` except `x`, in order.
  function Without<T(==)>(s: seq<T>, x: T): seq<T> {
    if s == [] then [] else (if s[0] == x then [] else [s[0]]) + Without(s[1..], x)
  }

  lemma {:induction false} WithoutAt<T>(s: seq<T>, i: nat)
    requires NoDuplicates(s) && i < |s|
    ensures Without(s, s[i]) == s[..i] + s[i + 1..]
  {
    if i == 0 {
      WithoutAbsent(s[1..], s[0]);
    } else {
      assert s[1..][i - 1] == s[i];
      WithoutAt(s[1..], i - 1);
      assert s[..i] + s[i + 1..] == [s[0]] + (s[1..][..i - 1] + s[1..][i..]);
    }
  }

  lemma {:induction false} WithoutAbsent<T>(s: seq<T>, x: T)
    requires x !in s
    ensures Without(s, x) == s
  {
    if s != [] {
      WithoutAbsent(s[1..], x);
    }
  }

  // Every element of `s` that is in `keep`, in order (VecDeque::retain).
  function Retain<T(==)>(s: seq<T>, keep: set<T>): seq<T> {
    if s == [] then [] else (if s[0] in keep then [s[0]] else []) + Retain(s[1..], keep)
  }

  lemma {:induction false} RetainContents<T>(s: seq<T>, keep: set<T>)
    ensures forall x :: x in Retain(s, keep) <==> x in s && x in keep
    ensures NoDuplicates(s) ==> NoDuplicates(Retain(s, keep))
  {
    if s != [] {
      RetainContents(s[1..], keep);
      if NoDuplicates(s) {
        assert NoDuplicates(s[1..]);
        assert s[0] !in s[1..];
      }
    }
  }

  lemma {:induction false} RetainEverything<T>(s: seq<T>, keep: set<T>)
    requires forall x :: x in s ==> x in keep
    ensures Retain(s, keep) == s
  {
    if s != [] {
      RetainEverything(s[1..], keep);
    }
  }

  // The sum of `w` over the values of `m`.
  ghost function Sum<K, V>(m: map<K, V>, w: V -> nat): nat
    decreases |m|
  {
    if m == map[] then 0 else
      var k :| k in m;
      w(m[k]) + Sum(m - {k}, w)
  }

  lemma SumEmpty<K, V>(m: map<K, V>, w: V -> nat)
    requires m == map[]
    ensures Sum(m, w) == 0
  {
  }

  lemma {:induction false} SumRemove<K, V>(m: map<K, V>, k: K, w: V -> nat)
    requires k in m
    ensures Sum(m, w) == w(m[k]) + Sum(m - {k}, w)
    decreases |m|
  {
    var c :| c in m && Sum(m, w) == w(m[c]) + Sum(m - {c}, w);
    if c != k {
      SumRemove(m - {c}, k, w);
      SumRemove(m - {k}, c, w);
      assert m - {c} - {k} == m - {k} - {c};
    }
  }

  lemma SumInsert<K, V>(m: map<K, V>, k: K, v: V, w: V -> nat)
    ensures Sum(m[k := v], w) == w(v) + Sum(m - {k}, w)
    ensures k in m ==> Sum(m[k := v], w) + w(m[k]) == Sum(m, w) + w(v)
    ensures k !in m ==> Sum(m[k := v], w) == Sum(m, w) + w(v)
  {
    SumRemove(m[k := v], k, w);
    assert m[k := v] - {k} == m - {k};
    if k in m {
      SumRemove(m, k, w);
    } else {
      assert m - {k} == m;
    }
  }

  // A pointwise smaller map over fewer keys has a smaller sum.
  lemma {:induction false} SumMonotone<K, V>(small: map<K, V>, large: map<K, V>, w: V -> nat)
    requires forall k :: k in small ==> k in large && w(small[k]) <= w(large[k])
    ensures Sum(small, w) <= Sum(large, w)
    decreases |small|
  {
    if small != map[] {
      var k :| k in small;
      SumRemove(small, k, w);
      SumRemove(large, k, w);
      SumMonotone(small - {k}, large - {k}, w);
    }
  }

  // Entries of weight zero add nothing.
  lemma {:induction false} SumExtend<K, V>(small: map<K, V>, large: map<K, V>, w: V -> nat)
    requires forall k :: k in small ==> k in large && large[k] == small[k]
    requires forall k :: k in large && k !in small ==> w(large[k]) == 0
    ensures Sum(large, w) == Sum(small, w)
    decreases |large|
  {
    hide Sum;
    if large == map[] {
      assert small == map[];
    } else {
      var k :| k in large;
      SumRemove(large, k, w);
      if k in small {
        SumRemove(small, k, w);
        SumExtend(small - {k}, large - {k}, w);
      } else {
        SumExtend(small, large - {k}, w);
      }
    }
  }

  // `m` splits into the entries of `a` and those of `b`.
  ghost predicate Splits<K, V>(m: map<K, V>, a: map<K, V>, b: map<K, V>) {
    && (forall k :: k in m ==> (k in a) != (k in b))
    && (forall k :: k in a ==> k in m && a[k] == m[k])
    && (forall k :: k in b ==> k in m && b[k] == m[k])
  }

  lemma {:induction false} SumSplit<K, V>(m: map<K, V>, a: map<K, V>, b: map<K, V>, w: V -> nat)
    requires Splits(m, a, b)
    ensures Sum(m, w) == Sum(a, w) + Sum(b, w)
    decreases |m|
  {
    hide Sum;
    if m == map[] {
      SumEmpty(m, w);
      SumEmpty(a, w);
      SumEmpty(b, w);
    } else {
      var k :| k in m;
      SumRemove(m, k, w);
      if k in a {
        SumRemove(a, k, w);
        SumSplit(m - {k}, a - {k}, b, w);
      } else {
        SumRemove(b, k, w);
        SumSplit(m - {k}, a, b - {k}, w);
      }
    }
  }

  lemma SumStrict<K, V>(small: map<K, V>, large: map<K, V>, w: V -> nat, k: K)
    requires forall k :: k in small ==> k in large && w(small[k]) <= w(large[k])
    requires k in large && (k in small ==> w(small[k]) < w(large[k])) && 0 < w(large[k])
    ensures Sum(small, w) < Sum(large, w)
  {
    hide Sum;
    SumRemove(large, k, w);
    SumMonotone(small - {k}, large - {k}, w);
    if k in small {
      SumRemove(small, k, w);
    } else {
      assert small - {k} == small;
    }
  }

  // Positive summands: the sum bounds the number of keys.
  lemma {:induction false} SumCounts<K, V>(m: map<K, V>, w: V -> nat)
    requires forall k :: k in m ==> w(m[k]) >= 1
    ensures Sum(m, w) >= |m|
    decreases |m|
  {
    if m != map[] {
      var k :| k in m;
      SumRemove(m, k, w);
      SumCounts(m - {k}, w);
      assert (m - {k}).Keys == m.Keys - {k};
    }
  }
}
