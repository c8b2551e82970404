/** The ARC4 stream cipher that the classifier lenses use to read obfuscated
    payloads. */
module Arc4 {
  import opened Base

  // Addition that wraps around.
  function Plus(a: Byte, b: Byte): (sum: Byte)
    ensures sum as int == (if a as int + b as int < 256 then a as int + b as int else a as int + b as int - 256)
  {
    ((a as int + b as int) % 256) as Byte
  }

  // Exclusive or of the lowest `bits` binary digits.
  function XorBits(a: nat, b: nat, bits: nat): nat {
    if bits == 0 then 0 else (if a % 2 == b % 2 then 0 else 1) + 2 * XorBits(a / 2, b / 2, bits - 1)
  }

  function PowerOfTwo(n: nat): nat {
    if n == 0 then 1 else 2 * PowerOfTwo(n - 1)
  }

  // The binary digit of weight two to the `k`.
  ghost function Bit(n: nat, k: nat): nat {
    if k == 0 then n % 2 else Bit(n / 2, k - 1)
  }

  /** Each digit of the exclusive or says whether the two digits differ. */
  lemma {:induction false} XorBit(a: nat, b: nat, bits: nat, k: nat)
    requires k < bits
    ensures Bit(XorBits(a, b, bits), k) == (if Bit(a, k) == Bit(b, k) then 0 else 1)
  {
    Halves(if a % 2 == b % 2 then 0 else 1, XorBits(a / 2, b / 2, bits - 1));
    if k > 0 {
      XorBit(a / 2, b / 2, bits - 1, k - 1);
    }
  }

  lemma {:induction false} XorBounded(a: nat, b: nat, bits: nat)
    ensures XorBits(a, b, bits) < PowerOfTwo(bits)
  {
    if bits > 0 {
      XorBounded(a / 2, b / 2, bits - 1);
    }
  }

  lemma Halves(low: nat, high: nat)
    requires low < 2
    ensures (low + 2 * high) % 2 == low && (low + 2 * high) / 2 == high
  {
  }

  lemma {:induction false} XorBitsTwice(a: nat, b: nat, bits: nat)
    requires a < PowerOfTwo(bits)
    ensures XorBits(XorBits(a, b, bits), b, bits) == a
  {
    if bits > 0 {
      var high := XorBits(a / 2, b / 2, bits - 1);
      XorBitsTwice(a / 2, b / 2, bits - 1);
      Halves(if a % 2 == b % 2 then 0 else 1, high);
    }
  }

  function Xor(a: Byte, b: Byte): Byte {
    XorBounded(a as int, b as int, 8);
    EightBits();
    XorBits(a as int, b as int, 8) as Byte
  }

  lemma EightBits()
    ensures PowerOfTwo(8) == 256
  {
    assert PowerOfTwo(4) == 16;
    assert PowerOfTwo(6) == 64;
  }

  lemma XorDigits(a: Byte, b: Byte, k: nat)
    requires k < 8
    ensures Bit(Xor(a, b) as int, k) == (if Bit(a as int, k) == Bit(b as int, k) then 0 else 1)
  {
    XorBit(a as int, b as int, 8, k);
  }

  lemma XorTwice(a: Byte, b: Byte)
    ensures Xor(Xor(a, b), b) == a
  {
    EightBits();
    XorBitsTwice(a as int, b as int, 8);
  }

  function Swap(s: seq<Byte>, i: nat, j: nat): (r: seq<Byte>)
    requires i < |s| && j < |s|
    ensures |r| == |s| && multiset(r) == multiset(s)
  {
    s[i := s[j]][j := s[i]]
  }

  // A state of the cipher: each byte value once.
  ghost predicate IsState(s: seq<Byte>) {
    |s| == 256 && NoDuplicates(s)
  }

  lemma SwapState(s: seq<Byte>, i: nat, j: nat)
    requires IsState(s) && i < 256 && j < 256
    ensures IsState(Swap(s, i, j))
  {
  }

  function BytesBelow(n: nat): (bytes: set<Byte>)
    requires n <= 256
    ensures |bytes| == n && forall b: Byte :: b in bytes <==> b as int < n
  {
    if n == 0 then {} else BytesBelow(n - 1) + {(n - 1) as Byte}
  }

  /** A state is a permutation of all byte values. */
  lemma StateHoldsEveryByte(s: seq<Byte>, b: Byte)
    requires IsState(s)
    ensures b in s
  {
    NoDuplicatesSize(s);
    if b !in s {
      SubsetSize(Elements(s), BytesBelow(256) - {b});
    }
  }

  function Identity(): (s: seq<Byte>) {
    seq(256, i requires 0 <= i < 256 => i as Byte)
  }

  // Key setup after `n` swaps.
  datatype Setup = Setup(state: seq<Byte>, swapIndex: Byte)

  function KeySetup(key: seq<Byte>, n: nat): (r: Setup)
    requires key != [] && n <= 256
    ensures IsState(r.state)
  {
    if n == 0 then Setup(Identity(), 0)
    else
      var before := KeySetup(key, n - 1);
      var swapIndex := Plus(Plus(before.swapIndex, before.state[n - 1]), key[(n - 1) % |key|]);
      SwapState(before.state, n - 1, swapIndex as int);
      Setup(Swap(before.state, n - 1, swapIndex as int), swapIndex)
  }

  // The generator after `n` output bytes.
  datatype Generator = Generator(state: seq<Byte>, i: Byte, j: Byte)

  function Generate(key: seq<Byte>, n: nat): (r: Generator)
    requires key != []
    ensures IsState(r.state)
  {
    if n == 0 then Generator(KeySetup(key, 256).state, 0, 0)
    else
      var before := Generate(key, n - 1);
      var i := Plus(before.i, 1);
      var j := Plus(before.j, before.state[i as int]);
      SwapState(before.state, i as int, j as int);
      Generator(Swap(before.state, i as int, j as int), i, j)
  }

  // The byte of the keystream at a position: it depends on the key and the position only.
  function Keystream(key: seq<Byte>, position: nat): Byte
    requires key != []
  {
    var g := Generate(key, position + 1);
    g.state[Plus(g.state[g.i as int], g.state[g.j as int]) as int]
  }

  ghost predicate IsApplied(key: seq<Byte>, data: seq<Byte>, output: seq<Byte>) {
    && |output| == |data|
    && (key == [] ==> output == data)
    && (key != [] ==> forall k :: 0 <= k < |data| ==> output[k] == Xor(data[k], Keystream(key, k)))
  }

  /** Applies the keystream to the data; an empty key leaves the data as it is. */
  method Apply(key: seq<Byte>, data: seq<Byte>) returns (output: seq<Byte>)
    ensures IsApplied(key, data, output)
  {
    hide Generate, KeySetup, Xor, Keystream;
    if key == [] {
      return data;
    }
    var state := SetUp(key);
    output := [];
    var i: Byte, j: Byte := 0, 0;
    GenerateStart(key);
    for k := 0 to |data|
      invariant state[..] == Generate(key, k).state && i == Generate(key, k).i && j == Generate(key, k).j
      invariant |output| == k && forall p :: 0 <= p < k ==> output[p] == Xor(data[p], Keystream(key, p))
    {
      GenerateNext(key, k);
      ghost var before := state[..];
      i := Plus(i, 1);
      j := Plus(j, state[i as int]);
      state[i as int], state[j as int] := state[j as int], state[i as int];
      assert state[..] == Swap(before, i as int, j as int);
      var keystream := state[Plus(state[i as int], state[j as int]) as int];
      output := output + [Xor(data[k], keystream)];
    }
  }

  method SetUp(key: seq<Byte>) returns (state: array<Byte>)
    requires key != []
    ensures fresh(state) && state.Length == 256 && state[..] == KeySetup(key, 256).state
  {
    hide KeySetup, Plus;
    SetupStart(key);
    state := new Byte[256](i requires 0 <= i < 256 => i as Byte);
    assert state[..] == Identity();
    var swapIndex: Byte := 0;
    for index := 0 to 256
      invariant state[..] == KeySetup(key, index).state && swapIndex == KeySetup(key, index).swapIndex
    {
      SetupNext(key, index);
      ghost var before := state[..];
      swapIndex := Plus(Plus(swapIndex, state[index]), key[index % |key|]);
      state[index], state[swapIndex as int] := state[swapIndex as int], state[index];
      assert state[..] == Swap(before, index, swapIndex as int);
    }
  }

  lemma SetupStart(key: seq<Byte>)
    requires key != []
    ensures KeySetup(key, 0) == Setup(Identity(), 0)
  {
  }

  lemma SetupNext(key: seq<Byte>, n: nat)
    requires key != [] && n < 256
    ensures var before, after := KeySetup(key, n), KeySetup(key, n + 1);
            && after.swapIndex == Plus(Plus(before.swapIndex, before.state[n]), key[n % |key|])
            && after.state == Swap(before.state, n, after.swapIndex as int)
  {
  }

  lemma GenerateStart(key: seq<Byte>)
    requires key != []
    ensures Generate(key, 0) == Generator(KeySetup(key, 256).state, 0, 0)
  {
    hide KeySetup;
  }

  lemma GenerateNext(key: seq<Byte>, n: nat)
    requires key != []
    ensures var before, after := Generate(key, n), Generate(key, n + 1);
            && after.i == Plus(before.i, 1) && after.j == Plus(before.j, before.state[after.i as int])
            && after.state == Swap(before.state, after.i as int, after.j as int)
            && Keystream(key, n) == after.state[Plus(after.state[after.i as int], after.state[after.j as int]) as int]
  {
    hide KeySetup;
  }

  /** Applying the cipher twice gives the data back, whatever the key. */
  lemma Involution(key: seq<Byte>, data: seq<Byte>, once: seq<Byte>, twice: seq<Byte>)
    requires IsApplied(key, data, once) && IsApplied(key, once, twice)
    ensures twice == data
  {
    hide Xor, Keystream;
    if key != [] {
      forall k | 0 <= k < |data| ensures twice[k] == data[k] {
        XorTwice(data[k], Keystream(key, k));
      }
    }
  }

  /** A prefix of the data gives the prefix of the result. */
  lemma PrefixOfResult(key: seq<Byte>, data: seq<Byte>, n: nat, whole: seq<Byte>, part: seq<Byte>)
    requires n <= |data| && IsApplied(key, data, whole) && IsApplied(key, data[..n], part)
    ensures part == whole[..n]
  {
    hide Xor, Keystream;
    if key != [] {
      forall k | 0 <= k < n ensures part[k] == whole[k] {
        assert data[..n][k] == data[k];
      }
    }
  }
}
