/**
 * Integer helpers of SampleFramework12's math header and source: Min, Max, Clamp, Saturate,
 * Swap, Fisher-Yates Shuffle, the integer vector types and their equality operators, and the
 * Random generator (a 32-bit LCG, a xorshift and a multiply-with-carry stream added together).
 */
module SF12Math {
  import opened Ints
  import Arith

  // ---------------------------------------------------------------------------------------
  // Min / Max / Clamp / Saturate

  /** `a < b ? a : b`. */
  function Min(a: int, b: int): (r: int)
    ensures r <= a && r <= b
    ensures r == a || r == b
  {
    if a < b then a else b
  }

  /** `a < b ? b : a`. */
  function Max(a: int, b: int): (r: int)
    ensures r >= a && r >= b
    ensures r == a || r == b
  {
    if a < b then b else a
  }

  /** Clamps `val` into [lo, hi]; the source asserts hi >= lo. */
  function Clamp(val: int, lo: int, hi: int): (r: int)
    requires hi >= lo
    ensures lo <= r <= hi
    ensures lo <= val <= hi ==> r == val
    ensures val < lo ==> r == lo
    ensures val > hi ==> r == hi
  {
    if val < lo then lo else if val > hi then hi else val
  }

  /** Clamp to [0, 1]. */
  function Saturate(val: int): (r: int)
    ensures r == 0 || r == 1 || r == val
    ensures 0 <= r <= 1
    ensures 0 <= val <= 1 ==> r == val
  {
    Clamp(val, 0, 1)
  }

  /** Clamping is the identity on values already inside the range and is idempotent. */
  lemma ClampIdempotent(val: int, lo: int, hi: int)
    requires hi >= lo
    ensures Clamp(Clamp(val, lo, hi), lo, hi) == Clamp(val, lo, hi)
    ensures Clamp(val, lo, hi) == Min(Max(val, lo), hi)
  {
  }

  // ---------------------------------------------------------------------------------------
  // Swap and Shuffle

  /** The two elements at i and j exchanged. */
  function Swapped<T>(s: seq<T>, i: nat, j: nat): (r: seq<T>)
    requires i < |s| && j < |s|
    ensures |r| == |s|
    ensures r[i] == s[j] && r[j] == s[i]
    ensures forall k :: 0 <= k < |s| && k != i && k != j ==> r[k] == s[k]
    ensures multiset(r) == multiset(s)
  {
    s[i := s[j]][j := s[i]]
  }

  /** `Swap(values[i], values[j])`, applied to two elements of one array as Shuffle uses it. */
  method Swap<T>(a: array<T>, i: nat, j: nat)
    requires i < a.Length && j < a.Length
    modifies a
    ensures a[..] == Swapped(old(a[..]), i, j)
  {
    var tmp := a[i];
    a[i] := a[j];
    a[j] := tmp;
  }

  /** The partner Shuffle picks for position i: `i + draw % (count - i)`, always in [i, count). */
  function PartnerIndex(draw: u32, i: nat, count: nat): (r: nat)
    requires i < count
    ensures i <= r < count
  {
    i + draw % (count - i)
  }

  /** The partners chosen by a run of Shuffle over `count` elements, one per drawn value. */
  function Partners(draws: seq<u32>): (r: seq<nat>)
    ensures ValidPartners(r, |draws|)
  {
    seq(|draws|, k requires 0 <= k < |draws| => PartnerIndex(draws[k], k, |draws|))
  }

  /** Position k is swapped with a position in [k, n). */
  predicate ValidPartners(partners: seq<nat>, n: nat)
  {
    |partners| == n && forall k :: 0 <= k < n ==> k <= partners[k] < n
  }

  /** The Fisher-Yates loop from position i on: step k swaps element k with element partners[k]. */
  ghost function ShuffledFrom<T>(s: seq<T>, i: nat, partners: seq<nat>): seq<T>
    requires i <= |s| && ValidPartners(partners, |s|)
    decreases |s| - i
  {
    if i == |s| then s
    else ShuffledFrom(Swapped(s, i, partners[i]), i + 1, partners)
  }

  /** Whatever the partners, shuffling only permutes: same length, same multiset. */
  lemma {:induction false} ShuffledIsPermutation<T>(s: seq<T>, i: nat, partners: seq<nat>)
    requires i <= |s| && ValidPartners(partners, |s|)
    ensures |ShuffledFrom(s, i, partners)| == |s|
    ensures multiset(ShuffledFrom(s, i, partners)) == multiset(s)
    decreases |s| - i
  {
    if i < |s| {
      var j := partners[i];
      assert i <= j < |s|;
      var t := Swapped(s, i, j);
      assert |t| == |s| && multiset(t) == multiset(s);
      ShuffledIsPermutation(t, i + 1, partners);
    }
  }

  /** The pointer-and-count overload of Shuffle (the vector overload runs the same loop). */
  method Shuffle<T>(values: array<T>, rng: Random)
    modifies values, rng
    ensures values[..] == ShuffledFrom(old(values[..]), 0, Partners(Draws(old(rng.State()), values.Length)))
    ensures multiset(values[..]) == multiset(old(values[..]))
    ensures rng.State() == Rolled(old(rng.State()), values.Length)
  {
    ghost var s0, st0 := values[..], rng.State();
    var count := values.Length;
    ghost var partners := Partners(Draws(st0, count));
    var i := 0;
    while i < count
      invariant 0 <= i <= count
      invariant ShuffledFrom(values[..], i, partners) == ShuffledFrom(s0, 0, partners)
      invariant rng.State() == Rolled(st0, i)
    {
      DrawsAt(st0, count, i);
      RolledStep(st0, i);
      var draw := rng.RandomUint();
      var other := PartnerIndex(draw, i, count);
      Swap(values, i, other);
      i := i + 1;
    }
    ShuffledIsPermutation(s0, 0, partners);
  }

  // ---------------------------------------------------------------------------------------
  // Integer vectors and their equality operators


  datatype Uint2 = Uint2(x: u32, y: u32)
  {
    /** operator== : componentwise. */
    predicate Equals(o: Uint2)
      ensures Equals(o) <==> this == o
    {
      x == o.x && y == o.y
    }

    /** operator!= : a disjunction of component inequalities. */
    predicate NotEquals(o: Uint2)
      ensures NotEquals(o) <==> !Equals(o)
    {
      x != o.x || y != o.y
    }
  }

  datatype Uint3 = Uint3(x: u32, y: u32, z: u32)
  {
    predicate Equals(o: Uint3)
      ensures Equals(o) <==> this == o
    {
      x == o.x && y == o.y && z == o.z
    }

    predicate NotEquals(o: Uint3)
      ensures NotEquals(o) <==> !Equals(o)
    {
      x != o.x || y != o.y || z != o.z
    }
  }

  datatype Uint4 = Uint4(x: u32, y: u32, z: u32, w: u32)
  {
    predicate Equals(o: Uint4)
      ensures Equals(o) <==> this == o
    {
      x == o.x && y == o.y && z == o.z && w == o.w
    }

    predicate NotEquals(o: Uint4)
      ensures NotEquals(o) <==> !Equals(o)
    {
      x != o.x || y != o.y || z != o.z || w != o.w
    }
  }

  datatype Int2 = Int2(x: i32, y: i32)
  {
    predicate Equals(o: Int2)
      ensures Equals(o) <==> this == o
    {
      x == o.x && y == o.y
    }

    predicate NotEquals(o: Int2)
      ensures NotEquals(o) <==> !Equals(o)
    {
      x != o.x || y != o.y
    }
  }

  // ---------------------------------------------------------------------------------------
  // Random

  /** The multiplier of the multiply-with-carry stream. */
  const MWC_MUL: int := 4294584393

  /** The four generator words; y, which only takes part in shifts and xors, is kept as bits. */
  datatype RngState = RngState(x: u32, y: bv32, z: u32, c: u32)

  /** The state a default-constructed generator starts in. */
  const InitialState := RngState(123456789, 987654321, 43219876, 6543217)

  /** The xorshift step on y: `<<5`, `>>7`, `<<22`, in that order, on 32 bits. */
  function XorShift(b0: bv32): bv32
  {
    var b1 := b0 ^ (b0 << 5);
    var b2 := b1 ^ (b1 >> 7);
    b2 ^ (b2 << 22)
  }

  /** The multiply-with-carry step's new carry fits in 32 bits. */
  lemma CarryBound(z: u32, c: u32)
    ensures (MWC_MUL * z + c) / TWO_32 < TWO_32
  {
    assert MWC_MUL * z + c < TWO_32 * TWO_32;
    Arith.DivBelow(MWC_MUL * z + c, TWO_32, TWO_32);
  }

  /** The linear congruential step on x, on 32 bits. */
  function LcgStep(x: u32): u32
  {
    (314527869 * x + 1234567) % TWO_32
  }

  /** The multiply-with-carry step: the low word becomes z, the high word the new carry. */
  function MwcStep(z: u32, c: u32): (u32, u32)
  {
    var t := MWC_MUL * z + c;
    CarryBound(z, c);
    (t % TWO_32, t / TWO_32)
  }

  /** The value drawn: the 32-bit sum of the three streams. */
  function Combine(x: u32, y: bv32, z: u32): u32
  {
    (x + y as int + z) % TWO_32
  }

  /** One RandomUint call: the value it returns and the state it leaves. */
  function Step(s: RngState): (u32, RngState)
  {
    var x := LcgStep(s.x);
    var y := XorShift(s.y);
    var zc := MwcStep(s.z, s.c);
    (Combine(x, y, zc.0), RngState(x, y, zc.0, zc.1))
  }

  /** The state after n successive RandomUint calls. */
  function Rolled(s: RngState, n: nat): RngState
    decreases n
  {
    if n == 0 then s else Rolled(Step(s).1, n - 1)
  }

  lemma {:induction false} RolledStep(s: RngState, n: nat)
    ensures Rolled(s, n + 1) == Step(Rolled(s, n)).1
    decreases n
  {
    if n > 0 {
      RolledStep(Step(s).1, n - 1);
    }
  }

  /** The n values that n successive RandomUint calls return. */
  function Draws(s: RngState, n: nat): (r: seq<u32>)
    ensures |r| == n
    decreases n
  {
    if n == 0 then [] else [Step(s).0] + Draws(Step(s).1, n - 1)
  }

  lemma {:induction false} DrawsAt(s: RngState, n: nat, i: nat)
    requires i < n
    ensures Draws(s, n)[i] == Step(Rolled(s, i)).0
    decreases n
  {
    var next := Step(s).1;
    assert Draws(s, n) == [Step(s).0] + Draws(next, n - 1);
    if i > 0 {
      DrawsAt(next, n - 1, i - 1);
      assert Rolled(s, i) == Rolled(next, i - 1);
    }
  }

  /**
   * A generator state the algorithm can run from: the xorshift word is non-zero (zero is its
   * fixed point) and the carry is below the multiplier, so that 4294584393 * z + c fits in
   * 64 bits and the next carry is again below the multiplier.
   */
  predicate WellSeeded(s: RngState)
  {
    s.y != 0 && s.c < MWC_MUL
  }

  lemma LeftShiftXorKeepsNonZero(b: bv32, k: bv32)
    requires 0 < k < 32
    ensures b != 0 ==> b ^ (b << k) != 0
  {
  }

  lemma RightShiftXorKeepsNonZero(b: bv32)
    ensures b != 0 ==> b ^ (b >> 7) != 0
  {
  }

  /** Zero is the only fixed point of the xorshift: a non-zero word never becomes zero. */
  lemma XorShiftKeepsNonZero(b0: bv32)
    ensures XorShift(b0) != 0 <==> b0 != 0
  {
    var b1 := b0 ^ (b0 << 5);
    var b2 := b1 ^ (b1 >> 7);
    LeftShiftXorKeepsNonZero(b0, 5);
    RightShiftXorKeepsNonZero(b1);
    LeftShiftXorKeepsNonZero(b2, 22);
  }

  /** The 64-bit product never wraps and RandomUint keeps the generator well seeded. */
  lemma StepKeepsWellSeeded(s: RngState)
    requires WellSeeded(s)
    ensures MWC_MUL * s.z + s.c < TWO_64
    ensures WellSeeded(Step(s).1)
  {
    XorShiftKeepsNonZero(s.y);
    assert MWC_MUL * s.z + s.c < MWC_MUL * TWO_32;
  }

  lemma {:induction false} RolledKeepsWellSeeded(s: RngState, n: nat)
    requires WellSeeded(s)
    ensures WellSeeded(Rolled(s, n))
    decreases n
  {
    if n > 0 {
      StepKeepsWellSeeded(s);
      RolledKeepsWellSeeded(Step(s).1, n - 1);
    }
  }

  lemma NonZeroBits(d: u32)
    requires d != 0
    ensures d as bv32 != 0
  {
  }

  lemma InitialStateWellSeeded()
    ensures WellSeeded(InitialState)
  {
  }

  /** The generator object: four 32-bit words updated in place by every draw. */
  class Random {
    var x: u32
    var y: bv32
    var z: u32
    var c: u32

    function State(): RngState
      reads this
    {
      RngState(x, y, z, c)
    }

    constructor ()
      ensures State() == InitialState
    {
      x, y, z, c := 123456789, 987654321, 43219876, 6543217;
    }

    /** RandomUint: advances all four words and returns their wrapped sum. */
    method RandomUint() returns (r: u32)
      modifies this
      ensures (r, State()) == Step(old(State()))
    {
      x := LcgStep(x);
      y := XorShift(y);
      var zc := MwcStep(z, c);
      z, c := zc.0, zc.1;
      r := Combine(x, y, z);
    }

    /** Roll(n): n draws whose values are discarded. */
    method Roll(numRolls: u32)
      modifies this
      ensures State() == Rolled(old(State()), numRolls)
    {
      var i := 0;
      while i < numRolls
        invariant 0 <= i <= numRolls
        invariant State() == Rolled(old(State()), i)
      {
        RolledStep(old(State()), i);
        var _ := RandomUint();
        i := i + 1;
      }
    }

    /**
     * SeedWithRandomValue, with the values of the random device given as `device`: x, then y
     * re-drawn until non-zero, then z, then c reduced into [1, 698769068].
     */
    method SeedWithRandomValue(device: seq<u32>)
      requires exists k :: 1 <= k < |device| - 2 && device[k] != 0
      modifies this
      ensures WellSeeded(State())
      ensures x == device[0] && y != 0 && 1 <= c <= 698769068
      ensures exists k :: 1 <= k < |device| - 2 && device[k] != 0 && (forall j :: 1 <= j < k ==> device[j] == 0) &&
                          y == device[k] as bv32 && z == device[k + 1] && c == device[k + 2] % 698769068 + 1
    {
      x := device[0];
      var next := 1;
      var drawn := device[next];
      next := next + 1;
      while drawn == 0
        invariant 2 <= next <= |device| - 1
        invariant drawn == device[next - 1]
        invariant forall k :: 1 <= k < next - 1 ==> device[k] == 0
        decreases |device| - next
      {
        drawn := device[next];
        next := next + 1;
      }
      NonZeroBits(drawn);
      y := drawn as bv32;
      z := device[next];
      c := device[next + 1] % 698769068 + 1;
    }
  }
}
