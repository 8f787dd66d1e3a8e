/**
 * The index reordering that opens the radix-2 FFT of the note detector:
 * `reverseBits` and the swap loop that permutes the real and imaginary
 * arrays into bit-reversed order before the butterfly stages.
 */
module BitReversal {

  /** 2 to the power k. */
  function Pow2(k: nat): (p: nat)
    ensures p >= 1
  {
    if k == 0 then 1 else 2 * Pow2(k - 1)
  }

  /**
   * The number whose `bits` low bits are those of `x` in reverse order:
   * bit i of `x` (for i < bits) lands at position bits - 1 - i, and the
   * bits of `x` above position bits - 1 are dropped.
   */
  function Reverse(x: nat, bits: nat): (r: nat)
    ensures r < Pow2(bits)
  {
    if bits == 0 then 0
    else (if x % 2 == 1 then Pow2(bits - 1) else 0) + Reverse(x / 2, bits - 1)
  }

  /**
   * `reverseBits(x, bits)`: shifts the low bit of `x` into `y` `bits` times.
   * `(y << 1) | (x & 1)` is `2 * y + x % 2` (the shifted `y` has a zero low
   * bit) and `x >>>= 1` is `x / 2`.
   */
  method ReverseBits(x: nat, bits: nat) returns (y: nat)
    ensures y == Reverse(x, bits)
    ensures y < Pow2(bits)
  {
    y := 0;
    var v := x;
    var i := 0;
    while i < bits
      invariant 0 <= i <= bits
      invariant y * Pow2(bits - i) + Reverse(v, bits - i) == Reverse(x, bits)
    {
      ShiftInLowBit(y, v, bits - i);
      y := 2 * y + v % 2;
      v := v / 2;
      i := i + 1;
    }
  }

  /** One turn of `reverseBits`' loop keeps the reversed total unchanged. */
  lemma ShiftInLowBit(y: nat, v: nat, m: nat)
    requires m >= 1
    ensures (2 * y + v % 2) * Pow2(m - 1) + Reverse(v / 2, m - 1) == y * Pow2(m) + Reverse(v, m)
  {
    var p := Pow2(m - 1);
    assert Pow2(m) == 2 * p;
    calc {
      (2 * y + v % 2) * p;
      2 * y * p + (v % 2) * p;
      y * (2 * p) + (if v % 2 == 1 then p else 0);
    }
  }

  /** Halving and the low bit of 2q + m, for a bit m. */
  lemma HalveTwice(x: nat, q: nat, m: nat)
    requires m < 2 && x == 2 * q + m
    ensures x / 2 == q && x % 2 == m
  {
  }

  /** Reversing a value whose top bit is clear gives twice the reversal of the rest. */
  lemma {:induction false} ReverseTopZero(r: nat, bits: nat)
    requires bits >= 1 && r < Pow2(bits - 1)
    ensures Reverse(r, bits) == 2 * Reverse(r, bits - 1)
  {
    if bits > 1 {
      var p := Pow2(bits - 2);
      assert Pow2(bits - 1) == 2 * p;
      HalveTwice(r, r / 2, r % 2);
      ReverseTopZero(r / 2, bits - 1);
    }
  }

  /** Reversing a value whose top bit is set gives twice the reversal of the rest, plus one. */
  lemma {:induction false} ReverseTopOne(r: nat, bits: nat)
    requires bits >= 1 && r < Pow2(bits - 1)
    ensures Reverse(Pow2(bits - 1) + r, bits) == 2 * Reverse(r, bits - 1) + 1
  {
    if bits > 1 {
      var p := Pow2(bits - 2);
      assert Pow2(bits - 1) == 2 * p;
      HalveTwice(r, r / 2, r % 2);
      HalveTwice(2 * p + r, p + r / 2, r % 2);
      ReverseTopOne(r / 2, bits - 1);
    }
  }

  /** Bit reversal is an involution on [0, 2^bits). */
  lemma {:induction false} ReverseInvolutive(x: nat, bits: nat)
    requires x < Pow2(bits)
    ensures Reverse(Reverse(x, bits), bits) == x
  {
    if bits > 0 {
      ReverseInvolutive(x / 2, bits - 1);
      if x % 2 == 1 {
        ReverseTopOne(Reverse(x / 2, bits - 1), bits);
      } else {
        ReverseTopZero(Reverse(x / 2, bits - 1), bits);
      }
    }
  }

  /** The sequence whose element i is element Reverse(i) of `s`. */
  function BitReversed<T>(s: seq<T>, bits: nat): seq<T>
    requires |s| == Pow2(bits)
  {
    seq(|s|, i requires 0 <= i < |s| => s[Reverse(i, bits)])
  }

  /** Reordering twice restores the input. */
  lemma BitReversedTwice<T>(s: seq<T>, bits: nat)
    requires |s| == Pow2(bits)
    ensures BitReversed(BitReversed(s, bits), bits) == s
  {
    var t := BitReversed(BitReversed(s, bits), bits);
    forall i | 0 <= i < |s| ensures t[i] == s[i] {
      ReverseInvolutive(i, bits);
    }
  }

  /**
   * The state of one array after the reordering loop has handled indices
   * 0 .. i-1: every handled index holds its bit-reversed partner's original
   * element; an index not yet handled holds its partner's original element
   * if that partner was already handled (and swapped it there), and its own
   * original element otherwise.
   */
  ghost predicate ReorderedBelow(a: seq<real>, a0: seq<real>, i: nat, bits: nat)
    requires |a| == |a0| == Pow2(bits)
  {
    && (forall k :: 0 <= k < i && k < |a| ==> a[k] == a0[Reverse(k, bits)])
    && (forall k :: i <= k < |a| ==>
          a[k] == (if Reverse(k, bits) < i then a0[Reverse(k, bits)] else a0[k]))
  }

  /** One turn of the loop: swap i with its partner j when j > i. */
  lemma ReorderStep(a: seq<real>, a0: seq<real>, i: nat, bits: nat)
    requires |a| == |a0| == Pow2(bits) && i < |a|
    requires ReorderedBelow(a, a0, i, bits)
    ensures var j := Reverse(i, bits);
      ReorderedBelow(if j > i then a[i := a[j]][j := a[i]] else a, a0, i + 1, bits)
  {
    var j := Reverse(i, bits);
    ReverseInvolutive(i, bits);
    forall k | i < k < |a| && Reverse(k, bits) == i
      ensures k == j
    {
      ReverseInvolutive(k, bits);
    }
  }

  /** Once every index is handled, the array is the bit-reversed original. */
  lemma ReorderedAll(a: seq<real>, a0: seq<real>, bits: nat)
    requires |a| == |a0| == Pow2(bits)
    requires ReorderedBelow(a, a0, |a|, bits)
    ensures a == BitReversed(a0, bits)
  {
  }

  /** A single element is its own bit-reversed order. */
  lemma OneElementReversed(s: seq<real>, bits: nat)
    requires |s| == Pow2(bits) && |s| <= 1
    ensures BitReversed(s, bits) == s
  {
    assert Reverse(0, bits) == 0;
  }

  /** Exchanging two elements keeps the multiset of elements. */
  lemma SwapKeepsElements(a: seq<real>, i: nat, j: nat)
    requires i < |a| && j < |a|
    ensures multiset(a[i := a[j]][j := a[i]]) == multiset(a)
  {
  }

  /**
   * The loop's progress on one array: indices below i handled, and the
   * elements those swaps moved around are still the original ones.
   */
  ghost predicate Progress(a: seq<real>, a0: seq<real>, i: nat, bits: nat)
    requires |a| == |a0| == Pow2(bits)
  {
    ReorderedBelow(a, a0, i, bits) && multiset(a) == multiset(a0)
  }

  /** Before the first turn nothing is handled and nothing has moved. */
  lemma ProgressStart(a: seq<real>, bits: nat)
    requires |a| == Pow2(bits)
    ensures Progress(a, a, 0, bits)
  {
  }

  /** Once every index is handled, the array is the bit-reversed original, with the same elements. */
  lemma ProgressDone(a: seq<real>, a0: seq<real>, bits: nat)
    requires |a| == |a0| == Pow2(bits)
    requires Progress(a, a0, |a|, bits)
    ensures a == BitReversed(a0, bits) && multiset(a) == multiset(a0)
  {
  }

  /**
   * The bit-reversed order is a permutation: the swap loop, run on a
   * sequence, reaches it by exchanges alone.
   */
  lemma BitReversedSameElements(s: seq<real>, bits: nat)
    requires |s| == Pow2(bits)
    ensures multiset(BitReversed(s, bits)) == multiset(s)
  {
    var a := s;
    var i := 0;
    ProgressStart(s, bits);
    while i < |s|
      invariant 0 <= i <= |s| && |a| == |s|
      invariant Progress(a, s, i, bits)
    {
      var j := Reverse(i, bits);
      ReorderStep(a, s, i, bits);
      if j > i {
        SwapKeepsElements(a, i, j);
        a := a[i := a[j]][j := a[i]];
      }
      i := i + 1;
    }
    ProgressDone(a, s, bits);
  }

  /** One turn of the reordering loop, on both arrays. */
  method ReorderTurn(re: array<real>, im: array<real>, i: nat, log2n: nat,
                     ghost re0: seq<real>, ghost im0: seq<real>)
    requires re != im
    requires re.Length == im.Length == |re0| == |im0| == Pow2(log2n) && i < re.Length
    requires ReorderedBelow(re[..], re0, i, log2n) && ReorderedBelow(im[..], im0, i, log2n)
    modifies re, im
    ensures ReorderedBelow(re[..], re0, i + 1, log2n) && ReorderedBelow(im[..], im0, i + 1, log2n)
  {
    var j := ReverseBits(i, log2n);
    ReorderStep(re[..], re0, i, log2n);
    ReorderStep(im[..], im0, i, log2n);
    if j > i {
      ghost var reNext := re[..][i := re[j]][j := re[i]];
      ghost var imNext := im[..][i := im[j]][j := im[i]];
      re[i], re[j] := re[j], re[i];
      im[i], im[j] := im[j], im[i];
      assert re[..] == reNext;
      assert im[..] == imNext;
    }
  }

  /**
   * The bit-reversal loop at the start of `fft(real, imag)`: for every
   * index i, swap element i with element Reverse(i) when that is larger,
   * in both arrays at once. `re` and `im` are the `real` and `imag`
   * arrays; `log2n` stands for `Math.log2(n)`.
   */
  method BitReverseReorder(re: array<real>, im: array<real>, log2n: nat)
    requires re != im
    requires re.Length == im.Length == Pow2(log2n)
    modifies re, im
    ensures re[..] == BitReversed(old(re[..]), log2n)
    ensures im[..] == BitReversed(old(im[..]), log2n)
    ensures multiset(re[..]) == multiset(old(re[..]))
    ensures multiset(im[..]) == multiset(old(im[..]))
  {
    var n := re.Length;
    if n <= 1 {
      OneElementReversed(re[..], log2n);
      OneElementReversed(im[..], log2n);
      return;
    }
    ghost var re0 := re[..];
    ghost var im0 := im[..];
    var i := 0;
    while i < n
      invariant 0 <= i <= n
      invariant ReorderedBelow(re[..], re0, i, log2n)
      invariant ReorderedBelow(im[..], im0, i, log2n)
    {
      ReorderTurn(re, im, i, log2n, re0, im0);
      i := i + 1;
    }
    ReorderedAll(re[..], re0, log2n);
    ReorderedAll(im[..], im0, log2n);
    BitReversedSameElements(re0, log2n);
    BitReversedSameElements(im0, log2n);
  }
}
