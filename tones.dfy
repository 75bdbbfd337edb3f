/** What the three audio widgets share: the random draw behind getRandomFrequency, the
    window-level configuration, and the minimum-distance test on frequencies. */
module Tones {
  import opened Js

  /** Math.random() returns a double in [0, 1) on a grid of 2^-53; a draw `u` stands for u / 2^53. */
  const RANDOM_SCALE: nat := 0x20_0000_0000_0000

  type Fraction = u: nat | u < RANDOM_SCALE

  /** The successive results of Math.random(): draw number k is the k-th call's result. */
  type Draws = nat -> Fraction

  /** The configuration the pages put on `window`; `None` is an unset (undefined) global. */
  datatype Globals = Globals(
    minFrequency: Option<int>,
    maxFrequency: Option<int>,
    frequencyDistance: Option<int>)

  lemma DivBelow(x: int, n: int)
    requires 0 <= x < RANDOM_SCALE * n
    ensures x / RANDOM_SCALE < n
  {
    var q := x / RANDOM_SCALE;
    assert x == q * RANDOM_SCALE + x % RANDOM_SCALE;
  }

  lemma DivAtLeast(x: int, n: int)
    requires RANDOM_SCALE * n <= x <= 0
    ensures n <= x / RANDOM_SCALE <= 0
  {
    var q := x / RANDOM_SCALE;
    assert x == q * RANDOM_SCALE + x % RANDOM_SCALE;
  }

  lemma ProductBelow(u: Fraction, n: int)
    requires n > 0
    ensures 0 <= u * n < RANDOM_SCALE * n
  {
    assert RANDOM_SCALE * n - u * n == (RANDOM_SCALE - u) * n;
  }

  lemma ProductAbove(u: Fraction, n: int)
    requires n < 0
    ensures RANDOM_SCALE * n <= u * n <= 0
  {
    assert u * n - RANDOM_SCALE * n == (RANDOM_SCALE - u) * (-n);
    assert u * n == -(u * (-n));
  }

  /** Math.floor(Math.random() * n) for the draw `u`. */
  function ScaleDraw(u: Fraction, n: int): (r: int)
    ensures n > 0 ==> 0 <= r < n
    ensures n == 0 ==> r == 0
    ensures n < 0 ==> n <= r <= 0
  {
    if n > 0 then
      ProductBelow(u, n);
      DivBelow(u * n, n);
      (u * n) / RANDOM_SCALE
    else if n < 0 then
      ProductAbove(u, n);
      DivAtLeast(u * n, n);
      (u * n) / RANDOM_SCALE
    else
      (u * n) / RANDOM_SCALE
  }

  /** The effective range limits of getRandomFrequency: `window.MIN_FREQUENCY || 3000` and
      `window.MAX_FREQUENCY || 8000`. */
  function MinFrequency(g: Globals): int { OrDefault(g.minFrequency, 3000) }
  function MaxFrequency(g: Globals): int { OrDefault(g.maxFrequency, 8000) }

  /** getRandomFrequency for the draw `u`: floor(random * (max - min)) + min. */
  function GetRandomFrequency(g: Globals, u: Fraction): (f: int)
    ensures MinFrequency(g) < MaxFrequency(g) ==> MinFrequency(g) <= f < MaxFrequency(g)
    ensures MinFrequency(g) == MaxFrequency(g) ==> f == MinFrequency(g)
    ensures MinFrequency(g) > MaxFrequency(g) ==> MaxFrequency(g) <= f <= MinFrequency(g)
  {
    ScaleDraw(u, MaxFrequency(g) - MinFrequency(g)) + MinFrequency(g)
  }

  /** The frequency getRandomFrequency yields from draw number `pos` of the stream. */
  function DrawFrequency(g: Globals, draws: Draws, pos: nat): int
  {
    GetRandomFrequency(g, draws(pos))
  }

  function Abs(x: int): nat
  {
    if x < 0 then -x else x
  }

  /** isFrequencyValid as `frequencies.every(freq => Math.abs(newFrequency - freq) >= minDistance)`. */
  function IsFrequencyValid(newFrequency: int, frequencies: seq<int>, minDistance: int): (ok: bool)
    ensures minDistance <= 0 ==> ok
  {
    if frequencies == [] then true
    else Abs(newFrequency - frequencies[0]) >= minDistance && IsFrequencyValid(newFrequency, frequencies[1..], minDistance)
  }

  /** The test holds exactly when every listed frequency is at least `minDistance` from the new one. */
  lemma {:induction false} IsFrequencyValidMeans(newFrequency: int, frequencies: seq<int>, minDistance: int)
    ensures IsFrequencyValid(newFrequency, frequencies, minDistance) <==>
      forall i :: 0 <= i < |frequencies| ==> Abs(newFrequency - frequencies[i]) >= minDistance
  {
    if frequencies != [] {
      IsFrequencyValidMeans(newFrequency, frequencies[1..], minDistance);
      assert forall i :: 1 <= i < |frequencies| ==> frequencies[i] == frequencies[1..][i - 1];
    }
  }

  /** Both generators give up on a slot after this many rejected draws. */
  const MAX_ATTEMPTS: nat := 50

  /** Adding a slot that uses at most `perSlot` draws keeps the `perSlot` draws-per-slot bound. */
  lemma DrawBoundStep(start: nat, mid: nat, end: nat, count: nat, perSlot: nat)
    requires count > 0 && mid <= start + perSlot * (count - 1) && end <= mid + perSlot
    ensures end <= start + perSlot * count
  {
    assert perSlot * count == perSlot * (count - 1) + perSlot;
  }

  /** A slot's outcome: the value pushed and the position of the next unused draw. */
  datatype Slot = Slot(value: int, next: nat)

  /** A generated list and the position of the next unused draw. */
  datatype Generated = Generated(values: seq<int>, next: nat)

  /** A timer handle returned by setTimeout: a positive integer, so always truthy. */
  type TimerId = n: int | n > 0 witness 1

  /** The element id of answer button `b` (1 to 4): `btnSound1` .. `btnSound4`. */
  function ButtonId(b: nat): (id: string)
    requires 1 <= b <= 4
    ensures |id| == 9 && id[..8] == "btnSound" && id[8] == DigitChar(b)
  {
    "btnSound" + [DigitChar(b)]
  }

  lemma ButtonIdInjective(b: nat, c: nat)
    requires 1 <= b <= 4 && 1 <= c <= 4
    ensures ButtonId(b) == ButtonId(c) <==> b == c
  {
    if ButtonId(b) == ButtonId(c) {
      assert ButtonId(b)[8] == ButtonId(c)[8];
    }
  }
}
