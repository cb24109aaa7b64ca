/** `ComputeRandomColor`: the diffuse colour of the next VRML shape. The colour is reset
    to black and redrawn, three `rand()` values at a time, until its three channels are
    pairwise different. The random stream is a parameter: a finite sequence of the
    values `rand()` would return next. */
module Colors {

  import opened Options
  import opened Writers

  /** One channel from one draw: `(rand() % 100) / 100.0f`. The draw is never negative,
      so the channel is one of the hundredths from 0 to 0.99. */
  function Channel(d: nat): (x: real)
    ensures 0.0 <= x <= 0.99
    ensures x * 100.0 == (d % 100) as real
  {
    var k := d % 100;
    assert (k as real / 100.0) * 100.0 == k as real;
    k as real / 100.0
  }

  /** The loop's exit test: no two channels are equal. */
  predicate Distinct(c: Rgb)
  {
    c.r != c.g && c.b != c.g && c.b != c.r
  }

  /** The colour made of the `k`-th triple of draws. */
  function Drawn(draws: seq<nat>, k: nat): Rgb
    requires 3 * k + 3 <= |draws|
  {
    Rgb(Channel(draws[3 * k]), Channel(draws[3 * k + 1]), Channel(draws[3 * k + 2]))
  }

  /** The colour that comes out of the loop and the draws left over. */
  datatype Drawing = Drawing(color: Rgb, rest: seq<nat>)

  /** The `while` loop from colour `c`: stop as soon as the channels differ, otherwise
      draw a new triple. `None` when the draws run out first, which the unbounded C
      stream never does. */
  function DrawUntilDistinct(c: Rgb, draws: seq<nat>): (r: Option<Drawing>)
    ensures r.Some? ==> Distinct(r.value.color)
    ensures r.Some? && !Distinct(c) ==> |r.value.rest| + 3 <= |draws|
    decreases |draws|
  {
    if Distinct(c) then Some(Drawing(c, draws))
    else if |draws| < 3 then None
    else DrawUntilDistinct(Drawn(draws, 0), draws[3..])
  }

  /** The first triple that is distinct, if any. */
  predicate SomeDistinct(draws: seq<nat>)
  {
    exists k :: 0 <= k < |draws| / 3 && Distinct(Drawn(draws, k))
  }

  lemma DrawnTail(draws: seq<nat>, k: nat)
    requires 3 * k + 6 <= |draws|
    ensures Drawn(draws[3..], k) == Drawn(draws, k + 1)
  {
  }

  /** One turn of the loop from a colour that is not distinct. */
  lemma DrawStep(c: Rgb, draws: seq<nat>)
    requires !Distinct(c)
    ensures |draws| < 3 ==> DrawUntilDistinct(c, draws) == None
    ensures |draws| >= 3 ==> DrawUntilDistinct(c, draws) == DrawUntilDistinct(Drawn(draws, 0), draws[3..])
  {
  }

  /** Triple `k` is the first distinct one. */
  predicate FirstDistinctAt(draws: seq<nat>, k: nat)
  {
    && k < |draws| / 3
    && Distinct(Drawn(draws, k))
    && forall j :: 0 <= j < k ==> !Distinct(Drawn(draws, j))
  }

  /** Skipping a leading triple that is not distinct moves the first distinct one down
      by one. */
  lemma FirstDistinctShift(draws: seq<nat>, k: nat)
    requires |draws| >= 3 && !Distinct(Drawn(draws, 0))
    requires FirstDistinctAt(draws[3..], k)
    ensures FirstDistinctAt(draws, k + 1)
    ensures Drawn(draws[3..], k) == Drawn(draws, k + 1)
    ensures draws[3..][3 * k + 3..] == draws[3 * (k + 1) + 3..]
  {
    var tail := draws[3..];
    forall j | 0 <= j < k + 1
      ensures !Distinct(Drawn(draws, j))
    {
      if j > 0 {
        DrawnTail(draws, j - 1);
      }
    }
    DrawnTail(draws, k);
  }

  lemma SomeDistinctShift(draws: seq<nat>)
    requires |draws| >= 3 && !Distinct(Drawn(draws, 0))
    ensures SomeDistinct(draws) == SomeDistinct(draws[3..])
  {
    var tail := draws[3..];
    if SomeDistinct(draws) {
      var k :| 0 <= k < |draws| / 3 && Distinct(Drawn(draws, k));
      DrawnTail(draws, k - 1);
    }
    if SomeDistinct(tail) {
      var k :| 0 <= k < |tail| / 3 && Distinct(Drawn(tail, k));
      DrawnTail(draws, k);
    }
  }

  /** Drawing from a non-distinct colour ends at the first distinct triple: it succeeds
      exactly when there is one, returns that triple's colour, and leaves the draws after
      it. */
  lemma {:induction false} DrawUntilDistinctFirst(c: Rgb, draws: seq<nat>)
    requires !Distinct(c)
    ensures DrawUntilDistinct(c, draws).Some? <==> SomeDistinct(draws)
    ensures DrawUntilDistinct(c, draws).Some? ==>
      exists k :: FirstDistinctAt(draws, k)
        && DrawUntilDistinct(c, draws).value == Drawing(Drawn(draws, k), draws[3 * k + 3..])
    decreases |draws|
  {
    DrawStep(c, draws);
    if |draws| >= 3 {
      var c0 := Drawn(draws, 0);
      var tail := draws[3..];
      if Distinct(c0) {
        DrawStop(c0, tail);
        assert FirstDistinctAt(draws, 0);
        assert tail == draws[3 * 0 + 3..];
      } else {
        SomeDistinctShift(draws);
        DrawUntilDistinctFirst(c0, tail);
        hide Drawn, Distinct, DrawUntilDistinct, FirstDistinctAt, SomeDistinct;
        if SomeDistinct(tail) {
          var k :| FirstDistinctAt(tail, k)
            && DrawUntilDistinct(c0, tail).value == Drawing(Drawn(tail, k), tail[3 * k + 3..]);
          FirstDistinctShift(draws, k);
        }
      }
    } else {
      assert !SomeDistinct(draws);
    }
  }

  lemma DrawStop(c: Rgb, draws: seq<nat>)
    requires Distinct(c)
    ensures DrawUntilDistinct(c, draws) == Some(Drawing(c, draws))
  {
  }

  /** The material after the call and the draws it left. */
  datatype Colored = Colored(mat: Material, rest: seq<nat>)

  /** `ComputeRandomColor(mat)`: only the diffuse colour changes, and it becomes the first
      drawn triple whose channels differ; every triple drawn before it had two equal
      channels. Because the colour is reset to black first, the previous diffuse colour
      plays no part and at least one triple is always drawn. */
  function ComputeRandomColor(mat: Material, draws: seq<nat>): (r: Option<Colored>)
    ensures r.Some? <==> SomeDistinct(draws)
    ensures r.Some? ==> r.value.mat == mat.(diffuse := r.value.mat.diffuse)
    ensures r.Some? ==> Distinct(r.value.mat.diffuse)
    ensures r.Some? ==>
      exists k :: FirstDistinctAt(draws, k)
        && r.value.mat.diffuse == Drawn(draws, k) && r.value.rest == draws[3 * k + 3..]
  {
    var black := Rgb(0.0, 0.0, 0.0);
    DrawUntilDistinctFirst(black, draws);
    match DrawUntilDistinct(black, draws)
    case None => None
    case Some(d) => Some(Colored(mat.(diffuse := d.color), d.rest))
  }

  /** The colour drawn and the draws consumed do not depend on the material passed in. */
  lemma ComputeRandomColorIgnoresMaterial(m1: Material, m2: Material, draws: seq<nat>)
    ensures ComputeRandomColor(m1, draws).Some? == ComputeRandomColor(m2, draws).Some?
    ensures ComputeRandomColor(m1, draws).Some? ==>
      ComputeRandomColor(m1, draws).value.mat.diffuse == ComputeRandomColor(m2, draws).value.mat.diffuse
      && ComputeRandomColor(m1, draws).value.rest == ComputeRandomColor(m2, draws).value.rest
  {
  }
}
