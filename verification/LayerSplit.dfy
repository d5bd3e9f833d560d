/** How layers are dealt out to devices, and the map from global layers to places on a device. */
module LayerSplit {

  function Abs(x: real): real { if x < 0.0 then -x else x }

  /** Sum of the positive weights among the first i. */
  function Weight(split: seq<real>, i: nat): (w: real)
    requires i <= |split|
    ensures w >= 0.0
  {
    if i == 0 then 0.0 else Weight(split, i - 1) + if split[i - 1] > 0.0 then split[i - 1] else 0.0
  }

  /** The weights decide only if there is one per device and some are positive. */
  predicate Weighted(n: nat, split: seq<real>) {
    |split| == n && Weight(split, n) > 0.0
  }

  /** The exact boundary behind device i. */
  function Share(layers: nat, split: seq<real>, i: nat): real
    requires i <= |split| && Weight(split, |split|) > 0.0
  {
    Scaled(Weight(split, i), Weight(split, |split|), layers)
  }

  function Scaled(acc: real, total: real, layers: nat): real
    requires total > 0.0
  {
    acc / total * layers as real
  }

  /** Boundaries of n devices: n + 1 positions from 0 to the number of layers that never go back. */
  predicate Plan(bounds: seq<nat>, n: nat, layers: nat) {
    && |bounds| == n + 1 && bounds[0] == 0 && bounds[n] == layers
    && forall i :: 0 <= i < n ==> bounds[i] <= bounds[i + 1]
  }

  function Size(bounds: seq<nat>, i: nat): int
    requires i + 1 < |bounds|
  {
    bounds[i + 1] as int - bounds[i] as int
  }

  function ClampLayers(layers: int): nat {
    if layers < 0 then 0 else layers
  }

  lemma {:induction false} WeightGrows(split: seq<real>, i: nat, j: nat)
    requires i <= j <= |split|
    ensures Weight(split, i) <= Weight(split, j)
  {
    if i < j { WeightGrows(split, i, j - 1); }
  }

  lemma ShareGrows(layers: nat, split: seq<real>, i: nat, j: nat)
    requires i <= j <= |split| && Weight(split, |split|) > 0.0
    ensures Share(layers, split, i) <= Share(layers, split, j) <= layers as real
    ensures Share(layers, split, 0) == 0.0 && Share(layers, split, |split|) == layers as real
  {
    hide Weight;
    WeightGrows(split, i, j);
    WeightGrows(split, j, |split|);
    var t := Weight(split, |split|);
    Ratio(Weight(split, i), Weight(split, j), t, layers as real);
    Ratio(Weight(split, j), t, t, layers as real);
    assert Weight(split, 0) == 0.0 by { NoWeight(split); }
    Unit(t);
  }

  lemma Unit(t: real)
    requires t > 0.0
    ensures t / t == 1.0 && 0.0 / t == 0.0
  {
    var q := t / t;
    assert q * t == t;
    assert (q - 1.0) * t == 0.0;
  }

  lemma NoWeight(split: seq<real>)
    ensures Weight(split, 0) == 0.0
  {
  }

  lemma Ratio(a: real, b: real, t: real, f: real)
    requires a <= b && t > 0.0 && f >= 0.0
    ensures a / t * f <= b / t * f
  {
    assert a / t <= b / t;
  }

  /** Round to nearest, whatever happens at a half. */
  ghost predicate Nearest(round: real -> int) {
    forall x :: Abs(round(x) as real - x) <= 0.5
  }

  /** bound : layers is acc : total, but for half a layer. */
  ghost predicate Proportional(bound: nat, layers: nat, acc: real, total: real) {
    -total / 2.0 <= bound as real * total - layers as real * acc <= total / 2.0
  }

  lemma ShareIsProportional(bound: nat, layers: nat, split: seq<real>, i: nat)
    requires i <= |split| && Weight(split, |split|) > 0.0 && Abs(bound as real - Share(layers, split, i)) <= 0.5
    ensures Proportional(bound, layers, Weight(split, i), Weight(split, |split|))
  {
    hide Weight, Abs;
    HalfOff(bound as real, Weight(split, i), Weight(split, |split|), layers as real, Share(layers, split, i),
            bound as real - Share(layers, split, i));
  }

  lemma HalfOff(b: real, w: real, t: real, f: real, share: real, d: real)
    requires t > 0.0 && share == w / t * f && d == b - share && Abs(d) <= 0.5
    ensures -t / 2.0 <= b * t - f * w <= t / 2.0
  {
    hide Abs;
    Cancel(w, t, f, b, d);
    Half(d, t);
  }

  lemma Half(d: real, t: real)
    requires t > 0.0 && Abs(d) <= 0.5
    ensures -t / 2.0 <= d * t <= t / 2.0
  {
    NotNegative(0.5 - d, t);
    NotNegative(0.5 + d, t);
    assert (0.5 - d) * t == t / 2.0 - d * t && (0.5 + d) * t == t / 2.0 + d * t;
  }

  lemma NotNegative(x: real, t: real)
    requires x >= 0.0 && t > 0.0
    ensures x * t >= 0.0
  {
  }

  lemma Cancel(w: real, t: real, f: real, b: real, d: real)
    requires t > 0.0 && d == b - w / t * f
    ensures d * t == b * t - f * w
  {
    var q := w / t;
    assert q * t == w;
    assert f * w == f * (q * t) == (q * f) * t;
    assert d * t == b * t - (q * f) * t;
  }

  /** Splits layers over n devices. `round` stands for the rounding of the floating-point product: with any integers the
      bounds are a plan, where there is a device; with exact arithmetic each boundary, as a part of all layers, is off the part
      of the weight up to there by half a layer at most. */
  method LayerSplitBounds(layers: int, n: int, split: seq<real>, round: real -> int) returns (r: seq<nat>)
    ensures n <= 0 ==> r == []
    ensures n > 0 ==> |r| == n + 1 && Plan(r, n, if layers < 0 then 0 else layers)
    ensures n > 0 && Weighted(n, split) && Nearest(round) ==>
      forall i :: 0 <= i <= n ==> Proportional(r[i], if layers < 0 then 0 else layers, Weight(split, i), Weight(split, n))
    ensures n > 0 && !Weighted(n, split) ==> forall i, j :: 0 <= i < j < n ==> 0 <= Size(r, i) - Size(r, j) <= 1
  {
    if n <= 0 { return []; }
    hide Weight, Share, Proportional;
    var all := ClampLayers(layers);
    var total := 0.0;
    if |split| == n { total := TotalWeight(split); }
    if total <= 0.0 {
      r := EvenBounds(all, n);
    } else {
      r := WeightedBounds(all, n, split, round);
      if Nearest(round) {
        forall i | 0 <= i <= n ensures Proportional(r[i], all, Weight(split, i), Weight(split, n)) {
          ShareIsProportional(r[i], all, split, i);
        }
      }
    }
  }

  method TotalWeight(split: seq<real>) returns (total: real)
    ensures total == Weight(split, |split|)
  {
    total := 0.0;
    for i := 0 to |split|
      invariant total == Weight(split, i)
    {
      if split[i] > 0.0 { total := total + split[i]; }
    }
  }

  /** The first layers % n devices get one layer more. */
  method EvenBounds(layers: nat, n: nat) returns (r: seq<nat>)
    requires n > 0
    ensures Plan(r, n, layers)
    ensures forall i, j :: 0 <= i < j < n ==> 0 <= Size(r, i) - Size(r, j) <= 1
  {
    var bounds := new nat[n + 1](_ => 0);
    var base, rem := layers / n, layers % n;
    var pos := 0;
    for i := 0 to n
      invariant bounds[0] == 0 && pos == bounds[i]
      invariant pos == Times(base, i) + if i < rem then i else rem
      invariant forall k :: 0 <= k < i ==> bounds[k + 1] == bounds[k] + base + if k < rem then 1 else 0
    {
      pos := pos + base;
      if i < rem { pos := pos + 1; }
      bounds[i + 1] := pos;
    }
    DivMod(layers, n);
    r := bounds[..];
    assert forall k :: 0 <= k < n ==> Size(r, k) == base + if k < rem then 1 else 0;
  }

  function Times(a: nat, b: nat): nat {
    if b == 0 then 0 else Times(a, b - 1) + a
  }

  lemma {:induction false} TimesIsProduct(a: nat, b: nat)
    ensures Times(a, b) == a * b
  {
    if b > 0 { TimesIsProduct(a, b - 1); }
  }

  lemma DivMod(x: nat, n: nat)
    requires n > 0
    ensures Times(x / n, n) + x % n == x && x % n < n
  {
    TimesIsProduct(x / n, n);
  }

  method WeightedBounds(layers: nat, n: nat, split: seq<real>, round: real -> int) returns (r: seq<nat>)
    requires n > 0 && Weighted(n, split)
    ensures Plan(r, n, layers)
    ensures Nearest(round) ==> forall i :: 0 <= i <= n ==> Abs(r[i] as real - Share(layers, split, i)) <= 0.5
  {
    hide Weight, Share, Nearest, Scaled, Abs;
    var bounds := new nat[n + 1](_ => 0);
    var total := TotalWeight(split);
    var acc := 0.0;
    assert acc == Weight(split, 0) by { NoWeight(split); }
    ShareGrows(layers, split, 0, n);
    assert Abs(0.0) <= 0.5 by { NearZero(); }
    for i := 0 to n
      invariant acc == Weight(split, i) && bounds[0] == 0 && bounds[i] <= layers
      invariant forall k :: 0 <= k < i ==> bounds[k] <= bounds[k + 1]
      invariant Nearest(round) ==> forall k :: 0 <= k <= i ==> Abs(bounds[k] as real - Share(layers, split, k)) <= 0.5
    {
      acc := AddWeight(split, i, acc);
      bounds[i + 1] := NextBound(layers, split, i, acc, total, bounds[i], round);
    }
    bounds[n] := layers;
    r := bounds[..];
  }

  method NextBound(layers: nat, split: seq<real>, i: nat, acc: real, total: real, last: nat, round: real -> int) returns (next: nat)
    requires i < |split| && total == Weight(split, |split|) > 0.0 && acc == Weight(split, i + 1) && last <= layers
    ensures last <= next <= layers
    ensures Nearest(round) && Abs(last as real - Share(layers, split, i)) <= 0.5 ==> Abs(next as real - Share(layers, split, i + 1)) <= 0.5
  {
    hide Weight, Share, Nearest, Scaled, Abs;
    var b := round(Scaled(acc, total, layers));
    next := Clamp(b, last, layers);
    ShareOf(layers, split, i + 1);
    ShareGrows(layers, split, i, i + 1);
    if Nearest(round) && Abs(last as real - Share(layers, split, i)) <= 0.5 {
      ClampNear(round, layers, last, Share(layers, split, i), Share(layers, split, i + 1));
    }
  }

  lemma NearZero()
    ensures Abs(0.0) <= 0.5
  {
  }

  method AddWeight(split: seq<real>, i: nat, acc: real) returns (next: real)
    requires i < |split| && acc == Weight(split, i)
    ensures next == Weight(split, i + 1)
  {
    next := acc;
    if split[i] > 0.0 { next := next + split[i]; }
  }

  lemma ShareOf(layers: nat, split: seq<real>, i: nat)
    requires i <= |split| && Weight(split, |split|) > 0.0
    ensures Share(layers, split, i) == Scaled(Weight(split, i), Weight(split, |split|), layers)
  {
  }

  /** min(max(b, last), layers) */
  function Clamp(b: int, last: nat, layers: nat): nat {
    var lower := if b >= last then b else last;
    if lower <= layers then lower else layers
  }

  /** Clamping between the last bound and the number of layers does not lead away from the share. */
  lemma ClampNear(round: real -> int, layers: nat, last: nat, share: real, next: real)
    requires Nearest(round) && last <= layers && Abs(last as real - share) <= 0.5 && share <= next <= layers as real
    ensures Abs(Clamp(round(next), last, layers) as real - next) <= 0.5
  {
    assert Abs(round(next) as real - next) <= 0.5;
  }

  // ---------------------------------------------------------------------------------
  // Global layers and places
  // ---------------------------------------------------------------------------------

  /** Layer is computed by device i. */
  predicate Owns(bounds: seq<nat>, i: nat, layer: nat)
    requires i + 1 < |bounds|
  {
    bounds[i] <= layer < bounds[i + 1]
  }

  lemma {:induction false} BoundsGrow(bounds: seq<nat>, n: nat, layers: nat, i: nat, j: nat)
    requires Plan(bounds, n, layers) && i <= j <= n
    ensures bounds[i] <= bounds[j]
    decreases j - i
  {
    if i < j { BoundsGrow(bounds, n, layers, i, j - 1); }
  }

  /** The first device from i on that computes the layer. */
  function OwnerFrom(bounds: seq<nat>, i: nat, layer: nat): (d: nat)
    requires i < |bounds|
    ensures i <= d < |bounds|
    ensures d + 1 < |bounds| ==> Owns(bounds, d, layer)
    decreases |bounds| - i
  {
    if i + 1 == |bounds| || Owns(bounds, i, layer) then i else OwnerFrom(bounds, i + 1, layer)
  }

  function Owner(bounds: seq<nat>, layer: nat): nat
    requires bounds != []
  {
    OwnerFrom(bounds, 0, layer)
  }

  /** Every layer of the plan has exactly one owner. */
  lemma OwnerUnique(bounds: seq<nat>, n: nat, layers: nat, layer: nat, i: nat)
    requires Plan(bounds, n, layers) && layer < layers && i < n
    ensures Owner(bounds, layer) < n && Owns(bounds, Owner(bounds, layer), layer)
    ensures Owns(bounds, i, layer) <==> i == Owner(bounds, layer)
  {
    hide OwnerFrom;
    OwnerExists(bounds, n, layers, layer, 0);
    var d := Owner(bounds, layer);
    if i < d { BoundsGrow(bounds, n, layers, i + 1, d); }
    if d < i { BoundsGrow(bounds, n, layers, d + 1, i); }
  }

  lemma {:induction false} OwnerExists(bounds: seq<nat>, n: nat, layers: nat, layer: nat, i: nat)
    requires Plan(bounds, n, layers) && i <= n && bounds[i] <= layer < layers
    ensures OwnerFrom(bounds, i, layer) < n
    decreases n - i
  {
    if i < n && !Owns(bounds, i, layer) { OwnerExists(bounds, n, layers, layer, i + 1); }
  }

  /** (device, place) names one layer, and every place of every device is one. */
  lemma PlacesAreLayers(bounds: seq<nat>, n: nat, layers: nat, i: nat, place: nat)
    requires Plan(bounds, n, layers) && i < n && place < Size(bounds, i)
    ensures bounds[i] + place < layers && Owner(bounds, bounds[i] + place) == i
  {
    BoundsGrow(bounds, n, layers, i + 1, n);
    OwnerUnique(bounds, n, layers, bounds[i] + place, i);
  }

  lemma PlaceInRange(bounds: seq<nat>, n: nat, layers: nat, layer: nat)
    requires Plan(bounds, n, layers) && layer < layers
    ensures Owner(bounds, layer) < n && 0 <= layer - bounds[Owner(bounds, layer)] < Size(bounds, Owner(bounds, layer))
  {
    OwnerUnique(bounds, n, layers, layer, 0);
  }

  /** Different layers never share a place. */
  lemma PlacesDistinct(bounds: seq<nat>, n: nat, layers: nat, a: nat, b: nat)
    requires Plan(bounds, n, layers) && a < layers && b < layers
    requires Owner(bounds, a) == Owner(bounds, b)
    requires a - bounds[Owner(bounds, a)] == b - bounds[Owner(bounds, b)]
    ensures a == b
  {
    PlaceInRange(bounds, n, layers, a);
  }

  // ---------------------------------------------------------------------------------
  // Device changes along the layers
  // ---------------------------------------------------------------------------------

  /** Devices among the first i that have layers. */
  function NonEmpty(bounds: seq<nat>, i: nat): nat
    requires i < |bounds|
  {
    if i == 0 then 0 else NonEmpty(bounds, i - 1) + if bounds[i - 1] < bounds[i] then 1 else 0
  }

  /** Steps from one layer to the next, among the first `upTo` layers, that change the device. */
  function Changes(bounds: seq<nat>, upTo: nat): nat
    requires bounds != []
  {
    if upTo <= 1 then 0
    else Changes(bounds, upTo - 1) + if Owner(bounds, upTo - 1) != Owner(bounds, upTo - 2) then 1 else 0
  }

  lemma {:induction false} NoneBetween(bounds: seq<nat>, i: nat, j: nat)
    requires i <= j < |bounds| && forall k :: i <= k < j ==> bounds[k] >= bounds[k + 1]
    ensures NonEmpty(bounds, j) == NonEmpty(bounds, i)
  {
    if i < j { NoneBetween(bounds, i, j - 1); }
  }

  lemma FlatBetween(bounds: seq<nat>, n: nat, layers: nat, i: nat, j: nat)
    requires Plan(bounds, n, layers) && i <= j <= n && bounds[i] == bounds[j]
    ensures forall k :: i <= k < j ==> bounds[k] >= bounds[k + 1]
  {
    forall k | i <= k < j ensures bounds[k] >= bounds[k + 1] {
      BoundsGrow(bounds, n, layers, i, k);
      BoundsGrow(bounds, n, layers, k + 1, j);
    }
  }

  /** Up to a layer, the changes are the non-empty devices before its owner. */
  lemma {:induction false} ChangesSoFar(bounds: seq<nat>, n: nat, layers: nat, layer: nat)
    requires Plan(bounds, n, layers) && layer < layers
    ensures Owner(bounds, layer) < n && Changes(bounds, layer + 1) == NonEmpty(bounds, Owner(bounds, layer))
  {
    hide OwnerFrom;
    var d := Owner(bounds, layer);
    OwnerUnique(bounds, n, layers, layer, 0);
    if layer == 0 {
      BoundsGrow(bounds, n, layers, 0, d);
      FlatBetween(bounds, n, layers, 0, d);
      NoneBetween(bounds, 0, d);
    } else {
      ChangesSoFar(bounds, n, layers, layer - 1);
      NextOwner(bounds, n, layers, layer);
    }
  }

  lemma NextOwner(bounds: seq<nat>, n: nat, layers: nat, layer: nat)
    requires Plan(bounds, n, layers) && 0 < layer < layers
    ensures var c, d := Owner(bounds, layer - 1), Owner(bounds, layer);
      c < n && d < n && NonEmpty(bounds, d) == NonEmpty(bounds, c) + if c != d then 1 else 0
  {
    hide OwnerFrom;
    var c, d := Owner(bounds, layer - 1), Owner(bounds, layer);
    OwnerUnique(bounds, n, layers, layer, 0);
    OwnerUnique(bounds, n, layers, layer - 1, 0);
    if c != d {
      if d < c { BoundsGrow(bounds, n, layers, d + 1, c); }
      BoundsGrow(bounds, n, layers, c + 1, d);
      FlatBetween(bounds, n, layers, c + 1, d);
      NoneBetween(bounds, c + 1, d);
    }
  }

  /** Boundaries between devices that have layers. */
  function Boundaries(bounds: seq<nat>): nat
    requires bounds != []
  {
    var used := NonEmpty(bounds, |bounds| - 1);
    if used == 0 then 0 else used - 1
  }

  /** Over all layers the device changes once less than there are devices with layers. */
  lemma ChangesTotal(bounds: seq<nat>, n: nat, layers: nat)
    requires Plan(bounds, n, layers)
    ensures Changes(bounds, layers) == Boundaries(bounds)
  {
    hide OwnerFrom;
    if layers == 0 {
      FlatBetween(bounds, n, layers, 0, n);
      NoneBetween(bounds, 0, n);
    } else {
      ChangesSoFar(bounds, n, layers, layers - 1);
      var d := Owner(bounds, layers - 1);
      OwnerUnique(bounds, n, layers, layers - 1, d);
      BoundsGrow(bounds, n, layers, d + 1, n);
      FlatBetween(bounds, n, layers, d + 1, n);
      NoneBetween(bounds, d + 1, n);
    }
  }
}
