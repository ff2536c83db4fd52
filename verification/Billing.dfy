/**
  Floored prices and their memory bands, over exact real arithmetic.

  A request is resolved against a partition, or refused; a resolved request is priced at
  the floor of a weighted sum, and its memory lies in the half-open band of sizes with that price.
*/
module Billing {
  import opened Options

  datatype Weights = Weights(
    cpu: real, memPerGb: real, gpu: real, gpuByModel: map<string, real>, unpriceable: bool,
    defMemPerCpu: Option<real>, defMemPerNode: Option<real>, maxMemPerCpu: Option<real>,
    stock: map<string, real>, stockFromTres: bool, exclusive: bool,
    maxNodes: Option<real>, minNodes: Option<real>, maxCpusPerNode: Option<real>, maxMemPerNode: Option<real>)

  datatype Request = Request(
    cpus: real, mem: real, gpus: real, nodes: real, nodesStated: bool, gpuModel: Option<string>,
    memSpecified: bool, memUnknown: bool, memPerCpu: Option<real>, ntasks: real)

  // ---------------------------------------------------------------- the price

  /** A typed GPU also holds the generic resource, so both weights are charged. */
  function GpuWeight(q: Request, w: Weights): real {
    w.gpu + if q.gpuModel.Some? && q.gpuModel.value in w.gpuByModel then w.gpuByModel[q.gpuModel.value] else 0.0
  }

  /** What the request costs before its memory. */
  function Base(q: Request, w: Weights): real { w.cpu * q.cpus + GpuWeight(q, w) * q.gpus }

  /** `billing_units`. */
  function Units(q: Request, w: Weights): int { (w.cpu * q.cpus + w.memPerGb * q.mem + GpuWeight(q, w) * q.gpus).Floor }

  function At(q: Request, mem: real): Request { q.(mem := mem) }

  function BandStart(q: Request, w: Weights): real
    requires w.memPerGb > 0.0
  {
    (Units(q, w) as real - Base(q, w)) / w.memPerGb
  }

  function BandEnd(q: Request, w: Weights): real
    requires w.memPerGb > 0.0
  {
    (Units(q, w) as real + 1.0 - Base(q, w)) / w.memPerGb
  }

  lemma Divides(x: real, k: real)
    requires k > 0.0
    ensures (x / k) * k == x
  {
  }

  lemma Scales(a: real, b: real, k: real)
    requires k > 0.0
    ensures a <= b <==> k * a <= k * b
  {
  }

  /** The band is exactly the memory sizes with the request's price. */
  lemma BandIsPrice(q: Request, w: Weights, mem: real)
    requires w.memPerGb > 0.0
    ensures Units(At(q, mem), w) == Units(q, w) <==> BandStart(q, w) <= mem < BandEnd(q, w)
  {
    var k, u, b := w.memPerGb, Units(q, w) as real, Base(q, w);
    Divides(u - b, k);
    Divides(u + 1.0 - b, k);
    Scales(BandStart(q, w), mem, k);
    Scales(BandEnd(q, w), mem, k);
    assert Units(At(q, mem), w) == (b + k * mem).Floor;
  }

  lemma OwnBand(q: Request, w: Weights)
    requires w.memPerGb > 0.0
    ensures BandStart(q, w) <= q.mem < BandEnd(q, w)
  {
    BandIsPrice(q, w, q.mem);
    assert At(q, q.mem) == q;
  }

  // --------------------------------------------------------------- rounding

  const Scale: real := 1000000000.0
  const Hair: real := 0.000000001
  const MinStep: real := 0.001
  const Epsilon: real := 1.0

  /** `_round_below`. */
  function RoundBelow(x: real): real { if x <= 0.0 then 0.0 else (x * Scale).Floor as real / Scale }

  lemma RoundsBelow(x: real)
    ensures x > 0.0 ==> x - Hair < RoundBelow(x) <= x && RoundBelow(x) >= 0.0
    ensures x <= 0.0 ==> RoundBelow(x) == 0.0
  {
    if x > 0.0 {
      var n := (x * Scale).Floor as real;
      Divides(n, Scale);
      assert n / Scale == n * Hair;
      assert x * Scale - 1.0 < n <= x * Scale;
    }
  }

  function Min(a: real, b: real): real { if a <= b then a else b }
  function Max(a: real, b: real): real { if a >= b then a else b }

  /** `_step_for`: at most one gigabyte and at most half a band. */
  function StepFor(w: Weights): real {
    if w.memPerGb <= 0.0 then Epsilon else Min(Epsilon, (1.0 / w.memPerGb) / 2.0)
  }

  lemma StepIsHalf(w: Weights)
    requires w.memPerGb > 0.0
    ensures 0.0 < StepFor(w) && 0.0 < w.memPerGb * StepFor(w) <= 0.5
  {
    var k := w.memPerGb;
    Divides(1.0, k);
    assert (1.0 / k) / 2.0 * k == 0.5;
    Scales(StepFor(w), (1.0 / k) / 2.0, k);
    assert 1.0 / k > 0.0;
  }

  // ------------------------------------------------------ the largest same price

  function Candidate(q: Request, end: real, step: real): Option<real> {
    if step > 0.0 && RoundBelow(end - step) >= q.mem then Some(RoundBelow(end - step)) else None
  }

  /** `_largest_at_same_price`: the first margin that does not land behind the request. */
  function LargestSame(q: Request, w: Weights, end: real): real {
    var first, second, third := Candidate(q, end, StepFor(w)), Candidate(q, end, (end - q.mem) / 2.0), Candidate(q, end, MinStep);
    if first.Some? then first.value
    else if second.Some? then second.value
    else if third.Some? then third.value
    else q.mem
  }

  /** The loop over the three margins. */
  method LargestAtSamePrice(q: Request, w: Weights, end: real) returns (r: real)
    ensures r == LargestSame(q, w, end)
  {
    hide RoundBelow, StepFor;
    var steps := [StepFor(w), (end - q.mem) / 2.0, MinStep];
    var i := 0;
    while i < 3
      invariant 0 <= i <= 3 && forall j | 0 <= j < i :: Candidate(q, end, steps[j]).None?
    {
      if steps[i] > 0.0 {
        var candidate := RoundBelow(end - steps[i]);
        if candidate >= q.mem {
          assert i >= 1 ==> Candidate(q, end, steps[0]).None?;
          assert i >= 2 ==> Candidate(q, end, steps[1]).None?;
          return candidate;
        }
      }
      i := i + 1;
    }
    assert Candidate(q, end, steps[0]).None? && Candidate(q, end, steps[1]).None? && Candidate(q, end, steps[2]).None?;
    return q.mem;
  }

  lemma CandidateIsBelow(q: Request, end: real, step: real)
    ensures Candidate(q, end, step).Some? ==> Candidate(q, end, step).value >= q.mem
    ensures Candidate(q, end, step).Some? && end > 0.0 && q.mem < end ==> Candidate(q, end, step).value < end
  {
    RoundsBelow(end - step);
  }

  /**
    The largest same-price size never lies behind the request, and it has the request's price
    exactly when the band reaches above zero, as it does for every size that is not negative.
  */
  lemma LargestSameIff(q: Request, w: Weights)
    requires w.memPerGb > 0.0
    ensures var l := LargestSame(q, w, BandEnd(q, w));
      && q.mem <= l && (Units(At(q, l), w) == Units(q, w) <==> BandEnd(q, w) > 0.0)
      && (q.mem >= 0.0 ==> BandEnd(q, w) > 0.0)
  {
    hide Units, RoundBelow, StepFor;
    var end := BandEnd(q, w);
    var l := LargestSame(q, w, end);
    OwnBand(q, w);
    StepIsHalf(w);
    CandidateIsBelow(q, end, StepFor(w));
    CandidateIsBelow(q, end, (end - q.mem) / 2.0);
    CandidateIsBelow(q, end, MinStep);
    BandIsPrice(q, w, l);
    if end <= 0.0 { RoundsBelow(end - StepFor(w)); }
  }

  /** The condition is needed: a negative size, which a negative CPU count can produce, is offered zero memory. */
  lemma NegativeSizeMisprices()
    ensures var w := Weights(0.0, 1.0, 0.0, map[], false, Some(4.5), None, None, map[], false, false, None, None, None, None);
      var q := Request(-1.0, 0.0, 0.0, 1.0, false, None, false, false, None, 1.0);
      var r := Resolve(q, w);
      r.Some? && r.value.mem == -4.5 && Units(At(r.value, LargestSame(r.value, w, BandEnd(r.value, w))), w) != Units(r.value, w)
  {
    var w := Weights(0.0, 1.0, 0.0, map[], false, Some(4.5), None, None, map[], false, false, None, None, None, None);
    var q := Request(-1.0, 0.0, 0.0, 1.0, false, None, false, false, None, 1.0);
    var r := Resolve(q, w).value;
    assert r.mem == -4.5;
    assert Units(r, w) == -5;
    assert BandEnd(r, w) == -4.0;
    LargestSameIff(r, w);
  }

  // ------------------------------------------------------------- allocation cap

  /** What one job can be given in memory, where that is known. */
  function Cap(q: Request, w: Weights): Option<real> {
    if w.maxMemPerNode.None? then None
    else if q.nodesStated && q.nodes > 0.0 then Some(w.maxMemPerNode.value * q.nodes)
    else if w.maxNodes.Some? then Some(w.maxMemPerNode.value * w.maxNodes.value)
    else None
  }

  /** The `largest_same_price_mem_gb` of `boundary`. */
  function Largest(q: Request, w: Weights): real
    requires w.memPerGb > 0.0
  {
    var l, cap := LargestSame(q, w, BandEnd(q, w)), Cap(q, w);
    if cap.None? then l
    else Min(if cap.value < BandEnd(q, w) then Max(l, cap.value) else l, cap.value)
  }

  /** `next_cheaper`: the size reported, and the units reported for it. */
  datatype Offer = Offer(mem: real, units: int)

  function NextCheaper(q: Request, w: Weights): Option<Offer>
    requires w.memPerGb > 0.0
  {
    var cheaper := BandStart(q, w) - StepFor(w);
    if !(0.0 <= cheaper < q.mem) || Units(At(q, cheaper), w) >= Units(q, w) then None
    else
      var rounded := RoundBelow(cheaper);
      Some(Offer(if Units(At(q, rounded), w) >= Units(q, w) then cheaper else rounded, Units(At(q, cheaper), w)))
  }

  lemma CheaperIsOneLess(q: Request, w: Weights)
    requires w.memPerGb > 0.0
    ensures Units(At(q, BandStart(q, w) - StepFor(w)), w) == Units(q, w) - 1 && BandStart(q, w) - StepFor(w) < q.mem
  {
    var k, u, b := w.memPerGb, Units(q, w) as real, Base(q, w);
    OwnBand(q, w);
    StepIsHalf(w);
    Divides(u - b, k);
    var cheaper := BandStart(q, w) - StepFor(w);
    assert k * cheaper == u - b - k * StepFor(w);
    assert Units(At(q, cheaper), w) == (b + k * cheaper).Floor;
  }

  lemma LessMemoryCostsNoMore(q: Request, w: Weights, a: real, b: real)
    requires w.memPerGb > 0.0 && a <= b
    ensures Units(At(q, a), w) <= Units(At(q, b), w)
  {
    Scales(a, b, w.memPerGb);
  }

  /**
    A cheaper size is offered exactly when one fits above zero; it reprices strictly lower, the
    reported units are one below the request's, and the offered size has exactly that price
    unless a gigabyte costs more than five hundred million units.
  */
  lemma NextCheaperIsCheaper(q: Request, w: Weights)
    requires w.memPerGb > 0.0
    ensures var o := NextCheaper(q, w);
      && (o.Some? <==> BandStart(q, w) >= StepFor(w))
      && (o.Some? ==> Units(At(q, o.value.mem), w) < Units(q, w) && o.value.units == Units(q, w) - 1 && o.value.mem <= q.mem)
      && (o.Some? && w.memPerGb <= 500000000.0 ==> Units(At(q, o.value.mem), w) == o.value.units)
  {
    hide Units, RoundBelow;
    CheaperIsOneLess(q, w);
    var cheaper := BandStart(q, w) - StepFor(w);
    var rounded := RoundBelow(cheaper);
    RoundsBelow(cheaper);
    if cheaper >= 0.0 {
      LessMemoryCostsNoMore(q, w, rounded, cheaper);
      if w.memPerGb <= 500000000.0 { RoundedKeepsUnits(q, w, rounded); }
    }
  }

  lemma RoundedKeepsUnits(q: Request, w: Weights, rounded: real)
    requires 0.0 < w.memPerGb <= 500000000.0
    requires BandStart(q, w) - StepFor(w) - Hair < rounded <= BandStart(q, w) - StepFor(w) || rounded == BandStart(q, w) - StepFor(w)
    ensures Units(At(q, rounded), w) == Units(q, w) - 1
  {
    hide Units, Base, StepFor, BandStart, Mul;
    var k, u, b := w.memPerGb, Units(q, w) as real, Base(q, w);
    var cheaper := BandStart(q, w) - StepFor(w);
    StepProduct(q, w);
    HairProduct(k, cheaper, rounded);
    Tight(u, b, Mul(k, rounded), Mul(k, cheaper), Mul(k, StepFor(w)), Mul(k, Hair));
    UnitsAt(q, w, rounded);
  }

  /** A product by name, where its factors do not matter. */
  function Mul(a: real, b: real): real { a * b }

  lemma StepProduct(q: Request, w: Weights)
    requires w.memPerGb > 0.0
    ensures 0.0 < Mul(w.memPerGb, StepFor(w)) <= 0.5
    ensures Mul(w.memPerGb, BandStart(q, w) - StepFor(w)) == Units(q, w) as real - Base(q, w) - Mul(w.memPerGb, StepFor(w))
  {
    hide Units, Base, StepFor;
    StepIsHalf(w);
    Divides(Units(q, w) as real - Base(q, w), w.memPerGb);
  }

  lemma HairProduct(k: real, x: real, rounded: real)
    requires 0.0 < k <= 500000000.0 && rounded <= x && (rounded == x || x - Hair < rounded)
    ensures 0.0 < Mul(k, Hair) <= 0.5 && Mul(k, rounded) <= Mul(k, x) && (rounded == x || Mul(k, x) - Mul(k, Hair) < Mul(k, rounded))
  {
    assert 0.0 < Mul(k, Hair) <= 0.5;
    hide Mul;
    MulGrows(rounded, x, k);
    MulMinus(k, x, Hair);
    MulGrows(x - Hair, rounded, k);
  }

  lemma MulGrows(a: real, b: real, k: real)
    requires k > 0.0
    ensures (a <= b ==> Mul(k, a) <= Mul(k, b)) && (a < b ==> Mul(k, a) < Mul(k, b))
  {
    if a <= b { Weakly(a, b, k); }
    if a < b { Strictly(a, b, k); }
  }

  lemma MulMinus(k: real, x: real, h: real)
    ensures Mul(k, x - h) == Mul(k, x) - Mul(k, h)
  {
  }

  lemma MulSwaps(a: real, b: real, c: real)
    ensures Mul(a, Mul(b, c)) == Mul(b, Mul(a, c)) && Mul(a, b) == Mul(b, a)
  {
  }

  lemma UnitsAt(q: Request, w: Weights, mem: real)
    ensures Units(At(q, mem), w) == (Base(q, w) + Mul(w.memPerGb, mem)).Floor
  {
    assert w.cpu * q.cpus + w.memPerGb * mem + GpuWeight(q, w) * q.gpus == Base(q, w) + w.memPerGb * mem;
  }

  lemma Tight(u: real, b: real, x: real, y: real, z: real, h: real)
    requires y == u - b - z && 0.0 < z <= 0.5 && 0.0 < h <= 0.5 && x <= y && (x == y || y - h < x)
    ensures u - 1.0 <= b + x < u
  {
  }

  lemma Weakly(a: real, b: real, k: real)
    requires k > 0.0 && a <= b
    ensures k * a <= k * b
  {
  }

  lemma Strictly(a: real, b: real, k: real)
    requires k > 0.0 && a < b
    ensures k * a < k * b
  {
  }

  // ------------------------------------------------------------- what can be held

  function Stock(w: Weights, name: string): Option<real> { if name in w.stock then Some(w.stock[name]) else None }

  predicate Within(need: real, have: Option<real>) { have.Some? && need > 0.0 ==> need <= have.value }

  predicate FitsPerNode(need: real, nodes: real, cap: Option<real>) {
    need <= 0.0 || nodes <= 0.0 || cap.None? || need / nodes <= cap.value
  }

  predicate HoldsGpus(q: Request, w: Weights) {
    || q.gpus <= 0.0 || !w.stockFromTres
    || (var name := if q.gpuModel.Some? then "gres/gpu:" + q.gpuModel.value else "gres/gpu";
        q.gpus <= if name in w.stock then w.stock[name] else 0.0)
  }

  /** `cannot_hold_reason` finds nothing. */
  predicate CanHold(q: Request, w: Weights) {
    && !w.exclusive
    && Within(q.cpus, Stock(w, "cpu")) && Within(q.mem, Stock(w, "mem"))
    && (w.maxNodes.Some? && w.maxCpusPerNode.Some? ==> q.cpus <= w.maxNodes.value * w.maxCpusPerNode.value)
    && (w.maxNodes.Some? && w.maxMemPerNode.Some? ==> q.mem <= w.maxNodes.value * w.maxMemPerNode.value)
    && (q.nodesStated && q.nodes > 0.0 ==>
          && (Stock(w, "node").Some? ==> q.nodes <= Stock(w, "node").value)
          && (w.maxNodes.Some? ==> q.nodes <= w.maxNodes.value)
          && (w.minNodes.Some? ==> w.minNodes.value <= q.nodes)
          && FitsPerNode(q.cpus, q.nodes, w.maxCpusPerNode) && FitsPerNode(q.mem, q.nodes, w.maxMemPerNode))
    && HoldsGpus(q, w)
  }

  // --------------------------------------------------------------- resolution

  function Ceil(x: real): int { -((-x).Floor) }

  predicate Whole(x: real) { x == x.Floor as real }

  function Tasks(q: Request): real { Max(1.0, if q.ntasks == 0.0 then 1.0 else q.ntasks) }

  /** `_apply_cpu_floor`: more CPUs, per task, where the per-CPU memory exceeds its cap. */
  function CpuFloor(q: Request, w: Weights): Request {
    if w.maxMemPerCpu.None? || w.maxMemPerCpu.value <= 0.0 || q.memPerCpu.None?
       || q.memPerCpu.value <= w.maxMemPerCpu.value || q.cpus <= 0.0 then q
    else
      var cap := w.maxMemPerCpu.value;
      if Needed(q, cap) <= q.cpus then q else q.(cpus := Needed(q, cap), memPerCpu := Some(cap))
  }

  function Needed(q: Request, cap: real): real
    requires cap > 0.0 && q.memPerCpu.Some?
  {
    Mul(Tasks(q), PerTask(q, cap) as real).Floor as real
  }

  /** The CPUs one task needs for its memory under the cap. */
  function PerTask(q: Request, cap: real): int
    requires cap > 0.0 && q.memPerCpu.Some?
  {
    Ceil(Load(q) / cap)
  }

  /** The CPUs of one task, and the memory they were asked to have. */
  function Share(q: Request): real { q.cpus / Tasks(q) }

  function Load(q: Request): real
    requires q.memPerCpu.Some?
  {
    Mul(q.memPerCpu.value, Share(q))
  }

  function Checked(q: Request, w: Weights): Option<Request> {
    if CanHold(CpuFloor(q, w), w) then Some(CpuFloor(q, w)) else None
  }

  function DefaultMem(q: Request, w: Weights): Option<real> {
    if w.defMemPerCpu.Some? then Some(w.defMemPerCpu.value * q.cpus)
    else if w.defMemPerNode.Some? && q.nodesStated then Some(w.defMemPerNode.value * q.nodes)
    else None
  }

  predicate Shaped(q: Request) {
    && (q.ntasks > 0.0 && q.cpus > 0.0 ==> Whole(q.cpus / q.ntasks))
    && Whole(q.cpus) && Whole(q.gpus) && Whole(q.ntasks) && (q.nodesStated ==> Whole(q.nodes))
  }

  /** The request with its per-CPU memory multiplied out; `None` where total and product disagree. */
  function Implied(q: Request): Option<Request> {
    if q.memPerCpu.None? || q.memPerCpu.value == 0.0 || q.cpus <= 0.0 then Some(q)
    else
      var implied := q.cpus * q.memPerCpu.value;
      if !q.memSpecified then Some(q.(mem := implied, memSpecified := true))
      else if q.mem - implied > 0.000001 || implied - q.mem > 0.000001 then None
      else Some(q)
  }

  /** `resolve_request` on a known partition; `None` where it refuses. */
  function Resolve(q: Request, w: Weights): Option<Request> {
    if w.unpriceable || !Shaped(q) || Implied(q).None? then None else
    var r := Implied(q).value;
    if r.memSpecified && r.mem <= 0.0 && !r.memUnknown then None
    else if r.memSpecified then Checked(r, w)
    else if w.memPerGb <= 0.0 then Checked(r.(mem := 0.0, memSpecified := true, memUnknown := true), w)
    else if DefaultMem(r, w).None? then None
    else Checked(r.(mem := DefaultMem(r, w).value, memSpecified := true), w)
  }

  lemma CapAdmits(q: Request, w: Weights)
    requires CanHold(q, w) && Cap(q, w).Some? && q.mem >= 0.0
    ensures q.mem <= Cap(q, w).value || (q.mem == 0.0 && Cap(q, w).value < 0.0)
  {
    if q.nodesStated && q.nodes > 0.0 && q.mem > 0.0 {
      Divides(q.mem, q.nodes);
      Scales(q.mem / q.nodes, w.maxMemPerNode.value, q.nodes);
    }
  }

  lemma ResolvedIsHeld(q: Request, w: Weights)
    requires Resolve(q, w).Some?
    ensures CanHold(Resolve(q, w).value, w)
  {
    hide CanHold, CpuFloor, Shaped;
  }

  /** What the reported largest size promises: not behind the request, requestable, and of the same price. */
  predicate Offered(q: Request, w: Weights)
    requires w.memPerGb > 0.0
  {
    && q.mem <= Largest(q, w) && (Cap(q, w).Some? ==> Largest(q, w) <= Cap(q, w).value)
    && Units(At(q, Largest(q, w)), w) == Units(q, w)
  }

  /**
    Exactly when the promise holds, for every request: where the per-job cap lies inside the band the
    request must fit it, and elsewhere the band must reach above zero.
  */
  lemma OfferedIff(q: Request, w: Weights)
    requires w.memPerGb > 0.0
    ensures Offered(q, w) <==>
      if Cap(q, w).Some? && Cap(q, w).value < BandEnd(q, w) then q.mem <= Cap(q, w).value else BandEnd(q, w) > 0.0
  {
    hide Units, LargestSame, BandEnd, BandStart, Cap;
    LargestSameIff(q, w);
    OwnBand(q, w);
    BandIsPrice(q, w, LargestSame(q, w, BandEnd(q, w)));
    BandIsPrice(q, w, Largest(q, w));
  }

  /** A request and a partition in which nothing is negative. */
  predicate Sensible(q: Request, w: Weights) {
    && q.cpus >= 0.0 && q.mem >= 0.0 && q.nodes >= 0.0 && (q.memPerCpu.Some? ==> q.memPerCpu.value >= 0.0)
    && (w.defMemPerCpu.Some? ==> w.defMemPerCpu.value >= 0.0) && (w.defMemPerNode.Some? ==> w.defMemPerNode.value >= 0.0)
    && (w.maxMemPerNode.Some? ==> w.maxMemPerNode.value >= 0.0) && (w.maxNodes.Some? ==> w.maxNodes.value >= 0.0)
  }

  lemma NonNegative(a: real, b: real)
    requires a >= 0.0 && b >= 0.0
    ensures a * b >= 0.0
  {
  }

  lemma ResolvedIsSensible(q: Request, w: Weights)
    requires Sensible(q, w) && Resolve(q, w).Some?
    ensures Resolve(q, w).value.mem >= 0.0
  {
    hide CanHold, Shaped, Tasks, PerTask, Needed;
    if q.memPerCpu.Some? { NonNegative(q.cpus, q.memPerCpu.value); }
    if w.defMemPerCpu.Some? { NonNegative(w.defMemPerCpu.value, q.cpus); }
    if w.defMemPerNode.Some? { NonNegative(w.defMemPerNode.value, q.nodes); }
  }

  lemma SensibleCaps(q: Request, w: Weights)
    requires Sensible(q, w)
    ensures w.maxMemPerNode.Some? ==> w.maxMemPerNode.value >= 0.0
    ensures w.maxNodes.Some? ==> w.maxNodes.value >= 0.0
  {
  }

  lemma CapIsSensible(q: Request, w: Weights)
    requires w.maxMemPerNode.Some? ==> w.maxMemPerNode.value >= 0.0
    requires w.maxNodes.Some? ==> w.maxNodes.value >= 0.0
    ensures Cap(q, w).Some? ==> Cap(q, w).value >= 0.0
  {
    if w.maxMemPerNode.Some? {
      if q.nodes > 0.0 { NonNegative(w.maxMemPerNode.value, q.nodes); }
      if w.maxNodes.Some? { NonNegative(w.maxMemPerNode.value, w.maxNodes.value); }
    }
  }

  /**
    Price bands: whenever a sensible request is resolved on a memory-billed partition, the largest
    same-price size is at least the request, within what one job can be given, and of exactly the same price.
  */
  lemma LargestIsFree(q: Request, w: Weights)
    requires w.memPerGb > 0.0 && Sensible(q, w) && Resolve(q, w).Some?
    ensures Offered(Resolve(q, w).value, w)
  {
    hide Resolve, CanHold, Units, LargestSame, BandEnd, BandStart, Sensible, Offered;
    var r := Resolve(q, w).value;
    ResolvedIsHeld(q, w);
    ResolvedIsSensible(q, w);
    assert Cap(r, w).Some? ==> Cap(r, w).value >= 0.0 by { SensibleCaps(q, w); CapIsSensible(r, w); }
    if Cap(r, w).Some? { CapAdmits(r, w); }
    LargestSameIff(r, w);
    OfferedIff(r, w);
  }

  // ------------------------------------------------------------- the CPU floor

  /** Raising the CPUs keeps room for the memory asked for, and no task gets a CPU more than it needs. */
  lemma CpuFloorHoldsMemory(q: Request, w: Weights)
    requires Whole(Tasks(q)) && CpuFloor(q, w) != q
    ensures var r, cap := CpuFloor(q, w), w.maxMemPerCpu.value;
      && cap * r.cpus >= q.memPerCpu.value * q.cpus
      && r.cpus == Tasks(q) * PerTask(q, cap) as real && cap * (PerTask(q, cap) as real - 1.0) < Load(q)
      && r.mem == q.mem && r.memPerCpu == Some(cap)
  {
    hide Tasks, PerTask, Share, Load, Needed;
    var cap := w.maxMemPerCpu.value;
    assert CpuFloor(q, w) == q.(cpus := Needed(q, cap), memPerCpu := Some(cap));
    NeededHolds(q, cap);
  }

  lemma NeededHolds(q: Request, cap: real)
    requires cap > 0.0 && q.memPerCpu.Some? && Whole(Tasks(q))
    ensures cap * Needed(q, cap) >= q.memPerCpu.value * q.cpus
    ensures Needed(q, cap) == Tasks(q) * PerTask(q, cap) as real && cap * (PerTask(q, cap) as real - 1.0) < Load(q)
  {
    hide Tasks, PerTask, Share, Load, Needed;
    NeededAdds(q, cap);
    MulIs(cap, Needed(q, cap));
    MulIs(q.memPerCpu.value, q.cpus);
    MulIs(Tasks(q), PerTask(q, cap) as real);
    MulIs(cap, PerTask(q, cap) as real - 1.0);
  }

  lemma MulIs(a: real, b: real)
    ensures Mul(a, b) == a * b
  {
  }

  lemma NeededAdds(q: Request, cap: real)
    requires cap > 0.0 && q.memPerCpu.Some? && Whole(Tasks(q))
    ensures Mul(cap, Needed(q, cap)) >= Mul(q.memPerCpu.value, q.cpus)
    ensures Needed(q, cap) == Mul(Tasks(q), PerTask(q, cap) as real) && Mul(cap, PerTask(q, cap) as real - 1.0) < Load(q)
  {
    hide Tasks, PerTask, Share, Mul;
    AtLeastOne(q);
    var n := PerTask(q, cap);
    PerTaskBounds(q, cap);
    Quotient(Load(q), cap);
    Shares(q);
    WholeProduct(n, Tasks(q));
    AddUp(q.cpus, Tasks(q), Share(q), q.memPerCpu.value, cap, Load(q) / cap, n as real, Needed(q, cap));
  }

  lemma Quotient(x: real, k: real)
    requires k > 0.0
    ensures Mul(k, x / k) == x
  {
    Divides(x, k);
  }

  lemma AtLeastOne(q: Request)
    ensures Tasks(q) >= 1.0
  {
  }

  lemma Shares(q: Request)
    ensures Mul(Tasks(q), Share(q)) == q.cpus
  {
    hide Tasks, Mul;
    AtLeastOne(q);
    Quotient(q.cpus, Tasks(q));
  }

  lemma PerTaskBounds(q: Request, cap: real)
    requires cap > 0.0 && q.memPerCpu.Some?
    ensures PerTask(q, cap) as real - 1.0 < Load(q) / cap <= PerTask(q, cap) as real
  {
    hide Load;
    CeilBounds(Load(q) / cap);
  }

  lemma CeilBounds(x: real)
    ensures Ceil(x) as real - 1.0 < x <= Ceil(x) as real
  {
  }

  lemma AddUp(cpus: real, tasks: real, part: real, perCpu: real, cap: real, ratio: real, n: real, total: real)
    requires tasks > 0.0 && cap > 0.0 && Mul(tasks, part) == cpus && Mul(cap, ratio) == Mul(perCpu, part) && n - 1.0 < ratio <= n
    requires total == Mul(tasks, n)
    ensures Mul(cap, total) >= Mul(perCpu, cpus) && Mul(cap, n - 1.0) < Mul(perCpu, part)
  {
    hide Mul;
    MulGrows(ratio, n, cap);
    MulGrows(n - 1.0, ratio, cap);
    MulGrows(Mul(perCpu, part), Mul(cap, n), tasks);
    MulSwaps(tasks, perCpu, part);
    MulSwaps(tasks, cap, n);
  }

  lemma WholeProduct(n: int, x: real)
    requires Whole(x)
    ensures Mul(x, n as real).Floor as real == Mul(x, n as real)
  {
    var z := x.Floor * n;
    assert Mul(x, n as real) == z as real by { assert x * n as real == z as real; }
    assert (z as real).Floor == z;
  }

  /** Running the adjustment again changes nothing. */
  lemma CpuFloorSettles(q: Request, w: Weights)
    ensures CpuFloor(CpuFloor(q, w), w) == CpuFloor(q, w)
  {
    hide Ceil, Tasks;
  }
}
