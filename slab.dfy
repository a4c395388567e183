/** The slab-cutting calculation of `SlabApp.calculate`: validation of the
    measured slab length and the instructed (target) lengths, allocation of
    the remainder over the targets once the saw-kerf loss is taken off, the
    running computation of the cut centres, and the marks of the cut
    diagram. Lengths are millimetres, modelled as exact reals. */
module Slab {
  import opened Numbers

  /** Saw-kerf loss per cut, in millimetres (fixed in the application). */
  const CutLoss: real := 15.0

  /** Sum of a sequence of lengths, accumulated from the left as Python's `sum`. */
  function Sum(s: seq<real>): real
  {
    if s == [] then 0.0 else Sum(s[..|s| - 1]) + s[|s| - 1]
  }

  /** Lengths that are not negative add up to a total that is not negative. */
  lemma {:induction false} SumNonNegative(s: seq<real>)
    requires forall i :: 0 <= i < |s| ==> s[i] >= 0.0
    ensures Sum(s) >= 0.0
  {
    if s != [] {
      SumNonNegative(s[..|s| - 1]);
    }
  }

  /** The sum of two runs of lengths laid end to end. */
  lemma {:induction false} SumAppend(a: seq<real>, b: seq<real>)
    ensures Sum(a + b) == Sum(a) + Sum(b)
    decreases |b|
  {
    if b == [] {
      assert a + b == a;
    } else {
      var c := a + b;
      assert c[..|c| - 1] == a + b[..|b| - 1];
      SumAppend(a, b[..|b| - 1]);
    }
  }

  // ---------------------------------------------------------------------
  // Validation

  /** Python truthiness of a parsed field: `None` and `0.0` are false. */
  predicate Truthy(v: Option<real>) { v.Some? && v.value != 0.0 }

  /** `[v for v in (p1, p2, p3) if v]` */
  function KeepGuides(vs: seq<Option<real>>): (r: seq<real>)
    ensures |r| <= |vs|
    ensures forall k :: 0 <= k < |r| ==> r[k] != 0.0
    ensures forall k :: 0 <= k < |vs| && Truthy(vs[k]) ==> vs[k].value in r
  {
    if vs == [] then []
    else (if Truthy(vs[0]) then [vs[0].value] else []) + KeepGuides(vs[1..])
  }

  /** The filter keeps input order and decides each slot on its own; this
      and `KeepGuidesSingle` pin the guide list down completely. */
  lemma {:induction false} KeepGuidesAppend(a: seq<Option<real>>, b: seq<Option<real>>)
    ensures KeepGuides(a + b) == KeepGuides(a) + KeepGuides(b)
  {
    if a == [] {
      assert a + b == b;
    } else {
      assert (a + b)[1..] == a[1..] + b;
      KeepGuidesAppend(a[1..], b);
    }
  }

  lemma KeepGuidesSingle(v: Option<real>)
    ensures KeepGuides([v]) == if Truthy(v) then [v.value] else []
  {
    assert [v][1..] == [];
  }

  /** Negative instructed lengths are kept; only missing values and zeros go. */
  lemma KeepGuidesKeepsNegatives(p1: real, p2: real)
    requires p1 < 0.0
    ensures KeepGuides([Some(p1), None, Some(p2)]) == if p2 == 0.0 then [p1] else [p1, p2]
  {
    KeepGuidesAppend([Some(p1)], [None, Some(p2)]);
    KeepGuidesAppend([None], [Some(p2)]);
    KeepGuidesSingle(Some(p1));
    KeepGuidesSingle(None);
    KeepGuidesSingle(Some(p2));
    assert [Some(p1)] + [None, Some(p2)] == [Some(p1), None, Some(p2)];
    assert [None] + [Some(p2)] == [None, Some(p2)];
  }

  // ---------------------------------------------------------------------
  // Allocation

  /** The outcome of spreading the remainder over the instructed lengths. */
  datatype Allocation = Allocation(
    guides: seq<real>,     // instructed lengths, in input order
    totalLoss: real,       // kerf loss of all cuts
    remain: real,          // what is left once guides and loss are taken off (may be negative)
    addEach: real,         // the share of the remainder given to every segment
    lengths: seq<real>)    // the real cut length of every segment

  /** `[g+add_each for g in guides]` */
  function AddEach(g: seq<real>, a: real): (r: seq<real>)
    ensures |r| == |g|
    ensures forall i :: 0 <= i < |g| ==> r[i] - g[i] == a
  {
    seq(|g|, i requires 0 <= i < |g| => g[i] + a)
  }

  lemma {:induction false} SumAddEach(g: seq<real>, a: real)
    ensures Sum(AddEach(g, a)) == Sum(g) + (|g| as real) * a
  {
    if g != [] {
      var r := AddEach(g, a);
      assert r[..|r| - 1] == AddEach(g[..|g| - 1], a);
      SumAddEach(g[..|g| - 1], a);
    }
  }

  /** The allocation step: `total_loss = loss*(n-1)`,
      `remain = slab - (sum(guides)+total_loss)`, `add_each = remain/n` and
      `real = [g+add_each for g in guides]`. Nothing rejects a negative
      remainder: the segments then come out shorter than instructed. */
  function Allocate(slab: real, guides: seq<real>, loss: real): (a: Allocation)
    requires |guides| >= 2
    ensures a.guides == guides && |a.lengths| == |guides|
    ensures a.totalLoss == loss * (|guides| - 1) as real
    ensures a.addEach * (|guides| as real) == a.remain
    ensures forall i :: 0 <= i < |guides| ==> a.lengths[i] - guides[i] == a.addEach
    ensures Sum(a.lengths) + a.totalLoss == slab
    ensures a.remain < 0.0 ==> forall i :: 0 <= i < |guides| ==> a.lengths[i] < guides[i]
  {
    var n := |guides|;
    var totalLoss := loss * (n - 1) as real;
    var remain := slab - (Sum(guides) + totalLoss);
    var addEach := remain / n as real;
    SumAddEach(guides, addEach);
    Allocation(guides, totalLoss, remain, addEach, AddEach(guides, addEach))
  }

  // ---------------------------------------------------------------------
  // Cut centres

  /** Closed form of the cut centres: cut `k` (from 0) lies after the first
      `k + 1` segments and `k` whole kerfs, in the middle of its own kerf.
      The last segment has no cut after it. */
  function Centers(lengths: seq<real>, loss: real): (c: seq<real>)
    ensures |c| == if lengths == [] then 0 else |lengths| - 1
  {
    if lengths == [] then []
    else seq(|lengths| - 1, k requires 0 <= k < |lengths| - 1 =>
               Sum(lengths[..k + 1]) + (k as real) * loss + loss / 2.0)
  }

  lemma SumStep(s: seq<real>, i: nat)
    requires i < |s|
    ensures Sum(s[..i + 1]) == Sum(s[..i]) + s[i]
  {
    assert s[..i + 1][..i] == s[..i];
  }

  /** The loop `for l in real[:-1]: acc += l+(loss/2); centers.append(acc);
      acc += (loss/2)`, proved to compute the closed form. */
  method ComputeCenters(lengths: seq<real>, loss: real) returns (centers: seq<real>)
    ensures centers == Centers(lengths, loss)
  {
    var cuts := if lengths == [] then 0 else |lengths| - 1;
    centers := [];
    var acc := 0.0;
    var i := 0;
    while i < cuts
      invariant 0 <= i <= cuts
      invariant |centers| == i
      invariant acc == Sum(lengths[..i]) + (i as real) * loss
      invariant forall k :: 0 <= k < i ==> centers[k] == Centers(lengths, loss)[k]
    {
      SumStep(lengths, i);
      assert (i as real + 1.0) * loss == (i as real) * loss + loss;
      acc := acc + (lengths[i] + loss / 2.0);
      centers := centers + [acc];
      acc := acc + loss / 2.0;
      i := i + 1;
    }
  }

  /** The last cut's centre, half a kerf and the last segment reach exactly
      the end of the slab, for any remainder. */
  lemma LastCutReachesSlabEnd(slab: real, guides: seq<real>, loss: real)
    requires |guides| >= 2
    ensures var a := Allocate(slab, guides, loss);
            var c := Centers(a.lengths, loss);
            var n := |guides|;
            c[n - 2] + loss / 2.0 + a.lengths[n - 1] == slab
  {
    var a := Allocate(slab, guides, loss);
    var n := |guides|;
    SumStep(a.lengths, n - 1);
    assert a.lengths[..n] == a.lengths;
  }

  /** With positive segment lengths and a positive kerf, the cut centres
      strictly increase along the slab. */
  lemma {:induction false} CentersIncrease(lengths: seq<real>, loss: real, j: nat, k: nat)
    requires loss > 0.0 && forall i :: 0 <= i < |lengths| ==> lengths[i] > 0.0
    requires j < k < |Centers(lengths, loss)|
    ensures Centers(lengths, loss)[j] < Centers(lengths, loss)[k]
    decreases k - j
  {
    var c := Centers(lengths, loss);
    SumStep(lengths, k);
    assert c[k] == c[k - 1] + lengths[k] + loss;
    if j < k - 1 {
      CentersIncrease(lengths, loss, j, k - 1);
    }
  }

  /** With positive real lengths and a positive kerf, every cut centre lies
      strictly inside the slab. */
  lemma CentersInsideSlab(slab: real, guides: seq<real>, loss: real, k: nat)
    requires |guides| >= 2 && loss > 0.0
    requires forall i :: 0 <= i < |guides| ==> Allocate(slab, guides, loss).lengths[i] > 0.0
    requires k < |guides| - 1
    ensures var a := Allocate(slab, guides, loss);
            0.0 < Centers(a.lengths, loss)[k] < slab
  {
    var a := Allocate(slab, guides, loss);
    var l := a.lengths;
    var n := |guides|;
    SumNonNegative(l[..k + 1]);
    LastCutReachesSlabEnd(slab, guides, loss);
    if k < n - 2 {
      CentersIncrease(l, loss, k, n - 2);
    }
  }

  // ---------------------------------------------------------------------
  // Marks

  /** The mark of every segment: `round_half_up(r + loss/2)`, the segment's
      own length plus half a kerf, to the nearest millimetre. */
  function Marks(lengths: seq<real>, loss: real): (m: seq<int>)
    ensures |m| == |lengths|
    ensures forall i :: 0 <= i < |lengths| ==> m[i] == RoundHalfUp(lengths[i] + loss / 2.0)
    ensures forall i :: 0 <= i < |lengths| && lengths[i] + loss / 2.0 >= -0.5 ==>
              m[i] as real - 0.5 <= lengths[i] + loss / 2.0 < m[i] as real + 0.5
  {
    seq(|lengths|, i requires 0 <= i < |lengths| => RoundHalfUp(lengths[i] + loss / 2.0))
  }

  // ---------------------------------------------------------------------
  // The whole calculation

  datatype Calculation =
    | SlabError     // the slab length is missing, unparsable or not positive
    | GuideError    // fewer than two usable instructed lengths
    | Ok(slab: real, alloc: Allocation, centers: seq<real>, marks: seq<int>)

  /** What `calculate` derives from the parsed slab length and the parsed
      instructed lengths, before any text is produced. */
  function Compute(slab: Option<real>, fields: seq<Option<real>>, loss: real): (c: Calculation)
    ensures c.SlabError? <==> !(slab.Some? && slab.value > 0.0)
    ensures c.GuideError? <==> slab.Some? && slab.value > 0.0 && |KeepGuides(fields)| < 2
    ensures c.Ok? ==>
              var n := |c.alloc.guides|;
              c.slab == slab.value && c.slab > 0.0 &&
              c.alloc.guides == KeepGuides(fields) && 2 <= n <= |fields| &&
              |c.alloc.lengths| == n == |c.marks| && |c.centers| == n - 1 &&
              Sum(c.alloc.lengths) + c.alloc.totalLoss == c.slab &&
              c.centers[n - 2] + loss / 2.0 + c.alloc.lengths[n - 1] == c.slab
    ensures c.Ok? ==>
              c.alloc == Allocate(c.slab, c.alloc.guides, loss) &&
              c.centers == Centers(c.alloc.lengths, loss) &&
              c.marks == Marks(c.alloc.lengths, loss)
  {
    if slab.None? || slab.value <= 0.0 then SlabError
    else
      var guides := KeepGuides(fields);
      if |guides| < 2 then GuideError
      else
        var a := Allocate(slab.value, guides, loss);
        LastCutReachesSlabEnd(slab.value, guides, loss);
        Ok(slab.value, a, Centers(a.lengths, loss), Marks(a.lengths, loss))
  }

  /** `calculate` on the text of the slab-length field and the three
      instructed-length fields. */
  function Evaluate(slabText: string, p1: string, p2: string, p3: string, loss: real): (c: Calculation)
    ensures Strip(slabText) == [] ==> c.SlabError?
    ensures c.SlabError? <==> !(ParseFloat(Strip(slabText)).Some? && ParseFloat(Strip(slabText)).value > 0.0)
    ensures c.Ok? ==> Some(c.slab) == ParseFloat(Strip(slabText))
    ensures var guides := KeepGuides([NumOrNone(Some(p1)), NumOrNone(Some(p2)), NumOrNone(Some(p3))]);
            !c.SlabError? ==> (c.GuideError? <==> |guides| < 2) && (c.Ok? ==> c.alloc.guides == guides)
    ensures c.Ok? ==>
              c.alloc == Allocate(c.slab, c.alloc.guides, loss) &&
              c.centers == Centers(c.alloc.lengths, loss) &&
              c.marks == Marks(c.alloc.lengths, loss)
  {
    Compute(NumOrNone(Some(slabText)), [NumOrNone(Some(p1)), NumOrNone(Some(p2)), NumOrNone(Some(p3))], loss)
  }
}
