/** The Chebyshev filter of src/ddf/minim/effects/ChebFilter.java: parameter
    validation and the coefficient calculation.

    The coefficients are built by cascading two-pole sections: the
    feed-forward work vector is multiplied by `a0 + a1 z^-1 + a2 z^-2` and the
    feedback work vector by `1 - b0 z^-1 - b1 z^-2`, section by section, in 23
    slots with the constant term at slot 2. The result is shifted down two
    slots, the feedback vector negated, and the feed-forward coefficients are
    divided by the gain at zero frequency (low pass) or at the Nyquist
    frequency (high pass). The placement of each section's poles is the
    abstract function `TwoPole`. */
module Chebyshev {

  /** Filter types. */
  const LP: int := 1
  const HP: int := 2

  /** The number of slots in the work vectors. */
  const Slots: nat := 23

  /** The number of slots the shift, the gain sums and the division cover. */
  const Shifted: nat := 21

  /** What one two-pole section contributes: feed-forward `a0, a1, a2` and
      feedback `b0, b1` (`pa` and `pb`). */
  datatype Section = Section(a0: real, a1: real, a2: real, b0: real, b1: real)

  /** The design parameters the section calculation reads. */
  datatype Design = Design(filterType: int, poles: nat, ripple: real, frequency: real, sampleRate: real)

  /** `calcTwoPole(p, pa, pb)`: the coefficients of section `p` (1-based). */
  type TwoPole = (nat, Design) -> Section

  /** The diagnostics `Minim.error` reports. */
  datatype Diagnostic = InvalidType | TooFewPoles | OddPoles | TooManyPoles

  /** How `calcCoeff` ends: normally, or by the exception the final copy into
      `a` raises when `poles + 1` exceeds the work vectors. */
  datatype Status = Completed | ArrayIndexOutOfBounds

  /** The normalising gain `sa / (1 - sb)` as a float division: finite and
      nonzero, infinite (a zero divisor), or zero or NaN, after which every
      divided coefficient is infinite or NaN. */
  datatype Gain = Finite(value: real) | Infinite | NonFinite

  /** What `calcCoeff` leaves in `a` and `b`, and how it ends. */
  datatype Coefficients = Coefficients(a: seq<real>, b: seq<real>, gain: Gain, status: Status)

  // Validation

  /** The type `setType` stores: low pass unless `t` is a known type. */
  function ValidType(t: int): (r: int)
    ensures r == LP || r == HP
    ensures t == LP || t == HP ==> r == t
    ensures t != LP && t != HP ==> r == LP
  {
    if t != LP && t != HP then LP else t
  }

  /** What `setType(t)` reports. */
  function TypeDiagnostics(t: int): (r: seq<Diagnostic>)
    ensures r == [] <==> t == LP || t == HP
  {
    if t != LP && t != HP then [InvalidType] else []
  }

  /** Whether `setPoles(p)` stores `p`: it must be at least 2 and even. */
  predicate PolesAccepted(p: int) {
    p >= 2 && p % 2 == 0
  }

  /** What `setPoles(p)` reports: at most one diagnostic, the first failed test. */
  function PoleDiagnostics(p: int): (r: seq<Diagnostic>)
    ensures |r| <= 1
    ensures r == [] <==> 2 <= p <= 20 && p % 2 == 0
    ensures !PolesAccepted(p) ==> r == [TooFewPoles] || r == [OddPoles]
    ensures r == [TooManyPoles] <==> PolesAccepted(p) && p > 20
  {
    if p < 2 then [TooFewPoles]
    else if p % 2 != 0 then [OddPoles]
    else if p > 20 then [TooManyPoles]
    else []
  }

  /** The pole count after `setPoles(p)` from `current`. */
  function StoredPoles(current: nat, p: int): (r: nat)
    ensures PolesAccepted(p) ==> r == p
    ensures !PolesAccepted(p) ==> r == current
    ensures current == 0 || PolesAccepted(current) ==> r == 0 || PolesAccepted(r)
    ensures PoleDiagnostics(p) == [] ==> r == p
  {
    if PolesAccepted(p) then p as nat else current
  }

  // The cascade

  /** The work vectors before the first section: a single 1 at slot 2. */
  function Seed(): (r: seq<real>)
    ensures |r| == Slots
  {
    seq(Slots, i requires 0 <= i < Slots => if i == 2 then 1.0 else 0.0)
  }

  /** Slot `i` after multiplying by `a0 + a1 z^-1 + a2 z^-2`. */
  function FeedForwardTap(s: Section, ta: seq<real>, i: nat): real
    requires 2 <= i < |ta|
  {
    s.a0 * ta[i] + s.a1 * ta[i - 1] + s.a2 * ta[i - 2]
  }

  /** Slot `i` after multiplying by `1 - b0 z^-1 - b1 z^-2`. */
  function FeedbackTap(s: Section, tb: seq<real>, i: nat): real
    requires 2 <= i < |tb|
  {
    tb[i] - s.b0 * tb[i - 1] - s.b1 * tb[i - 2]
  }

  /** One section applied to the feed-forward vector; slots 0 and 1 are kept. */
  function FeedForwardStep(s: Section, ta: seq<real>): (r: seq<real>)
    requires |ta| == Slots
    ensures |r| == Slots
  {
    seq(Slots, i requires 0 <= i < Slots => if i < 2 then ta[i] else FeedForwardTap(s, ta, i))
  }

  /** One section applied to the feedback vector; slots 0 and 1 are kept. */
  function FeedbackStep(s: Section, tb: seq<real>): (r: seq<real>)
    requires |tb| == Slots
    ensures |r| == Slots
  {
    seq(Slots, i requires 0 <= i < Slots => if i < 2 then tb[i] else FeedbackTap(s, tb, i))
  }

  /** The feed-forward vector after sections `1..k`. */
  function CascadeA(tp: TwoPole, d: Design, k: nat): (r: seq<real>)
    ensures |r| == Slots
    decreases k
  {
    if k == 0 then Seed() else FeedForwardStep(tp(k, d), CascadeA(tp, d, k - 1))
  }

  /** The feedback vector after sections `1..k`. */
  function CascadeB(tp: TwoPole, d: Design, k: nat): (r: seq<real>)
    ensures |r| == Slots
    decreases k
  {
    if k == 0 then Seed() else FeedbackStep(tp(k, d), CascadeB(tp, d, k - 1))
  }

  /** The feed-forward vector shifted down two slots; the top two slots keep
      their old values. */
  function ShiftA(ca: seq<real>): (r: seq<real>)
    requires |ca| == Slots
    ensures |r| == Slots
  {
    seq(Slots, i requires 0 <= i < Slots => if i < Shifted then ca[i + 2] else ca[i])
  }

  /** The feedback vector with slot 2 cleared, then shifted down two slots and
      negated; the top two slots keep their old values. */
  function ShiftB(cb: seq<real>): (r: seq<real>)
    requires |cb| == Slots
    ensures |r| == Slots
  {
    var c := cb[2 := 0.0];
    seq(Slots, i requires 0 <= i < Slots => if i < Shifted then -c[i + 2] else c[i])
  }

  // Gain normalisation

  /** `x * (float) Math.pow(-1, i)` for a high-pass filter, `x` otherwise. */
  function Weighted(t: int, i: nat, x: real): real {
    if t == LP || i % 2 == 0 then x else -x
  }

  /** The sum of `Weighted(t, offset + j, xs[j])` over the slots of `xs`. */
  function WeightedSum(t: int, xs: seq<real>, offset: nat): real
    decreases |xs|
  {
    if xs == [] then 0.0
    else WeightedSum(t, xs[..|xs| - 1], offset) + Weighted(t, offset + |xs| - 1, xs[|xs| - 1])
  }

  /** `sa / (1 - sb)` as a float division. */
  function GainOf(sa: real, sb: real): (r: Gain)
    ensures r.Finite? <==> sa != 0.0 && sb != 1.0
    ensures r.Finite? ==> r.value != 0.0 && r.value * (1.0 - sb) == sa
  {
    if sa == 0.0 then NonFinite
    else if sb == 1.0 then Infinite
    else Finite(sa / (1.0 - sb))
  }

  /** `x / gain`: a finite coefficient divided by an infinite gain is zero. A
      non-finite gain yields infinities or NaN, which reals cannot hold; the
      model keeps `x` and marks the result by its gain. */
  function Divided(x: real, g: Gain): real
    requires g.Finite? ==> g.value != 0.0
  {
    match g
    case Finite(v) => x / v
    case Infinite => 0.0
    case NonFinite => x
  }

  /** The feed-forward vector with its low `Shifted` slots divided by the gain. */
  function Normalised(ca: seq<real>, g: Gain): (r: seq<real>)
    requires |ca| == Slots && (g.Finite? ==> g.value != 0.0)
    ensures |r| == Slots
  {
    seq(Slots, i requires 0 <= i < Slots => if i < Shifted then Divided(ca[i], g) else ca[i])
  }

  /** The feed-forward work vector after the cascade and the shift. */
  function ShiftedA(tp: TwoPole, d: Design): (r: seq<real>)
    ensures |r| == Slots
  {
    ShiftA(CascadeA(tp, d, d.poles / 2))
  }

  /** The feedback work vector after the cascade and the shift. */
  function ShiftedB(tp: TwoPole, d: Design): (r: seq<real>)
    ensures |r| == Slots
  {
    ShiftB(CascadeB(tp, d, d.poles / 2))
  }

  /** The gain `sa / (1 - sb)` of design `d` before normalisation. */
  function DesignGain(tp: TwoPole, d: Design): (r: Gain)
    ensures r.Finite? ==> r.value != 0.0
  {
    GainOf(WeightedSum(d.filterType, ShiftedA(tp, d)[..Shifted], 0),
           WeightedSum(d.filterType, ShiftedB(tp, d)[..Shifted], 0))
  }

  /** The full coefficient calculation for design `d`. */
  function CoefficientsOf(tp: TwoPole, d: Design): Coefficients {
    var gain := DesignGain(tp, d);
    if d.poles + 1 > Slots then
      Coefficients(seq(d.poles + 1, _ => 0.0), seq(d.poles, _ => 0.0), gain, ArrayIndexOutOfBounds)
    else
      Coefficients(Normalised(ShiftedA(tp, d), gain)[..d.poles + 1], ShiftedB(tp, d)[1..d.poles + 1], gain, Completed)
  }

  // Properties of the calculation

  /** Only a pole count above 22 overflows the work vectors; otherwise `a`
      holds `poles + 1` coefficients and `b` holds `poles`. */
  lemma CoefficientCounts(tp: TwoPole, d: Design)
    ensures CoefficientsOf(tp, d).status == ArrayIndexOutOfBounds <==> d.poles > 22
    ensures |CoefficientsOf(tp, d).a| == d.poles + 1 && |CoefficientsOf(tp, d).b| == d.poles
  {
  }

  /** `b[j]` is the negated cascaded feedback coefficient of delay `j + 1`. */
  lemma FeedbackCoefficients(tp: TwoPole, d: Design, j: nat)
    requires d.poles <= 20 && j < d.poles
    ensures CoefficientsOf(tp, d).b[j] == -CascadeB(tp, d, d.poles / 2)[j + 3]
  {
    var cb := CascadeB(tp, d, d.poles / 2);
    assert CoefficientsOf(tp, d).b == ShiftB(cb)[1..d.poles + 1];
    assert ShiftB(cb)[j + 1] == -cb[j + 3];
  }

  /** Slots 0 and 1 of the work vectors stay zero through the cascade. */
  lemma {:induction false} LowSlotsStayZero(tp: TwoPole, d: Design, k: nat)
    ensures CascadeA(tp, d, k)[0] == 0.0 && CascadeA(tp, d, k)[1] == 0.0
    ensures CascadeB(tp, d, k)[0] == 0.0 && CascadeB(tp, d, k)[1] == 0.0
    decreases k
  {
    if k > 0 {
      LowSlotsStayZero(tp, d, k - 1);
    }
  }

  /** After `k` sections the vectors hold polynomials of degree `2k` starting
      at slot 2: every slot above `2 + 2k` is zero. */
  lemma {:induction false} CascadeDegree(tp: TwoPole, d: Design, k: nat, i: nat)
    requires 2 + 2 * k < i < Slots
    ensures CascadeA(tp, d, k)[i] == 0.0 && CascadeB(tp, d, k)[i] == 0.0
    decreases k
  {
    if k > 0 {
      CascadeDegree(tp, d, k - 1, i);
      CascadeDegree(tp, d, k - 1, i - 1);
      CascadeDegree(tp, d, k - 1, i - 2);
      var ta := CascadeA(tp, d, k - 1);
      var tb := CascadeB(tp, d, k - 1);
      var s := tp(k, d);
      assert FeedForwardTap(s, ta, i) == 0.0;
      assert FeedbackTap(s, tb, i) == 0.0;
    }
  }

  /** Slots beyond `n` that are zero add nothing to a weighted sum. */
  lemma {:induction false} ZeroTail(t: int, xs: seq<real>, offset: nat, n: nat)
    requires n <= |xs|
    requires forall j :: n <= j < |xs| ==> xs[j] == 0.0
    ensures WeightedSum(t, xs, offset) == WeightedSum(t, xs[..n], offset)
    decreases |xs|
  {
    if |xs| > n {
      var init := xs[..|xs| - 1];
      assert init[..n] == xs[..n];
      assert xs[|xs| - 1] == 0.0;
      ZeroTail(t, init, offset, n);
    } else {
      assert xs[..n] == xs;
    }
  }

  /** A leading zero can be dropped by moving the weights along by one. */
  lemma {:induction false} LeadingZero(t: int, xs: seq<real>, offset: nat)
    requires |xs| > 0 && xs[0] == 0.0
    ensures WeightedSum(t, xs, offset) == WeightedSum(t, xs[1..], offset + 1)
    decreases |xs|
  {
    if |xs| > 1 {
      var init := xs[..|xs| - 1];
      assert init[1..] == xs[1..][..|xs[1..]| - 1];
      LeadingZero(t, init, offset);
    }
  }

  /** Dividing every slot by a finite gain divides the weighted sum by it. */
  lemma {:induction false} SumDivided(t: int, xs: seq<real>, ys: seq<real>, g: real, offset: nat)
    requires g != 0.0 && |xs| == |ys|
    requires forall j :: 0 <= j < |xs| ==> ys[j] == xs[j] / g
    ensures WeightedSum(t, ys, offset) == WeightedSum(t, xs, offset) / g
    decreases |xs|
  {
    if |xs| > 0 {
      var n := |xs| - 1;
      var xi, yi := xs[..n], ys[..n];
      assert forall j :: 0 <= j < |xi| ==> yi[j] == xi[j] / g;
      SumDivided(t, xi, yi, g, offset);
      var x := Weighted(t, offset + n, xs[n]);
      WeightedQuotient(t, offset + n, xs[n], g);
      QuotientsAdd(WeightedSum(t, xi, offset), x, g);
    }
  }

  /** A weight commutes with division by a finite gain. */
  lemma WeightedQuotient(t: int, i: nat, x: real, g: real)
    requires g != 0.0
    ensures Weighted(t, i, x / g) == Weighted(t, i, x) / g
  {
    if !(t == LP || i % 2 == 0) {
      NegatedQuotient(x, g);
    }
  }

  /** `-(x / g) == (-x) / g`. */
  lemma NegatedQuotient(x: real, g: real)
    requires g != 0.0
    ensures -(x / g) == (-x) / g
  {
    assert (-x) / g * g == -x;
  }

  /** `(u + v) / g == u / g + v / g`. */
  lemma QuotientsAdd(u: real, v: real, g: real)
    requires g != 0.0
    ensures (u + v) / g == u / g + v / g
  {
  }

  /** For at most 20 poles the shifted vectors are zero above slot `poles`. */
  lemma ShiftedTailZero(tp: TwoPole, d: Design, j: nat)
    requires d.poles <= 20 && d.poles < j < Shifted
    ensures ShiftedA(tp, d)[j] == 0.0 && ShiftedB(tp, d)[j] == 0.0
  {
    CascadeDegree(tp, d, d.poles / 2, j + 2);
  }

  /** For at most 20 poles the weighted sum of `a` is the normalised sum `sa / gain`. */
  lemma FeedForwardSum(tp: TwoPole, d: Design)
    requires d.poles <= 20 && DesignGain(tp, d).Finite?
    ensures WeightedSum(d.filterType, CoefficientsOf(tp, d).a, 0)
         == WeightedSum(d.filterType, ShiftedA(tp, d)[..Shifted], 0) / DesignGain(tp, d).value
  {
    var t := d.filterType;
    var g := DesignGain(tp, d);
    var ca := ShiftedA(tp, d)[..Shifted];
    var na := Normalised(ShiftedA(tp, d), g)[..Shifted];
    forall j | d.poles < j < Shifted
      ensures na[j] == 0.0
    {
      ShiftedTailZero(tp, d, j);
    }
    ZeroTail(t, na, 0, d.poles + 1);
    assert na[..d.poles + 1] == CoefficientsOf(tp, d).a;
    SumDivided(t, ca, na, g.value, 0);
  }

  /** For at most 20 poles the weighted sum of `b`, weights moved along by
      one, is the feedback sum `sb`. */
  lemma FeedbackSum(tp: TwoPole, d: Design)
    requires d.poles <= 20
    ensures WeightedSum(d.filterType, CoefficientsOf(tp, d).b, 1)
         == WeightedSum(d.filterType, ShiftedB(tp, d)[..Shifted], 0)
  {
    var t := d.filterType;
    var cb := ShiftedB(tp, d);
    forall j | d.poles < j < Shifted
      ensures cb[..Shifted][j] == 0.0
    {
      ShiftedTailZero(tp, d, j);
    }
    ZeroTail(t, cb[..Shifted], 0, d.poles + 1);
    assert cb[..Shifted][..d.poles + 1] == cb[..d.poles + 1];
    LeadingZero(t, cb[..d.poles + 1], 0);
    assert cb[..d.poles + 1][1..] == CoefficientsOf(tp, d).b;
  }

  /** `g * (1 - sb) == sa` with `g != 0` gives `sa / g == 1 - sb`, so sums
      equal to `sa / g` and `sb` add up to one. */
  lemma QuotientOfGain(sa: real, sb: real, g: real, x: real, y: real)
    requires g != 0.0 && g * (1.0 - sb) == sa
    requires x == sa / g && y == sb
    ensures x == 1.0 - y
  {
    var y := sa / g - (1.0 - sb);
    assert sa / g * g == sa;
    assert y * g == 0.0;
    assert y == y * g / g;
  }

  /** Unit gain: for at most 20 poles and a finite gain, the normalised
      coefficients satisfy `sum a_j w_j == 1 - sum b_j w_(j+1)` with
      `w_j = 1` for a low-pass filter (unit gain at zero frequency) and
      `w_j = (-1)^j` for a high-pass filter (unit gain at the Nyquist
      frequency). */
  lemma UnitGain(tp: TwoPole, d: Design)
    requires d.poles <= 20 && CoefficientsOf(tp, d).gain.Finite?
    ensures var c := CoefficientsOf(tp, d);
      WeightedSum(d.filterType, c.a, 0) == 1.0 - WeightedSum(d.filterType, c.b, 1)
  {
    var t := d.filterType;
    var sa := WeightedSum(t, ShiftedA(tp, d)[..Shifted], 0);
    var sb := WeightedSum(t, ShiftedB(tp, d)[..Shifted], 0);
    var g := DesignGain(tp, d);
    assert g == GainOf(sa, sb) && g.Finite?;
    var c := CoefficientsOf(tp, d);
    var x, y := WeightedSum(t, c.a, 0), WeightedSum(t, c.b, 1);
    assert x == sa / g.value by {
      FeedForwardSum(tp, d);
    }
    assert y == sb by {
      FeedbackSum(tp, d);
    }
    QuotientOfGain(sa, sb, g.value, x, y);
  }

  /** With 22 poles the copy into `a` and `b` does not overflow, but their
      top two entries come from work-vector slots 21 and 22, which the shift,
      the negation and the division do not reach: they hold the raw cascade. */
  lemma TwentyTwoPolesKeepTopSlots(tp: TwoPole, d: Design)
    requires d.poles == 22
    ensures var c := CoefficientsOf(tp, d);
      c.status == Completed &&
      c.a[21] == CascadeA(tp, d, d.poles / 2)[21] && c.a[22] == CascadeA(tp, d, d.poles / 2)[22] &&
      c.b[20] == CascadeB(tp, d, d.poles / 2)[21] && c.b[21] == CascadeB(tp, d, d.poles / 2)[22]
  {
    var c := CoefficientsOf(tp, d);
    var ca := CascadeA(tp, d, d.poles / 2);
    var cb := CascadeB(tp, d, d.poles / 2);
    var sa := ShiftA(ca);
    var sb := ShiftB(cb);
    assert sa[21] == ca[21] && sa[22] == ca[22];
    assert sb[21] == cb[21] && sb[22] == cb[22];
    var na := Normalised(sa, DesignGain(tp, d));
    assert na[21] == sa[21] && na[22] == sa[22];
    assert c.a == na[..23] && c.b == sb[1..23];
  }

  /** With no poles the cascade is empty and the filter passes its input
      through: `a == [1]` and `b == []`, for either type. */
  lemma NoPolesPassThrough(tp: TwoPole, d: Design)
    requires d.poles == 0
    ensures CoefficientsOf(tp, d) == Coefficients([1.0], [], Finite(1.0), Completed)
  {
    var t := d.filterType;
    var ca := ShiftA(Seed());
    var cb := ShiftB(Seed());
    ZeroTail(t, ca[..Shifted], 0, 1);
    assert ca[..Shifted][..1] == [1.0];
    assert WeightedSum(t, [1.0], 0) == 1.0 by {
      assert [1.0][..0] == [];
    }
    ZeroTail(t, cb[..Shifted], 0, 0);
    assert cb[..Shifted][..0] == [];
  }

  /** One pass of the cascade loop: copy the work arrays into `ta` and `tb`,
      then multiply slots 2 to 22 by section `s`. */
  method MultiplySection(s: Section, ca: array<real>, cb: array<real>, ta: array<real>, tb: array<real>)
    requires ca.Length == Slots && cb.Length == Slots && ta.Length == Slots && tb.Length == Slots
    requires ca != cb && ca != ta && ca != tb && cb != ta && cb != tb && ta != tb
    modifies ca, cb, ta, tb
    ensures ca[..] == FeedForwardStep(s, old(ca[..])) && cb[..] == FeedbackStep(s, old(cb[..]))
  {
    forall i | 0 <= i < Slots {
      ta[i] := ca[i];
    }
    forall i | 0 <= i < Slots {
      tb[i] := cb[i];
    }
    assert ta[..] == old(ca[..]) && tb[..] == old(cb[..]);
    var i := 2;
    while i < Slots
      invariant 2 <= i <= Slots
      invariant ta[..] == old(ca[..]) && tb[..] == old(cb[..])
      invariant forall j :: 0 <= j < i ==> ca[j] == FeedForwardStep(s, ta[..])[j]
      invariant forall j :: 0 <= j < i ==> cb[j] == FeedbackStep(s, tb[..])[j]
    {
      ca[i] := FeedForwardTap(s, ta[..], i);
      cb[i] := FeedbackTap(s, tb[..], i);
      i := i + 1;
    }
    assert ca[..] == FeedForwardStep(s, ta[..]);
    assert cb[..] == FeedbackStep(s, tb[..]);
  }

  /** A fresh work vector holding the seed. */
  method NewSeeded() returns (v: array<real>)
    ensures fresh(v) && v[..] == Seed()
  {
    v := new real[Slots](_ => 0.0);
    v[2] := 1.0;
    assert forall j :: 0 <= j < Slots ==> v[..][j] == Seed()[j];
  }

  /** The cascade loop of `calcCoeff`: seeds the work arrays `ca` and `cb`,
      then multiplies them by sections 1 to `poles / 2`. */
  method CascadeSections(tp: TwoPole, d: Design) returns (ca: array<real>, cb: array<real>)
    ensures fresh(ca) && fresh(cb) && ca != cb
    ensures ca[..] == CascadeA(tp, d, d.poles / 2) && cb[..] == CascadeB(tp, d, d.poles / 2)
  {
    ca := NewSeeded();
    cb := NewSeeded();
    var ta := new real[Slots];
    var tb := new real[Slots];
    var p := 1;
    while p <= d.poles / 2
      invariant 1 <= p <= d.poles / 2 + 1
      invariant ca[..] == CascadeA(tp, d, p - 1) && cb[..] == CascadeB(tp, d, p - 1)
    {
      MultiplySection(tp(p, d), ca, cb, ta, tb);
      p := p + 1;
    }
  }

  /** The shift of `calcCoeff`, in place: slot 2 of `cb` is cleared, then
      both vectors move down two slots and `cb` is negated. */
  method ShiftDown(ca: array<real>, cb: array<real>)
    requires ca.Length == Slots && cb.Length == Slots && ca != cb
    modifies ca, cb
    ensures ca[..] == ShiftA(old(ca[..])) && cb[..] == ShiftB(old(cb[..]))
  {
    ghost var fa := ca[..];
    ghost var fb := cb[..];
    cb[2] := 0.0;
    ghost var cleared := cb[..];
    assert cleared == fb[2 := 0.0];
    var i := 0;
    while i < Shifted
      invariant 0 <= i <= Shifted
      invariant forall j :: 0 <= j < i ==> ca[j] == fa[j + 2]
      invariant forall j :: i <= j < Slots ==> ca[j] == fa[j]
      invariant forall j :: 0 <= j < i ==> cb[j] == -cleared[j + 2]
      invariant forall j :: i <= j < Slots ==> cb[j] == cleared[j]
    {
      ca[i] := ca[i + 2];
      cb[i] := -cb[i + 2];
      i := i + 1;
    }
    assert ca[..] == ShiftA(fa) by {
      assert forall j :: 0 <= j < Slots ==> ca[..][j] == ShiftA(fa)[j];
    }
    assert cb[..] == ShiftB(fb) by {
      assert forall j :: 0 <= j < Slots ==> cb[..][j] == ShiftB(fb)[j];
    }
  }

  /** The gain sums of `calcCoeff` over the low `Shifted` slots. */
  method SumSlots(t: int, xs: array<real>) returns (sum: real)
    requires xs.Length == Slots
    ensures sum == WeightedSum(t, xs[..Shifted], 0)
  {
    sum := 0.0;
    var i := 0;
    while i < Shifted
      invariant 0 <= i <= Shifted
      invariant sum == WeightedSum(t, xs[..i], 0)
    {
      assert xs[..i + 1][..i] == xs[..i];
      sum := sum + Weighted(t, i, xs[i]);
      i := i + 1;
    }
  }

  /** The division of the low `Shifted` slots by the gain, in place. */
  method DivideByGain(ca: array<real>, gain: Gain)
    requires ca.Length == Slots && (gain.Finite? ==> gain.value != 0.0)
    modifies ca
    ensures ca[..] == Normalised(old(ca[..]), gain)
  {
    var i := 0;
    while i < Shifted
      invariant 0 <= i <= Shifted
      invariant forall j :: 0 <= j < i ==> ca[j] == Divided(old(ca[j]), gain)
      invariant forall j :: i <= j < Slots ==> ca[j] == old(ca[j])
    {
      ca[i] := Divided(ca[i], gain);
      i := i + 1;
    }
    assert ca[..] == Normalised(old(ca[..]), gain);
  }

  /** The body of `calcCoeff` once computation is enabled: cascade, shift,
      gain normalisation and the copy into fresh coefficient arrays. */
  method ComputeCoefficients(tp: TwoPole, d: Design) returns (a: seq<real>, b: seq<real>, status: Status)
    ensures a == CoefficientsOf(tp, d).a && b == CoefficientsOf(tp, d).b
    ensures status == CoefficientsOf(tp, d).status
  {
    var ca, cb := CascadeSections(tp, d);
    ShiftDown(ca, cb);
    var sa := SumSlots(d.filterType, ca);
    var sb := SumSlots(d.filterType, cb);
    var gain := GainOf(sa, sb);
    DivideByGain(ca, gain);
    if d.poles + 1 > Slots {
      a := seq(d.poles + 1, _ => 0.0);
      b := seq(d.poles, _ => 0.0);
      status := ArrayIndexOutOfBounds;
      return;
    }
    a := ca[..d.poles + 1];
    b := cb[1..d.poles + 1];
    status := Completed;
  }

  /** The Chebyshev filter as an object whose setters update its fields in
      place and recompute the coefficients. */
  class ChebFilter {
    /** The section calculation, fixed for the filter's lifetime. */
    const twoPole: TwoPole
    /** The cutoff frequency and sample rate kept by the IIR filter base. */
    var frequency: real
    var sampleRate: real
    var filterType: int
    var poles: nat
    var ripple: real
    var canCalc: bool
    /** The IIR coefficients the filter's `process` reads. */
    var a: seq<real>
    var b: seq<real>
    /** The diagnostics reported so far. */
    ghost var errors: seq<Diagnostic>

    function Current(): Design
      reads this
    {
      Design(filterType, poles, ripple, frequency, sampleRate)
    }

    /** What the coefficients are once computation is enabled. */
    predicate Calculated(status: Status)
      reads this
    {
      var c := CoefficientsOf(twoPole, Current());
      a == c.a && b == c.b && status == c.status
    }

    /** The canCalc protocol: the setters run with computation disabled, then
        one calculation fills `a` and `b`. A pole count of 24 or more makes
        that calculation throw, so no filter is constructed for it. */
    constructor (twoPole: TwoPole, frequency: real, filterType: int, ripple: real, poles: int, sampleRate: real)
      requires !(poles > 22 && poles % 2 == 0)
      ensures this.twoPole == twoPole && this.frequency == frequency && this.sampleRate == sampleRate
      ensures this.filterType == ValidType(filterType) && this.ripple == ripple
      ensures this.poles == StoredPoles(0, poles) && canCalc
      ensures errors == TypeDiagnostics(filterType) + PoleDiagnostics(poles)
      ensures Calculated(Completed)
      ensures !PolesAccepted(poles) ==> a == [1.0] && b == []
    {
      this.twoPole := twoPole;
      this.frequency := frequency;
      this.sampleRate := sampleRate;
      this.filterType := 0;
      this.poles := 0;
      this.ripple := 0.0;
      this.canCalc := false;
      this.a := [];
      this.b := [];
      this.errors := [];
      new;
      var status := SetType(filterType);
      status := SetRipple(ripple);
      status := SetPoles(poles);
      canCalc := true;
      status := CalcCoeff();
      if !PolesAccepted(poles) {
        NoPolesPassThrough(twoPole, Current());
      }
    }

    /** `calcCoeff`: empty coefficients while computation is disabled,
        otherwise the coefficients of the current design, or the exception
        raised when `poles + 1` exceeds the work vectors. */
    method CalcCoeff() returns (status: Status)
      modifies this
      ensures canCalc == old(canCalc) && Current() == old(Current()) && errors == old(errors)
      ensures !canCalc ==> a == [] && b == [] && status == Completed
      ensures canCalc ==> Calculated(status)
    {
      a := [];
      b := [];
      if !canCalc {
        return Completed;
      }
      a, b, status := ComputeCoefficients(twoPole, Current());
    }

    /** `setType`: an unknown type is reported and replaced by low pass. */
    method SetType(t: int) returns (status: Status)
      modifies this
      ensures filterType == ValidType(t)
      ensures poles == old(poles) && ripple == old(ripple) && canCalc == old(canCalc)
      ensures frequency == old(frequency) && sampleRate == old(sampleRate)
      ensures errors == old(errors) + TypeDiagnostics(t)
      ensures !canCalc ==> a == [] && b == [] && status == Completed
      ensures canCalc ==> Calculated(status)
    {
      var t' := t;
      if t' != LP && t' != HP {
        errors := errors + [InvalidType];
        t' := LP;
      }
      filterType := t';
      status := CalcCoeff();
    }

    method SetRipple(r: real) returns (status: Status)
      modifies this
      ensures ripple == r
      ensures filterType == old(filterType) && poles == old(poles) && canCalc == old(canCalc)
      ensures frequency == old(frequency) && sampleRate == old(sampleRate)
      ensures errors == old(errors)
      ensures !canCalc ==> a == [] && b == [] && status == Completed
      ensures canCalc ==> Calculated(status)
    {
      ripple := r;
      status := CalcCoeff();
    }

    /** `setPoles`: a count below 2 or odd is reported and ignored, leaving
        the coefficients as they were; a count above 20 is reported but
        stored. */
    method SetPoles(p: int) returns (status: Status)
      modifies this
      ensures poles == StoredPoles(old(poles), p)
      ensures filterType == old(filterType) && ripple == old(ripple) && canCalc == old(canCalc)
      ensures frequency == old(frequency) && sampleRate == old(sampleRate)
      ensures errors == old(errors) + PoleDiagnostics(p)
      ensures !PolesAccepted(p) ==> a == old(a) && b == old(b) && status == Completed
      ensures PolesAccepted(p) && !canCalc ==> a == [] && b == [] && status == Completed
      ensures PolesAccepted(p) && canCalc ==> Calculated(status)
    {
      if p < 2 {
        errors := errors + [TooFewPoles];
        return Completed;
      }
      if p % 2 != 0 {
        errors := errors + [OddPoles];
        return Completed;
      }
      if p > 20 {
        errors := errors + [TooManyPoles];
      }
      poles := p as nat;
      status := CalcCoeff();
    }
  }
}
