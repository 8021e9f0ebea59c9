/** Who pays what on a claim: two half-even roundings of real amounts
    (backend/libs/policy/rules.py:227, 269-296, 390-408). */
module Settlements {
  import opened Options

  /** Decimal's default rounding: to the nearest, a tie to the even neighbour. */
  function HalfEven(y: real): int {
    var f := y.Floor;
    if y - f as real < 0.5 then f
    else if y - f as real > 0.5 then f + 1
    else if f % 2 == 0 then f else f + 1
  }

  function Cents(x: real): int { HalfEven(x * 100.0) }

  /** quantize(Decimal("0.01")). */
  function Quantize(x: real): real { Cents(x) as real / 100.0 }

  predicate WholeCents(x: real) { x == (x * 100.0).Floor as real / 100.0 }

  datatype Settlement = Settlement(
    claimed: real, deductible: real, limit: Option<real>, insurerPays: real, policyholderPays: real)

  function Min(a: real, b: real): real { if a <= b then a else b }

  function OrZero(x: Option<real>): real { if x.Some? then x.value else 0.0 }

  /** What the deductible leaves of the loss, in whole cents. */
  function Eligible(claimed: real, deductible: Option<real>): real {
    var left := Quantize(claimed) - Quantize(OrZero(deductible));
    if left > 0.0 then left else 0.0
  }

  /** The insurer's share before it is rounded. */
  function Share(claimed: real, limit: Option<real>, deductible: Option<real>): real {
    var eligible := Eligible(claimed, deductible);
    if limit == None then eligible else Min(eligible, limit.value)
  }

  function Settle(claimed: real, limit: Option<real>, deductible: Option<real>): Settlement {
    var insurer := Share(claimed, limit, deductible);
    Settlement(Quantize(claimed), Quantize(OrZero(deductible)),
               if limit == None then None else Some(Quantize(limit.value)),
               Quantize(insurer), Quantize(Quantize(claimed) - insurer))
  }

  function AppliedDeductible(s: Settlement): real { Quantize(Min(s.deductible, s.claimed)) }

  function Excess(s: Settlement): real { Quantize(s.policyholderPays - AppliedDeductible(s)) }

  predicate AboveLimit(s: Settlement) { s.limit.Some? && s.claimed - s.deductible > s.limit.value }

  // ---------------------------------------------------------------- rounding

  lemma HalfEvenOfWhole(k: int)
    ensures HalfEven(k as real) == k
  {
  }

  lemma HalfEvenGrows(a: real, b: real)
    requires a <= b
    ensures HalfEven(a) <= HalfEven(b)
  {
    assert a.Floor <= b.Floor;
  }

  lemma InCents(k: int)
    ensures Cents(k as real / 100.0) == k && Quantize(k as real / 100.0) == k as real / 100.0 && WholeCents(k as real / 100.0)
  {
    assert k as real / 100.0 * 100.0 == k as real;
    HalfEvenOfWhole(k);
  }

  /** A whole number of cents is rounded to itself, and so are sums of them. */
  lemma WholeStays(x: real)
    requires WholeCents(x)
    ensures Quantize(x) == x && Cents(x) as real == x * 100.0
  {
    InCents((x * 100.0).Floor);
  }

  lemma QuantizedIsWhole(x: real)
    ensures WholeCents(Quantize(x)) && Cents(Quantize(x)) == Cents(x)
  {
    InCents(Cents(x));
  }

  lemma WholeDiffers(x: real, y: real)
    requires WholeCents(x) && WholeCents(y)
    ensures WholeCents(x - y)
  {
    var a, b := (x * 100.0).Floor, (y * 100.0).Floor;
    assert x - y == (a - b) as real / 100.0;
    InCents(a - b);
  }

  predicate IsTie(y: real) { y - y.Floor as real == 0.5 }

  /** Rounding the two parts of a whole number separately: the parts add up
      unless both are ties and the whole is odd, and never miss by more than one. */
  lemma PartsAddUpIff(whole: int, part: real)
    ensures HalfEven(part) + HalfEven(whole as real - part) == whole <==> !IsTie(part) || whole % 2 == 0
    ensures -1 <= HalfEven(part) + HalfEven(whole as real - part) - whole <= 1
  {
    var f, rest := part.Floor, whole as real - part;
    if part == f as real {
      assert rest.Floor == whole - f;
    } else {
      assert rest.Floor == whole - f - 1;
      assert IsTie(part) ==> (whole - f - 1) % 2 == (whole % 2 + f % 2 + 1) % 2;
    }
  }

  // ------------------------------------------------------------ main results

  lemma EligibleIsWhole(claimed: real, deductible: Option<real>)
    ensures WholeCents(Eligible(claimed, deductible))
  {
    hide WholeCents, Quantize;
    QuantizedIsWhole(claimed);
    QuantizedIsWhole(OrZero(deductible));
    WholeDiffers(Quantize(claimed), Quantize(OrZero(deductible)));
    ZeroIsWhole();
  }

  lemma ZeroIsWhole()
    ensures WholeCents(0.0) && Quantize(0.0) == 0.0
  {
    InCents(0);
  }

  /** Whether the limit is what the insurer pays and lies midway between cents. */
  predicate LimitTies(claimed: real, limit: Option<real>, deductible: Option<real>) {
    limit.Some? && limit.value < Eligible(claimed, deductible) && IsTie(limit.value * 100.0)
  }

  /** The shares sum to the claim exactly, for every claim, limit and deductible,
      unless the limit applies, ties between two cents, and the claim is an odd
      number of cents; then they are one cent off. */
  lemma SharesSumIff(claimed: real, limit: Option<real>, deductible: Option<real>)
    ensures var s := Settle(claimed, limit, deductible);
      (s.insurerPays + s.policyholderPays == s.claimed <==> !LimitTies(claimed, limit, deductible) || Cents(claimed) % 2 == 0)
    ensures var s := Settle(claimed, limit, deductible); -0.01 <= s.insurerPays + s.policyholderPays - s.claimed <= 0.01
  {
    hide HalfEven;
    var s, share, c := Settle(claimed, limit, deductible), Share(claimed, limit, deductible), Cents(claimed);
    EligibleIsWhole(claimed, deductible);
    NoTieInWhole(Eligible(claimed, deductible));
    PartsAddUpIff(c, share * 100.0);
    assert (Quantize(claimed) - share) * 100.0 == c as real - share * 100.0;
    assert s.insurerPays == HalfEven(share * 100.0) as real / 100.0;
    assert s.policyholderPays == HalfEven(c as real - share * 100.0) as real / 100.0;
    assert IsTie(share * 100.0) <==> LimitTies(claimed, limit, deductible);
  }

  lemma NoTieInWhole(x: real)
    requires WholeCents(x)
    ensures !IsTie(x * 100.0)
  {
    var k := (x * 100.0).Floor;
    assert x * 100.0 == k as real;
  }

  predicate WholeLimit(limit: Option<real>) { limit.Some? ==> WholeCents(limit.value) }

  /** With a limit in whole cents nothing is rounded at all. */
  lemma NothingIsRounded(claimed: real, limit: Option<real>, deductible: Option<real>)
    requires WholeLimit(limit)
    ensures var s := Settle(claimed, limit, deductible); var share := Share(claimed, limit, deductible);
      s.insurerPays == share && s.policyholderPays == s.claimed - share && s.limit == limit
      && WholeCents(s.claimed) && WholeCents(s.deductible) && WholeCents(s.policyholderPays)
  {
    hide WholeCents, Quantize, Eligible;
    var share := Share(claimed, limit, deductible);
    EligibleIsWhole(claimed, deductible);
    assert WholeCents(share);
    WholeStays(share);
    QuantizedIsWhole(claimed);
    QuantizedIsWhole(OrZero(deductible));
    WholeDiffers(Quantize(claimed), share);
    WholeStays(Quantize(claimed) - share);
    if limit.Some? { WholeStays(limit.value); }
  }

  /** The shares of a claim under whole-cent terms: they sum to it, neither is
      negative, and the insurer's never passes the limit. */
  lemma SharesAreSound(claimed: real, limit: Option<real>, deductible: Option<real>)
    requires WholeLimit(limit) && claimed >= 0.0 && OrZero(deductible) >= 0.0 && (limit.Some? ==> limit.value >= 0.0)
    ensures var s := Settle(claimed, limit, deductible);
      && s.insurerPays + s.policyholderPays == s.claimed
      && s.insurerPays >= 0.0 && s.policyholderPays >= 0.0
      && (limit.Some? ==> s.insurerPays <= limit.value)
  {
    hide Quantize, WholeCents;
    NothingIsRounded(claimed, limit, deductible);
    NotNegative(claimed);
    NotNegative(OrZero(deductible));
  }

  lemma NotNegative(x: real)
    requires x >= 0.0
    ensures Quantize(x) >= 0.0
  {
    HalfEvenGrows(0.0, x * 100.0);
  }

  /** A larger claim never pays out less. */
  lemma InsurerShareGrows(less: real, more: real, limit: Option<real>, deductible: Option<real>)
    requires less <= more
    ensures Settle(less, limit, deductible).insurerPays <= Settle(more, limit, deductible).insurerPays
  {
    hide HalfEven;
    HalfEvenGrows(less * 100.0, more * 100.0);
    assert Share(less, limit, deductible) <= Share(more, limit, deductible);
    HalfEvenGrows(Share(less, limit, deductible) * 100.0, Share(more, limit, deductible) * 100.0);
  }

  /** The excess is positive exactly when the cap is what cut the payment. */
  lemma ExcessIffAboveLimit(claimed: real, limit: Option<real>, deductible: Option<real>)
    requires WholeLimit(limit) && claimed >= 0.0 && OrZero(deductible) >= 0.0 && (limit.Some? ==> limit.value >= 0.0)
    ensures var s := Settle(claimed, limit, deductible);
      Excess(s) > 0.0 <==> AboveLimit(s)
    ensures var s := Settle(claimed, limit, deductible);
      s.policyholderPays == AppliedDeductible(s) + Excess(s)
  {
    hide Quantize, WholeCents;
    var s := Settle(claimed, limit, deductible);
    NothingIsRounded(claimed, limit, deductible);
    NotNegative(claimed);
    NotNegative(OrZero(deductible));
    WholeStays(Min(s.deductible, s.claimed));
    WholeDiffers(s.policyholderPays, Min(s.deductible, s.claimed));
    WholeStays(s.policyholderPays - Min(s.deductible, s.claimed));
  }

  // ------------------------------------------------------ who pays how much

  /** Terms in whole cents, none of them negative. */
  predicate PlainTerms(claimed: real, limit: Option<real>, deductible: Option<real>) {
    && claimed >= 0.0 && WholeCents(claimed)
    && (limit.Some? ==> limit.value >= 0.0 && WholeCents(limit.value))
    && (deductible.Some? ==> deductible.value >= 0.0 && WholeCents(deductible.value))
  }

  /** The split to the cent. Above the cap, once the deductible is off, the insurer
      pays the limit and the policyholder the rest; otherwise the policyholder pays
      the deductible, or the whole loss if that is less, and the insurer the rest. */
  lemma WhoPaysWhat(claimed: real, limit: Option<real>, deductible: Option<real>)
    requires PlainTerms(claimed, limit, deductible)
    ensures var s := Settle(claimed, limit, deductible); var off := if deductible.Some? then deductible.value else 0.0;
      && s.claimed == claimed && s.deductible == off && s.limit == limit
      && (if limit.Some? && claimed - off > limit.value
          then s.insurerPays == limit.value && s.policyholderPays == claimed - limit.value
          else s.policyholderPays == (if off <= claimed then off else claimed) && s.insurerPays == claimed - s.policyholderPays)
  {
    hide Quantize, WholeCents;
    NothingIsRounded(claimed, limit, deductible);
    WholeStays(claimed);
    ZeroIsWhole();
    if deductible.Some? { WholeStays(deductible.value); }
  }

  /** Any terms are first taken to the nearest cent, a claim as well as a deductible. */
  lemma NearestCent(x: real)
    ensures WholeCents(Quantize(x)) && -0.005 <= Quantize(x) - x <= 0.005
    ensures x * 100.0 - (x * 100.0).Floor as real == 0.5 ==> Cents(x) % 2 == 0
  {
    QuantizedIsWhole(x);
  }

  /** What is above the deductible and over the cap is the excess, and there is none
      where the cap does not bite. */
  lemma ExcessIs(claimed: real, limit: Option<real>, deductible: Option<real>)
    requires PlainTerms(claimed, limit, deductible)
    ensures var s := Settle(claimed, limit, deductible); var off := if deductible.Some? then deductible.value else 0.0;
      && AppliedDeductible(s) == (if off <= claimed then off else claimed)
      && Excess(s) == (if limit.Some? && claimed - off > limit.value then claimed - off - limit.value else 0.0)
  {
    hide Quantize, WholeCents;
    WhoPaysWhat(claimed, limit, deductible);
    ZeroIsWhole();
    var s := Settle(claimed, limit, deductible);
    assert WholeCents(Min(s.deductible, s.claimed));
    WholeStays(Min(s.deductible, s.claimed));
    if limit.Some? { WholeDiffers(claimed, limit.value); }
    WholeDiffers(s.policyholderPays, Min(s.deductible, s.claimed));
    WholeStays(s.policyholderPays - Min(s.deductible, s.claimed));
  }
}
