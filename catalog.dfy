/** The membership catalogue: the abstract `Membership` record and its three
    tiers, Monthly, Annual and VIP. A tier fixes the duration, the discount rate
    and the benefits text; the class hierarchy becomes the `Tier` tag. */
module Catalog {
  import opened Common

  datatype Tier = Monthly | Annual | Vip

  /** Each tier's `DISCOUNT_RATE` constant. */
  function DiscountRate(t: Tier): (rate: real)
    ensures 0.0 <= rate < 1.0
    ensures t == Monthly <==> rate == 0.0
  {
    match t
    case Monthly => 0.0
    case Annual => 0.15
    case Vip => 0.25
  }

  /** The duration the tier's constructors give. */
  function TierDuration(t: Tier): (months: int)
    ensures months == 1 || months == 12
    ensures months == 1 <==> t == Monthly
  {
    if t == Monthly then 1 else 12
  }

  /** `getBenefits`: a fixed text per tier, independent of every field. */
  function Benefits(t: Tier): (text: string)
    ensures |text| > 0
  {
    match t
    case Monthly => "Basic gym access, locker room, standard equipment"
    case Annual => "Full gym access, locker room, all equipment, 1 free personal training session per month"
    case Vip => "All gym access, VIP locker room, premium equipment, unlimited personal training, spa access, nutrition consultation"
  }

  /** The value of a Membership object: its tier and its four fields.
      `name` is None while the Java field is null. */
  datatype Plan = Plan(tier: Tier, id: int, name: Option<string>, price: real, durationMonths: int)

  /** What the tier's no-argument constructor builds. */
  function DefaultPlan(t: Tier): (p: Plan)
    ensures p.tier == t && p.price == 0.0 && p.name == None
    ensures p.durationMonths == TierDuration(t)
  {
    Plan(t, 0, None, 0.0, TierDuration(t))
  }

  /** `calculateDiscount`: an absolute amount, the price times the tier's rate. */
  function Discount(p: Plan): (d: real)
    ensures p.tier == Monthly ==> d == 0.0
    ensures p.price >= 0.0 ==> 0.0 <= d <= p.price
    ensures p.price > 0.0 && p.tier != Monthly ==> 0.0 < d < p.price
  {
    p.price * DiscountRate(p.tier)
  }

  /** `MembershipService.calculateMembershipPrice`, kept exactly as written:
      the absolute discount is subtracted from 1 as though it were a rate. */
  function MembershipPrice(p: Plan): real {
    p.price * (1.0 - Discount(p))
  }

  /** The discount scales linearly with the price. */
  lemma DiscountScales(p: Plan, k: real)
    ensures Discount(p.(price := k * p.price)) == k * Discount(p)
  {
  }

  /** For one non-negative price the VIP discount is at least the Annual one,
      which is at least the Monthly one. */
  lemma DiscountOrder(p: Plan)
    requires p.price >= 0.0
    ensures Discount(p.(tier := Monthly)) <= Discount(p.(tier := Annual)) <= Discount(p.(tier := Vip))
  {
    var a := p.(tier := Annual);
    var v := p.(tier := Vip);
    assert Discount(a) == p.price * 0.15;
    assert Discount(v) == p.price * 0.25;
  }

  /** A Monthly tier is charged exactly its price. */
  lemma MonthlyPriceIsPrice(p: Plan)
    requires p.tier == Monthly
    ensures MembershipPrice(p) == p.price
  {
  }

  /** The formula is quadratic in the price: price - price^2 * rate. */
  lemma PriceFormula(p: Plan)
    ensures MembershipPrice(p) == p.price - p.price * p.price * DiscountRate(p.tier)
  {
    calc {
      MembershipPrice(p);
      p.price * (1.0 - p.price * DiscountRate(p.tier));
      p.price - p.price * (p.price * DiscountRate(p.tier));
    }
  }

  /** The recorded defect: an Annual tier priced 1000 costs -149000. */
  lemma AnnualThousandPrice(p: Plan)
    requires p.tier == Annual && p.price == 1000.0
    ensures Discount(p) == 150.0
    ensures MembershipPrice(p) == -149000.0
  {
  }

  /** For an Annual or VIP tier the charged price falls below the list price
      for every positive price, and below zero once price * rate exceeds 1. */
  lemma DiscountedTierPriceBelowList(p: Plan)
    requires p.tier != Monthly && p.price > 0.0
    ensures MembershipPrice(p) < p.price
    ensures Discount(p) > 1.0 ==> MembershipPrice(p) < 0.0
  {
    PriceFormula(p);
    assert p.price * p.price * DiscountRate(p.tier) > 0.0;
    if Discount(p) > 1.0 {
      assert 1.0 - Discount(p) < 0.0;
      assert MembershipPrice(p) == p.price * (1.0 - Discount(p));
    }
  }

  /** A Membership object (`Membership` with its subclass fixed at creation). */
  class Membership {
    const tier: Tier
    var id: int
    var name: Option<string>
    var price: real
    var durationMonths: int

    function Value(): (p: Plan)
      reads this
      ensures p.tier == tier && p.id == id && p.name == name
      ensures p.price == price && p.durationMonths == durationMonths
    {
      Plan(tier, id, name, price, durationMonths)
    }

    /** The tier's no-argument constructor: only the duration is set. */
    constructor Default(t: Tier)
      ensures Value() == DefaultPlan(t)
    {
      tier := t;
      id := 0;
      name := None;
      price := 0.0;
      durationMonths := TierDuration(t);
    }

    /** The tier's three-argument constructor, which passes the tier's duration
        to the base constructor. */
    constructor Create(t: Tier, id: int, name: string, price: real)
      ensures tier == t && this.id == id && this.name == Some(name) && this.price == price
      ensures durationMonths == TierDuration(t)
    {
      tier := t;
      this.id := id;
      this.name := Some(name);
      this.price := price;
      durationMonths := TierDuration(t);
    }

    method SetId(id: int)
      modifies this
      ensures Value() == old(Value()).(id := id)
    {
      this.id := id;
    }

    method SetName(name: Option<string>)
      modifies this
      ensures Value() == old(Value()).(name := name)
    {
      this.name := name;
    }

    method SetPrice(price: real)
      modifies this
      ensures Value() == old(Value()).(price := price)
    {
      this.price := price;
    }

    method SetDurationMonths(months: int)
      modifies this
      ensures Value() == old(Value()).(durationMonths := months)
    {
      durationMonths := months;
    }

    function CalculateDiscount(): (d: real)
      reads this
      ensures d == Discount(Value())
    {
      price * DiscountRate(tier)
    }

    /** `getBenefits`: the tier's fixed text. It has no `reads` clause, so the
        text cannot depend on the id, name, price or duration of the object. */
    function GetBenefits(): (text: string)
      ensures text == Benefits(tier)
    {
      Benefits(tier)
    }
  }
}
