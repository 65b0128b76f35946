/**
 * The checkout page: a plan (Pro or Ultra), an optional coupon from a fixed
 * table, and the price arithmetic in paise (1/100 rupee): the discounted
 * price, 18% GST rounded down, and the total. A total of zero activates the
 * plan without the payment gateway.
 *
 * GST is written `Math.floor(finalPrice * 0.18)` in floating point; here it
 * is the integer `finalPrice * 18 / 100`, which agrees with it for every
 * price the page can produce (at most 39900 paise, far below where the
 * rounding of 0.18 could move the floor).
 */
module Payment {
  import opened Wrappers
  import opened Text

  datatype Plan = ProPlan | UltraPlan

  function PlanTag(p: Plan): string {
    match p
    case ProPlan => "pro"
    case UltraPlan => "ultra"
  }

  /** The monthly price in paise. */
  function Price(p: Plan): nat {
    match p
    case ProPlan => 19900
    case UltraPlan => 39900
  }

  datatype CouponKind = Percentage | Fixed

  datatype CouponData = CouponData(discount: nat, kind: CouponKind)

  /** The coupon table; every entry is a percentage. */
  const ValidCoupons: map<string, CouponData> := map[
    "JAINN50" := CouponData(50, Percentage),
    "WELCOME25" := CouponData(25, Percentage),
    "EARLY100" := CouponData(100, Percentage),
    "LAUNCH2025" := CouponData(30, Percentage),
    "ULTRA50" := CouponData(50, Percentage),
    "FREEPRO" := CouponData(100, Percentage)]

  /** The coupon the page shows as applied. */
  datatype AppliedCoupon = AppliedCoupon(code: string, discount: nat, kind: CouponKind)

  /** An applied coupon is always a table entry with that entry's discount and kind. */
  predicate CouponValid(c: Option<AppliedCoupon>) {
    c.Some? ==> c.value.code in ValidCoupons && ValidCoupons[c.value.code] == CouponData(c.value.discount, c.value.kind)
  }

  const EmptyCodeError := "Please enter a coupon code"
  const InvalidCodeError := "Invalid coupon code"

  /** How `applyCoupon` reads the typed code: upper-cased, then trimmed. */
  function NormalisedCode(typed: string): string {
    Trim(Upper(typed))
  }

  /** Case and surrounding blanks do not matter: " jainn50 " is read as the table's "JAINN50". */
  lemma CodeNormalisation()
    ensures NormalisedCode(" jainn50 ") == "JAINN50" && "JAINN50" in ValidCoupons
  {
    assert Upper(" jainn50 ") == " JAINN50 ";
    assert TrimStart(" JAINN50 ") == "JAINN50 ";
    assert TrimEnd("JAINN50 ") == "JAINN50";
  }

  function Max0(x: int): nat {
    if x < 0 then 0 else x
  }

  /**
   * `calculateFinalPrice`: the plan price without a coupon; with one, the
   * table's discount taken off, never below zero and never above the price.
   */
  function FinalPrice(plan: Plan, coupon: Option<AppliedCoupon>): (r: nat)
    requires CouponValid(coupon)
    ensures r <= Price(plan)
    ensures coupon.None? ==> r == Price(plan)
  {
    if coupon.None? then Price(plan)
    else
      var d := ValidCoupons[coupon.value.code];
      if d.kind == Percentage then Max0(Price(plan) - Price(plan) * d.discount / 100)
      else Max0(Price(plan) - d.discount * 100)
  }

  function Savings(plan: Plan, coupon: Option<AppliedCoupon>): (r: nat)
    requires CouponValid(coupon)
    ensures r + FinalPrice(plan, coupon) == Price(plan)
  {
    Price(plan) - FinalPrice(plan, coupon)
  }

  /** 18% GST of an amount in paise, rounded down. */
  function Gst(amount: nat): (r: nat)
    ensures 100 * r <= 18 * amount < 100 * r + 100
  {
    amount * 18 / 100
  }

  function Total(plan: Plan, coupon: Option<AppliedCoupon>): (r: nat)
    requires CouponValid(coupon)
    ensures FinalPrice(plan, coupon) <= r
  {
    FinalPrice(plan, coupon) + Gst(FinalPrice(plan, coupon))
  }

  predicate IsFree(plan: Plan, coupon: Option<AppliedCoupon>)
    requires CouponValid(coupon)
  {
    Total(plan, coupon) == 0
  }

  /**
   * The checkout is free exactly when the applied coupon takes 100% off,
   * i.e. it is EARLY100 or FREEPRO, on either plan; then price, GST and
   * total are all zero.
   */
  lemma {:induction false} FreeExactlyWithFullDiscount(plan: Plan, coupon: Option<AppliedCoupon>)
    requires CouponValid(coupon)
    ensures IsFree(plan, coupon) <==> coupon.Some? && coupon.value.code in {"EARLY100", "FREEPRO"}
    ensures IsFree(plan, coupon) ==>
      FinalPrice(plan, coupon) == 0 && Gst(FinalPrice(plan, coupon)) == 0 && Savings(plan, coupon) == Price(plan)
  {
    if coupon.Some? {
      var code := coupon.value.code;
      assert code in {"JAINN50", "WELCOME25", "EARLY100", "LAUNCH2025", "ULTRA50", "FREEPRO"};
    }
  }

  /** The half-price coupon on the Pro plan: 99.50 rupees, 17.91 GST, 117.41 to pay. */
  lemma HalfPricePro()
    ensures var c := Some(AppliedCoupon("JAINN50", 50, Percentage));
      FinalPrice(ProPlan, c) == 9950 && Gst(FinalPrice(ProPlan, c)) == 1791 && Total(ProPlan, c) == 11741
  {
  }

  /** The total without a coupon: the price plus its GST, never free. */
  lemma NoCouponTotal(plan: Plan)
    ensures Total(plan, None) == Price(plan) + Price(plan) * 18 / 100
    ensures !IsFree(plan, None)
  {
  }

  /** What the pay button starts: free activation, or the gateway for the total. */
  datatype PaymentStart =
    | FreeActivation(plan: Plan, wasFree: bool)
    | Gateway(plan: Plan, amount: nat, couponNote: string)

  class Checkout {
    var selectedPlan: Plan
    var couponCode: string
    var appliedCoupon: Option<AppliedCoupon>
    var couponError: string
    var processing: bool

    /** The page's invariant: the applied coupon is a table entry. */
    predicate Valid()
      reads this
    {
      CouponValid(appliedCoupon)
    }

    constructor (initialPlan: Plan)
      ensures Valid()
      ensures selectedPlan == initialPlan && couponCode == "" && appliedCoupon == None
      ensures couponError == "" && !processing
    {
      selectedPlan := initialPlan;
      couponCode := "";
      appliedCoupon := None;
      couponError := "";
      processing := false;
    }

    /** Typing into the coupon box stores the text upper-cased. */
    method TypeCouponCode(typed: string)
      modifies this
      ensures couponCode == Upper(typed)
      ensures selectedPlan == old(selectedPlan) && appliedCoupon == old(appliedCoupon)
      ensures couponError == old(couponError) && processing == old(processing)
    {
      couponCode := Upper(typed);
    }

    /** One of the suggested codes, clicked: stored as shown. */
    method PickSuggestedCode(code: string)
      requires code in ["JAINN50", "WELCOME25", "EARLY100"]
      modifies this
      ensures couponCode == code
      ensures selectedPlan == old(selectedPlan) && appliedCoupon == old(appliedCoupon)
      ensures couponError == old(couponError) && processing == old(processing)
    {
      couponCode := code;
    }

    /**
     * `applyCoupon`: an empty code or one missing from the table sets its
     * error and leaves the applied coupon as it was; a known code becomes the
     * applied coupon with the table's discount, and the error is cleared.
     */
    method ApplyCoupon()
      requires Valid()
      modifies this
      ensures Valid()
      ensures var code := NormalisedCode(old(couponCode));
        && (code == "" ==> couponError == EmptyCodeError && appliedCoupon == old(appliedCoupon))
        && (code != "" && code !in ValidCoupons ==> couponError == InvalidCodeError && appliedCoupon == old(appliedCoupon))
        && (code in ValidCoupons ==>
              couponError == ""
              && appliedCoupon == Some(AppliedCoupon(code, ValidCoupons[code].discount, ValidCoupons[code].kind)))
      ensures selectedPlan == old(selectedPlan) && couponCode == old(couponCode) && processing == old(processing)
    {
      couponError := "";
      var code := Trim(Upper(couponCode));
      if code == "" {
        couponError := EmptyCodeError;
        return;
      }
      if code !in ValidCoupons {
        couponError := InvalidCodeError;
        return;
      }
      var coupon := ValidCoupons[code];
      appliedCoupon := Some(AppliedCoupon(code, coupon.discount, coupon.kind));
      couponError := "";
    }

    /** `removeCoupon`: coupon, typed code and error all cleared. */
    method RemoveCoupon()
      modifies this
      ensures Valid()
      ensures appliedCoupon == None && couponCode == "" && couponError == ""
      ensures selectedPlan == old(selectedPlan) && processing == old(processing)
    {
      appliedCoupon := None;
      couponCode := "";
      couponError := "";
    }

    /** Choosing a plan card drops the coupon and the typed code; a coupon error stays on screen. */
    method SelectPlan(p: Plan)
      modifies this
      ensures Valid()
      ensures selectedPlan == p && appliedCoupon == None && couponCode == ""
      ensures couponError == old(couponError) && processing == old(processing)
    {
      selectedPlan := p;
      appliedCoupon := None;
      couponCode := "";
    }

    /**
     * `handlePayment`: marks the page as processing; a free checkout reports
     * success with `wasFree` and never reaches the gateway, any other opens
     * the gateway for the total with GST.
     */
    method HandlePayment() returns (start: PaymentStart)
      requires Valid()
      modifies this
      ensures Valid() && processing
      ensures IsFree(selectedPlan, appliedCoupon) ==> start == FreeActivation(selectedPlan, true)
      ensures !IsFree(selectedPlan, appliedCoupon) ==>
        start == Gateway(selectedPlan, Total(selectedPlan, appliedCoupon),
                         if appliedCoupon.Some? && appliedCoupon.value.code != "" then appliedCoupon.value.code else "none")
      ensures start.Gateway? ==> start.amount > 0
      ensures selectedPlan == old(selectedPlan) && couponCode == old(couponCode)
      ensures appliedCoupon == old(appliedCoupon) && couponError == old(couponError)
    {
      processing := true;
      if Total(selectedPlan, appliedCoupon) == 0 {
        return FreeActivation(selectedPlan, true);
      }
      var note := if appliedCoupon.Some? && appliedCoupon.value.code != "" then appliedCoupon.value.code else "none";
      return Gateway(selectedPlan, Total(selectedPlan, appliedCoupon), note);
    }
  }
}
