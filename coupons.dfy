/**
 * The coupon engine: coupons stored under a unique upper-case code, an
 * ordered chain of eligibility checks where the first failure wins, the
 * discount each coupon type grants, redemption (a counter and a usage log),
 * bulk generation and deletion.
 */
module Coupons {
  import opened Optional
  import Numerals

  datatype CouponStatus = Active | Inactive

  /** A row of the coupons table. Dates are timestamps; an empty allow-list is NULL. */
  datatype Coupon = Coupon(
    id: int,
    code: string,
    description: string,
    discountType: string,
    discountValue: real,
    minimumAmount: real,
    maximumDiscount: Option<real>,
    usageLimit: Option<int>,
    usedCount: int,
    startDate: Option<int>,
    endDate: Option<int>,
    applicableProducts: seq<int>,
    applicableCustomers: seq<int>,
    status: CouponStatus,
    createdBy: int)

  /**
   * A number as create_coupon receives it: `Blank` when PHP's `empty()` holds
   * for the submitted value ("", "0", 0, 0.0 or absent), otherwise the number
   * `floatval` / `intval` makes of it, which can still be 0 (typed as "0.00").
   */
  datatype Field<T> = Blank | Typed(value: T)

  /**
   * The fields create_coupon reads from its input. An absent date and an
   * empty list stand for a field left empty.
   */
  datatype CouponData = CouponData(
    code: string,
    description: string,
    discountType: string,
    discountValue: Field<real>,
    minimumAmount: real,
    maximumDiscount: Field<real>,
    usageLimit: Field<int>,
    startDate: Option<int>,
    endDate: Option<int>,
    applicableProducts: seq<int>,
    applicableCustomers: seq<int>)

  datatype CreateResult = Created(couponId: int) | MissingFields | CodeExists | InsertFailed

  /** Why a coupon was refused, one constructor per message of validate_coupon. */
  datatype Rejection =
    | InvalidCode
    | Expired
    | NotYetActive
    | UsageLimitExceeded
    | MinimumNotMet(minimum: real)
    | CustomerNotEligible
    | ProductNotEligible

  datatype Validation = Accepted(coupon: Coupon) | Rejected(reason: Rejection)

  datatype Application = Applied(coupon: Coupon, discountAmount: real, finalAmount: real) | NotApplied(reason: Rejection)

  /** A row of the coupon usage log. */
  datatype UsageRecord = UsageRecord(couponId: int, invoiceId: Option<int>, userId: int)

  /** The input of bulk_generate_coupons. */
  datatype BulkRequest = BulkRequest(
    count: int,
    prefix: string,
    discountType: string,
    discountValue: real,
    expiryDays: int)

  const SecondsPerDay: int := 86400

  // ---------------------------------------------------------------------------
  // Text

  /** PHP's `empty()` on a string: the empty string and "0". */
  predicate IsEmptyText(s: string)
  {
    s == "" || s == "0"
  }

  /** `strtoupper` on one character: ASCII letters only. */
  function UpperChar(c: char): char
  {
    if 'a' <= c <= 'z' then (c as int - 32) as char else c
  }

  function Upper(s: string): string
  {
    seq(|s|, i requires 0 <= i < |s| => UpperChar(s[i]))
  }

  lemma UpperConcat(a: string, b: string)
    ensures Upper(a + b) == Upper(a) + Upper(b)
  {
  }

  lemma UpperIdempotent(s: string)
    ensures Upper(Upper(s)) == Upper(s)
  {
  }

  // ---------------------------------------------------------------------------
  // Creation

  /** A required field (code, discount type, discount value) is empty as PHP's `empty()` sees it. */
  predicate MissingRequired(data: CouponData)
  {
    IsEmptyText(data.code) || IsEmptyText(data.discountType) || data.discountValue.Blank?
  }

  /** `SELECT id FROM coupons WHERE code = code` finds a row. */
  predicate CodeTaken(coupons: map<int, Coupon>, code: string)
  {
    exists id :: id in coupons && coupons[id].code == code
  }

  /** The unique key on code: no two coupons share one. */
  ghost predicate UniqueCodes(coupons: map<int, Coupon>)
  {
    forall a, b :: a in coupons && b in coupons && coupons[a].code == coupons[b].code ==> a == b
  }

  /** Every stored code is upper-case, as create_coupon stores it. */
  ghost predicate UpperCodes(coupons: map<int, Coupon>)
  {
    forall id :: id in coupons ==> Upper(coupons[id].code) == coupons[id].code
  }

  /** The row create_coupon inserts: upper-case code, nothing used yet, active; empty optionals become NULL. */
  function NewCoupon(id: int, data: CouponData, user: int): (c: Coupon)
    ensures c.id == id && c.createdBy == user
    ensures Matches(c, Upper(data.code)) && c.usedCount == 0
    ensures data.discountValue.Typed? ==> c.discountValue == data.discountValue.value
    ensures c.maximumDiscount.Some? <==> data.maximumDiscount.Typed?
    ensures data.maximumDiscount.Typed? ==> c.maximumDiscount == Some(data.maximumDiscount.value)
    ensures c.usageLimit.Some? <==> data.usageLimit.Typed?
    ensures data.usageLimit.Typed? ==> c.usageLimit == Some(data.usageLimit.value)
  {
    Coupon(
      id,
      Upper(data.code),
      data.description,
      data.discountType,
      if data.discountValue.Typed? then data.discountValue.value else 0.0,
      data.minimumAmount,
      if data.maximumDiscount.Typed? then Some(data.maximumDiscount.value) else None,
      if data.usageLimit.Typed? then Some(data.usageLimit.value) else None,
      0,
      data.startDate,
      data.endDate,
      data.applicableProducts,
      data.applicableCustomers,
      Active,
      user)
  }

  // ---------------------------------------------------------------------------
  // Validation

  predicate Matches(c: Coupon, code: string)
  {
    c.code == code && c.status == Active
  }

  /** `SELECT * FROM coupons WHERE code = code AND status = 'active'`. */
  function FindActive(coupons: map<int, Coupon>, code: string): (r: Option<Coupon>)
    requires UniqueCodes(coupons)
    ensures r.None? <==> forall id :: id in coupons ==> !Matches(coupons[id], code)
    ensures r.Some? ==> exists id :: id in coupons && coupons[id] == r.value && Matches(r.value, code)
  {
    if exists id :: id in coupons && Matches(coupons[id], code) then
      var id :| id in coupons && Matches(coupons[id], code);
      Some(coupons[id])
    else
      None
  }

  predicate IsExpired(c: Coupon, now: int): (b: bool)
    ensures c.endDate.None? ==> !b
    ensures b ==> c.endDate.value < now
  {
    c.endDate.Some? && c.endDate.value < now
  }

  predicate NotYetStarted(c: Coupon, now: int): (b: bool)
    ensures c.startDate.None? ==> !b
    ensures b ==> now < c.startDate.value
  {
    c.startDate.Some? && c.startDate.value > now
  }

  /** A limit of 0 reads back as "0", which PHP treats as false: no limit. */
  predicate LimitReached(c: Coupon): (b: bool)
    ensures c.usageLimit.None? || c.usageLimit == Some(0) ==> !b
    ensures b ==> c.usageLimit.value <= c.usedCount
  {
    c.usageLimit.Some? && c.usageLimit.value != 0 && c.usedCount >= c.usageLimit.value
  }

  predicate BelowMinimum(c: Coupon, total: real): (b: bool)
    ensures c.minimumAmount <= 0.0 ==> !b
    ensures b <==> 0.0 < c.minimumAmount && total < c.minimumAmount
  {
    c.minimumAmount > 0.0 && total < c.minimumAmount
  }

  /** Checked only when the coupon has an allow-list and a customer is given (0 is none). */
  predicate CustomerExcluded(c: Coupon, customerId: int): (b: bool)
    ensures c.applicableCustomers == [] || customerId == 0 ==> !b
    ensures customerId in c.applicableCustomers ==> !b
  {
    c.applicableCustomers != [] && customerId != 0 && customerId !in c.applicableCustomers
  }

  /** Checked only when the coupon has an allow-list and the order names products. */
  predicate ProductsExcluded(c: Coupon, products: seq<int>): (b: bool)
    ensures c.applicableProducts == [] || products == [] ==> !b
    ensures (exists p :: p in products && p in c.applicableProducts) ==> !b
  {
    c.applicableProducts != [] && products != [] && !(exists p :: p in products && p in c.applicableProducts)
  }

  /**
   * The chain of checks on a found coupon, in order: it reports the first of
   * all failing checks, and accepts exactly when none fails.
   */
  function CheckCoupon(c: Coupon, customerId: int, total: real, products: seq<int>, now: int): (v: Validation)
    ensures var fs := Failures(c, customerId, total, products, now);
            v == if fs == [] then Accepted(c) else Rejected(fs[0])
  {
    if IsExpired(c, now) then Rejected(Expired)
    else if NotYetStarted(c, now) then Rejected(NotYetActive)
    else if LimitReached(c) then Rejected(UsageLimitExceeded)
    else if BelowMinimum(c, total) then Rejected(MinimumNotMet(c.minimumAmount))
    else if CustomerExcluded(c, customerId) then Rejected(CustomerNotEligible)
    else if ProductsExcluded(c, products) then Rejected(ProductNotEligible)
    else Accepted(c)
  }

  /** Every check the coupon fails, in the order the chain runs them. */
  function Failures(c: Coupon, customerId: int, total: real, products: seq<int>, now: int): seq<Rejection>
  {
    (if IsExpired(c, now) then [Expired] else [])
    + (if NotYetStarted(c, now) then [NotYetActive] else [])
    + (if LimitReached(c) then [UsageLimitExceeded] else [])
    + (if BelowMinimum(c, total) then [MinimumNotMet(c.minimumAmount)] else [])
    + (if CustomerExcluded(c, customerId) then [CustomerNotEligible] else [])
    + (if ProductsExcluded(c, products) then [ProductNotEligible] else [])
  }

  /** validate_coupon: look the upper-cased code up among active coupons, then run the checks. */
  function ValidateCoupon(coupons: map<int, Coupon>, code: string, customerId: int, total: real,
                          products: seq<int>, now: int): (v: Validation)
    requires UniqueCodes(coupons)
    ensures v == Rejected(InvalidCode) <==> forall id :: id in coupons ==> !Matches(coupons[id], Upper(code))
    ensures v.Accepted? ==>
      && (exists id :: id in coupons && coupons[id] == v.coupon)
      && Matches(v.coupon, Upper(code))
      && !IsExpired(v.coupon, now) && !NotYetStarted(v.coupon, now) && !LimitReached(v.coupon)
      && !BelowMinimum(v.coupon, total) && !CustomerExcluded(v.coupon, customerId)
      && !ProductsExcluded(v.coupon, products)
    ensures forall id :: id in coupons && Matches(coupons[id], Upper(code)) ==>
              var fs := Failures(coupons[id], customerId, total, products, now);
              v == if fs == [] then Accepted(coupons[id]) else Rejected(fs[0])
  {
    match FindActive(coupons, Upper(code))
    case None => Rejected(InvalidCode)
    case Some(c) => CheckCoupon(c, customerId, total, products, now)
  }

  /** A coupon whose limit is used up is refused for that reason once the earlier checks pass. */
  lemma ExhaustedCouponRejected(coupons: map<int, Coupon>, id: int, code: string, customerId: int,
                                total: real, products: seq<int>, now: int)
    requires UniqueCodes(coupons)
    requires id in coupons && Matches(coupons[id], Upper(code))
    requires !IsExpired(coupons[id], now) && !NotYetStarted(coupons[id], now)
    requires LimitReached(coupons[id])
    ensures ValidateCoupon(coupons, code, customerId, total, products, now) == Rejected(UsageLimitExceeded)
  {
    assert FindActive(coupons, Upper(code)) == Some(coupons[id]);
  }

  /** Once created, a coupon is found by its code written in any letter case. */
  lemma CreatedCouponIsFound(coupons: map<int, Coupon>, id: int, data: CouponData, user: int, code: string)
    requires UniqueCodes(coupons[id := NewCoupon(id, data, user)])
    requires Upper(code) == Upper(data.code)
    ensures FindActive(coupons[id := NewCoupon(id, data, user)], Upper(code)) == Some(NewCoupon(id, data, user))
  {
    var table := coupons[id := NewCoupon(id, data, user)];
    assert Matches(table[id], Upper(code));
  }

  /** After its deletion a coupon's code is an invalid code. */
  lemma DeletedCouponNotFound(coupons: map<int, Coupon>, id: int, code: string, customerId: int,
                              total: real, products: seq<int>, now: int)
    requires UniqueCodes(coupons)
    requires id in coupons && Upper(code) == coupons[id].code
    ensures UniqueCodes(coupons - {id})
    ensures ValidateCoupon(coupons - {id}, code, customerId, total, products, now) == Rejected(InvalidCode)
  {
  }

  // ---------------------------------------------------------------------------
  // Discount

  /** The discount a coupon grants on an order total, by discount type. */
  function Discount(c: Coupon, total: real): (d: real)
    ensures c.discountType == "percentage" && c.maximumDiscount.Some? ==> d <= c.maximumDiscount.value
    ensures c.discountType == "percentage" ==> d <= total * c.discountValue / 100.0
    ensures c.discountType == "percentage" ==>
              d == total * c.discountValue / 100.0 || (c.maximumDiscount.Some? && d == c.maximumDiscount.value)
    ensures c.discountType == "fixed" ==> d <= total && d <= c.discountValue
    ensures c.discountType == "fixed" ==> d == total || d == c.discountValue
    ensures c.discountType != "percentage" && c.discountType != "fixed" ==> d == 0.0
  {
    if c.discountType == "percentage" then
      var d := total * c.discountValue / 100.0;
      if c.maximumDiscount.Some? && d > c.maximumDiscount.value then c.maximumDiscount.value else d
    else if c.discountType == "fixed" then
      if c.discountValue > total then total else c.discountValue
    else
      0.0 // free_shipping, and any type the switch does not name
  }

  /**
   * On a non-negative total the discount never exceeds the total, so the
   * amount to pay is never negative, provided a percentage is at most 100.
   */
  lemma DiscountWithinTotal(c: Coupon, total: real)
    requires 0.0 <= total
    requires c.discountType == "percentage" ==> 0.0 <= c.discountValue <= 100.0
    ensures Discount(c, total) <= total
  {
    if c.discountType == "percentage" {
      assert total * c.discountValue <= total * 100.0 by {
        assert total * (100.0 - c.discountValue) >= 0.0;
      }
      assert total * c.discountValue / 100.0 <= total;
    }
  }

  /** apply_coupon: a refused coupon passes the refusal through; otherwise discount and final amount. */
  function ApplyCoupon(coupons: map<int, Coupon>, code: string, total: real, customerId: int,
                       products: seq<int>, now: int): (r: Application)
    requires UniqueCodes(coupons)
    ensures ValidateCoupon(coupons, code, customerId, total, products, now).Rejected? ==>
              r == NotApplied(ValidateCoupon(coupons, code, customerId, total, products, now).reason)
    ensures ValidateCoupon(coupons, code, customerId, total, products, now).Accepted? ==>
              r.Applied? && r.coupon == ValidateCoupon(coupons, code, customerId, total, products, now).coupon
    ensures r.Applied? ==> r.discountAmount == Discount(r.coupon, total)
    ensures r.Applied? ==> r.finalAmount == total - r.discountAmount
  {
    match ValidateCoupon(coupons, code, customerId, total, products, now)
    case Rejected(reason) => NotApplied(reason)
    case Accepted(c) =>
      var discount := Discount(c, total);
      Applied(c, discount, total - discount)
  }

  /** SAVE10, 10% capped at 50, on an order of 1000: the cap applies and 50 comes off. */
  lemma Save10Example(c: Coupon)
    requires c.code == "SAVE10" && c.discountType == "percentage"
    requires c.discountValue == 10.0 && c.maximumDiscount == Some(50.0)
    ensures Discount(c, 1000.0) == 50.0
  {
  }

  // ---------------------------------------------------------------------------
  // Bulk generation

  /** `prefix . '-' . strtoupper(suffix)`. */
  function BulkCode(prefix: string, suffix: string): (code: string)
    ensures |code| == |prefix| + 1 + |suffix|
    ensures code[..|prefix|] == prefix && code[|prefix|] == '-' && code[|prefix| + 1..] == Upper(suffix)
    ensures !IsEmptyText(code)
  {
    prefix + "-" + Upper(suffix)
  }

  /**
   * The input the n-th (from 1) bulk creation passes to create_coupon. The
   * value has been through `floatval`, so `empty()` holds only for 0. The
   * code always contains '-', so only the type or the value can be missing.
   */
  function BulkData(request: BulkRequest, suffix: string, n: nat, now: int): (d: CouponData)
    ensures d.code == BulkCode(request.prefix, suffix)
    ensures MissingRequired(d) <==> IsEmptyText(request.discountType) || request.discountValue == 0.0
  {
    var code := BulkCode(request.prefix, suffix);
    assert code[|request.prefix|] == '-';
    CouponData(
      code,
      "Bulk generated coupon #" + Numerals.Digits(n),
      request.discountType,
      if request.discountValue == 0.0 then Blank else Typed(request.discountValue),
      0.0,
      Blank,
      Typed(1),
      None,
      Some(now + request.expiryDays * SecondsPerDay),
      [],
      [])
  }

  /** A bulk coupon is single-use, expires after the requested days, and is stored under the upper-cased code. */
  lemma BulkCouponShape(id: int, request: BulkRequest, suffix: string, n: nat, now: int, user: int)
    ensures var c := NewCoupon(id, BulkData(request, suffix, n, now), user);
            && c.code == Upper(request.prefix) + "-" + Upper(suffix)
            && c.usageLimit == Some(1) && c.usedCount == 0
            && c.endDate == Some(now + request.expiryDays * SecondsPerDay)
            && c.startDate == None && c.maximumDiscount == None
            && c.applicableProducts == [] && c.applicableCustomers == []
  {
    UpperConcat(request.prefix + "-", Upper(suffix));
    UpperConcat(request.prefix, "-");
    UpperIdempotent(suffix);
  }

  /**
   * A bulk coupon redeemed once is refused for its usage limit until it
   * expires, and for its expiry after that.
   */
  lemma UsedBulkCouponRefused(coupons: map<int, Coupon>, id: int, request: BulkRequest, suffix: string,
                              n: nat, created: int, user: int, code: string, customerId: int,
                              total: real, products: seq<int>, now: int)
    requires UniqueCodes(coupons)
    requires id in coupons
    requires coupons[id] == NewCoupon(id, BulkData(request, suffix, n, created), user).(usedCount := coupons[id].usedCount)
    requires coupons[id].usedCount >= 1
    requires Upper(code) == coupons[id].code
    ensures now <= created + request.expiryDays * SecondsPerDay ==>
              ValidateCoupon(coupons, code, customerId, total, products, now) == Rejected(UsageLimitExceeded)
    ensures now > created + request.expiryDays * SecondsPerDay ==>
              ValidateCoupon(coupons, code, customerId, total, products, now) == Rejected(Expired)
  {
    assert FindActive(coupons, Upper(code)) == Some(coupons[id]);
  }

  /** The codes of the attempts that succeeded, in order. */
  function SucceededCodes(prefix: string, suffixes: seq<string>, attempts: seq<CreateResult>): (codes: seq<string>)
    requires |attempts| <= |suffixes|
    ensures |codes| <= |attempts|
  {
    if attempts == [] then []
    else
      var n := |attempts| - 1;
      SucceededCodes(prefix, suffixes, attempts[..n])
      + (if attempts[n].Created? then [BulkCode(prefix, suffixes[n])] else [])
  }

  lemma {:induction false} AllSucceeded(prefix: string, suffixes: seq<string>, attempts: seq<CreateResult>)
    requires |attempts| <= |suffixes|
    requires forall j :: 0 <= j < |attempts| ==> attempts[j].Created?
    ensures |SucceededCodes(prefix, suffixes, attempts)| == |attempts|
  {
    if attempts != [] {
      AllSucceeded(prefix, suffixes, attempts[..|attempts| - 1]);
    }
  }

  /** What create_coupon reports on a table whose next auto-increment id is `nextId`. */
  function CreateOutcome(coupons: map<int, Coupon>, nextId: int, data: CouponData, storeOk: bool): (r: CreateResult)
    ensures r == MissingFields <==> MissingRequired(data)
    ensures r.Created? <==> storeOk && !MissingRequired(data) && !CodeTaken(coupons, data.code)
                            && !CodeTaken(coupons, Upper(data.code))
    ensures r.Created? ==> r.couponId == nextId
  {
    if MissingRequired(data) then MissingFields
    else if CodeTaken(coupons, data.code) then CodeExists
    else if !storeOk || CodeTaken(coupons, Upper(data.code)) then InsertFailed
    else Created(nextId)
  }

  /** The coupons table, the next id and the outcomes so far of a bulk run. */
  datatype BulkState = BulkState(coupons: map<int, Coupon>, nextId: int, attempts: seq<CreateResult>)

  /**
   * A bulk run after its first k creations: each one is create_coupon on the
   * table the earlier ones left, with its own suffix, number and store outcome.
   */
  function BulkRun(coupons: map<int, Coupon>, nextId: int, request: BulkRequest, suffixes: seq<string>,
                   stored: seq<bool>, now: int, user: int, k: nat): (run: BulkState)
    requires k <= |suffixes| && k <= |stored|
    ensures |run.attempts| == k
  {
    if k == 0 then BulkState(coupons, nextId, [])
    else
      var before := BulkRun(coupons, nextId, request, suffixes, stored, now, user, k - 1);
      var data := BulkData(request, suffixes[k - 1], k, now);
      var result := CreateOutcome(before.coupons, before.nextId, data, stored[k - 1]);
      if result.Created? then
        BulkState(before.coupons[before.nextId := NewCoupon(before.nextId, data, user)], before.nextId + 1,
                  before.attempts + [result])
      else
        BulkState(before.coupons, before.nextId, before.attempts + [result])
  }

  /** One more creation on the state of a bulk run after k attempts gives its state after k + 1. */
  lemma BulkRunStep(coupons: map<int, Coupon>, nextId: int, request: BulkRequest, suffixes: seq<string>,
                    stored: seq<bool>, now: int, user: int, k: nat, after: BulkState)
    requires k < |suffixes| && k < |stored|
    requires var before := BulkRun(coupons, nextId, request, suffixes, stored, now, user, k);
             var data := BulkData(request, suffixes[k], k + 1, now);
             var result := CreateOutcome(before.coupons, before.nextId, data, stored[k]);
             && after.attempts == before.attempts + [result]
             && (result.Created? ==> after.coupons == before.coupons[before.nextId := NewCoupon(before.nextId, data, user)]
                                     && after.nextId == before.nextId + 1)
             && (!result.Created? ==> after.coupons == before.coupons && after.nextId == before.nextId)
    ensures BulkRun(coupons, nextId, request, suffixes, stored, now, user, k + 1) == after
  {
  }

  /** The upper-cased codes of the first k bulk attempts are all new to the table and differ from each other. */
  ghost predicate FreshBulkCodes(coupons: map<int, Coupon>, request: BulkRequest, suffixes: seq<string>, k: nat)
    requires k <= |suffixes|
  {
    && (forall j :: 0 <= j < k ==> !CodeTaken(coupons, Upper(BulkCode(request.prefix, suffixes[j]))))
    && (forall i, j :: 0 <= i < j < k ==>
          Upper(BulkCode(request.prefix, suffixes[i])) != Upper(BulkCode(request.prefix, suffixes[j])))
  }

  /** Every code in `table` is a code of `coupons` or the stored code of one of the first k bulk attempts. */
  ghost predicate CodesFrom(table: map<int, Coupon>, coupons: map<int, Coupon>, request: BulkRequest,
                            suffixes: seq<string>, k: nat)
    requires k <= |suffixes|
  {
    forall id :: id in table ==>
      || CodeTaken(coupons, table[id].code)
      || exists j :: 0 <= j < k && table[id].code == Upper(BulkCode(request.prefix, suffixes[j]))
  }

  /** The k-th bulk code, as given and upper-cased, is on no coupon the first k - 1 attempts can have left. */
  lemma BulkCodeIsNew(table: map<int, Coupon>, coupons: map<int, Coupon>, request: BulkRequest,
                      suffixes: seq<string>, k: nat)
    requires 0 < k <= |suffixes|
    requires UpperCodes(coupons) && FreshBulkCodes(coupons, request, suffixes, k)
    requires CodesFrom(table, coupons, request, suffixes, k - 1)
    ensures !CodeTaken(table, BulkCode(request.prefix, suffixes[k - 1]))
    ensures !CodeTaken(table, Upper(BulkCode(request.prefix, suffixes[k - 1])))
  {
    var raw := BulkCode(request.prefix, suffixes[k - 1]);
    var up := Upper(raw);
    UpperIdempotent(raw);
    forall id | id in table
      ensures table[id].code != raw && table[id].code != up
    {
      var code := table[id].code;
      if CodeTaken(coupons, code) {
        var other :| other in coupons && coupons[other].code == code;
        assert Upper(code) == code;
      } else {
        var j :| 0 <= j < k - 1 && code == Upper(BulkCode(request.prefix, suffixes[j]));
        UpperIdempotent(BulkCode(request.prefix, suffixes[j]));
      }
    }
  }

  /** Storing the upper-cased k-th bulk code keeps every code upper-case and accounted for. */
  lemma CodesFromStep(table: map<int, Coupon>, coupons: map<int, Coupon>, request: BulkRequest,
                      suffixes: seq<string>, k: nat, id: int, c: Coupon)
    requires 0 < k <= |suffixes|
    requires UpperCodes(table) && CodesFrom(table, coupons, request, suffixes, k - 1)
    requires c.code == Upper(BulkCode(request.prefix, suffixes[k - 1]))
    ensures UpperCodes(table[id := c]) && CodesFrom(table[id := c], coupons, request, suffixes, k)
  {
    UpperIdempotent(BulkCode(request.prefix, suffixes[k - 1]));
    var after := table[id := c];
    forall other | other in after
      ensures || CodeTaken(coupons, after[other].code)
              || exists j :: 0 <= j < k && after[other].code == Upper(BulkCode(request.prefix, suffixes[j]))
    {
      if other != id {
        assert after[other] == table[other];
      }
    }
  }

  /**
   * Under the conditions of `BulkAllCreated`, every attempt of a bulk run
   * creates its coupon, and the table keeps only upper-case codes that are
   * old ones or bulk codes of the run.
   */
  lemma {:induction false} BulkRunCreates(coupons: map<int, Coupon>, nextId: int, request: BulkRequest,
                                          suffixes: seq<string>, stored: seq<bool>, now: int, user: int, k: nat)
    requires k <= |suffixes| && k <= |stored|
    requires UpperCodes(coupons)
    requires !IsEmptyText(request.discountType) && request.discountValue != 0.0
    requires forall j :: 0 <= j < k ==> stored[j]
    requires FreshBulkCodes(coupons, request, suffixes, k)
    ensures var run := BulkRun(coupons, nextId, request, suffixes, stored, now, user, k);
            && (forall j :: 0 <= j < k ==> run.attempts[j].Created?)
            && UpperCodes(run.coupons)
            && CodesFrom(run.coupons, coupons, request, suffixes, k)
  {
    if k > 0 {
      BulkRunCreates(coupons, nextId, request, suffixes, stored, now, user, k - 1);
      var before := BulkRun(coupons, nextId, request, suffixes, stored, now, user, k - 1);
      var run := BulkRun(coupons, nextId, request, suffixes, stored, now, user, k);
      var data := BulkData(request, suffixes[k - 1], k, now);
      BulkCodeIsNew(before.coupons, coupons, request, suffixes, k);
      assert CreateOutcome(before.coupons, before.nextId, data, stored[k - 1]) == Created(before.nextId);
      assert run.attempts == before.attempts + [Created(before.nextId)];
      assert run.coupons == before.coupons[before.nextId := NewCoupon(before.nextId, data, user)];
      CodesFromStep(before.coupons, coupons, request, suffixes, k, before.nextId, NewCoupon(before.nextId, data, user));
    }
  }

  /**
   * With a discount type and a non-zero value, every insert accepted by the
   * store and codes that are fresh and distinct once upper-cased, every
   * attempt creates a coupon, so all `count` codes are reported.
   */
  lemma BulkAllCreated(coupons: map<int, Coupon>, nextId: int, request: BulkRequest,
                       suffixes: seq<string>, stored: seq<bool>, now: int, user: int, k: nat)
    requires k <= |suffixes| && k <= |stored|
    requires UpperCodes(coupons)
    requires !IsEmptyText(request.discountType) && request.discountValue != 0.0
    requires forall j :: 0 <= j < k ==> stored[j]
    requires FreshBulkCodes(coupons, request, suffixes, k)
    ensures var run := BulkRun(coupons, nextId, request, suffixes, stored, now, user, k);
            && (forall j :: 0 <= j < k ==> run.attempts[j].Created?)
            && |SucceededCodes(request.prefix, suffixes, run.attempts)| == k
  {
    BulkRunCreates(coupons, nextId, request, suffixes, stored, now, user, k);
    var run := BulkRun(coupons, nextId, request, suffixes, stored, now, user, k);
    AllSucceeded(request.prefix, suffixes, run.attempts);
  }

  /** Every coupon of `before` is still in `after`, unchanged. */
  ghost predicate Keeps(before: map<int, Coupon>, after: map<int, Coupon>)
  {
    forall id :: id in before ==> id in after && after[id] == before[id]
  }

  /** Each successful attempt left the coupon built from its own suffix and number in the table. */
  ghost predicate Recorded(coupons: map<int, Coupon>, attempts: seq<CreateResult>, request: BulkRequest,
                           suffixes: seq<string>, now: int, user: int)
  {
    forall j :: 0 <= j < |attempts| && j < |suffixes| && attempts[j].Created? ==>
      && attempts[j].couponId in coupons
      && coupons[attempts[j].couponId] == NewCoupon(attempts[j].couponId, BulkData(request, suffixes[j], j + 1, now), user)
  }

  /** One more attempt adds its code to the reported ones exactly when it succeeded. */
  lemma SucceededStep(prefix: string, suffixes: seq<string>, attempts: seq<CreateResult>, result: CreateResult)
    requires |attempts| < |suffixes|
    ensures SucceededCodes(prefix, suffixes, attempts + [result])
            == SucceededCodes(prefix, suffixes, attempts)
               + (if result.Created? then [BulkCode(prefix, suffixes[|attempts|])] else [])
  {
    assert (attempts + [result])[..|attempts|] == attempts;
  }

  /** One more bulk attempt keeps the earlier coupons and records its own. */
  lemma RecordedStep(before: map<int, Coupon>, after: map<int, Coupon>, attempts: seq<CreateResult>,
                     result: CreateResult, request: BulkRequest, suffixes: seq<string>, now: int, user: int)
    requires |attempts| < |suffixes|
    requires Recorded(before, attempts, request, suffixes, now, user)
    requires result.Created? ==>
               && result.couponId !in before
               && after == before[result.couponId := NewCoupon(result.couponId, BulkData(request, suffixes[|attempts|], |attempts| + 1, now), user)]
    requires !result.Created? ==> after == before
    ensures Recorded(after, attempts + [result], request, suffixes, now, user)
  {
    var all := attempts + [result];
    forall j | 0 <= j < |all| && all[j].Created?
      ensures all[j].couponId in after
      ensures after[all[j].couponId] == NewCoupon(all[j].couponId, BulkData(request, suffixes[j], j + 1, now), user)
    {
      if j < |attempts| {
        assert all[j] == attempts[j];
      }
    }
  }

  /** A bulk run keeps every earlier coupon and only adds ids below its next id. */
  lemma {:induction false} BulkRunKeeps(coupons: map<int, Coupon>, nextId: int, request: BulkRequest,
                                   suffixes: seq<string>, stored: seq<bool>, now: int, user: int, k: nat)
    requires k <= |suffixes| && k <= |stored|
    requires forall id :: id in coupons ==> id < nextId
    ensures var run := BulkRun(coupons, nextId, request, suffixes, stored, now, user, k);
            && (forall id :: id in run.coupons ==> id < run.nextId)
            && Keeps(coupons, run.coupons)
  {
    if k > 0 {
      BulkRunKeeps(coupons, nextId, request, suffixes, stored, now, user, k - 1);
      var before := BulkRun(coupons, nextId, request, suffixes, stored, now, user, k - 1);
      var data := BulkData(request, suffixes[k - 1], k, now);
      var result := CreateOutcome(before.coupons, before.nextId, data, stored[k - 1]);
      var run := BulkRun(coupons, nextId, request, suffixes, stored, now, user, k);
      assert run.attempts == before.attempts + [result];
      if result.Created? {
        assert run.coupons == before.coupons[before.nextId := NewCoupon(before.nextId, data, user)];
      } else {
        assert run.coupons == before.coupons;
      }
    }
  }

  /** Every coupon a bulk run adds has an id one of its attempts reported as created. */
  lemma {:induction false} BulkRunReportsNewIds(coupons: map<int, Coupon>, nextId: int, request: BulkRequest,
                                   suffixes: seq<string>, stored: seq<bool>, now: int, user: int, k: nat)
    requires k <= |suffixes| && k <= |stored|
    requires forall id :: id in coupons ==> id < nextId
    ensures var run := BulkRun(coupons, nextId, request, suffixes, stored, now, user, k);
            forall id :: id in run.coupons && id !in coupons ==> Created(id) in run.attempts
  {
    if k > 0 {
      BulkRunReportsNewIds(coupons, nextId, request, suffixes, stored, now, user, k - 1);
      var before := BulkRun(coupons, nextId, request, suffixes, stored, now, user, k - 1);
      var data := BulkData(request, suffixes[k - 1], k, now);
      var result := CreateOutcome(before.coupons, before.nextId, data, stored[k - 1]);
      var run := BulkRun(coupons, nextId, request, suffixes, stored, now, user, k);
      assert run.attempts == before.attempts + [result];
      forall id | id in run.coupons && id !in coupons
        ensures Created(id) in run.attempts
      {
        if id in before.coupons {
          assert Created(id) in before.attempts;
        } else {
          assert result.Created? && run.coupons == before.coupons[before.nextId := NewCoupon(before.nextId, data, user)];
          assert run.attempts[k - 1] == Created(id);
        }
      }
    }
  }

  /** Each success of a bulk run left the coupon built from its own suffix and number in the table. */
  lemma {:induction false} BulkRunRecorded(coupons: map<int, Coupon>, nextId: int, request: BulkRequest,
                                           suffixes: seq<string>, stored: seq<bool>, now: int, user: int, k: nat)
    requires k <= |suffixes| && k <= |stored|
    requires forall id :: id in coupons ==> id < nextId
    ensures var run := BulkRun(coupons, nextId, request, suffixes, stored, now, user, k);
            Recorded(run.coupons, run.attempts, request, suffixes, now, user)
  {
    if k > 0 {
      BulkRunRecorded(coupons, nextId, request, suffixes, stored, now, user, k - 1);
      BulkRunKeeps(coupons, nextId, request, suffixes, stored, now, user, k - 1);
      var before := BulkRun(coupons, nextId, request, suffixes, stored, now, user, k - 1);
      var data := BulkData(request, suffixes[k - 1], k, now);
      var result := CreateOutcome(before.coupons, before.nextId, data, stored[k - 1]);
      var run := BulkRun(coupons, nextId, request, suffixes, stored, now, user, k);
      assert run.attempts == before.attempts + [result] && |before.attempts| == k - 1;
      if result.Created? {
        assert before.nextId !in before.coupons;
        assert run.coupons == before.coupons[before.nextId := NewCoupon(before.nextId, data, user)];
      } else {
        assert run.coupons == before.coupons;
      }
      RecordedStep(before.coupons, run.coupons, before.attempts, result, request, suffixes, now, user);
    }
  }

  // ---------------------------------------------------------------------------
  // The store

  class CouponStore {
    var coupons: map<int, Coupon>
    var usage: seq<UsageRecord>
    /** the next auto-increment coupon id */
    var nextId: int

    ghost predicate Valid()
      reads this
    {
      && 0 < nextId
      && (forall id :: id in coupons ==> 0 < id < nextId && coupons[id].id == id)
      && UniqueCodes(coupons)
      && UpperCodes(coupons)
    }

    constructor ()
      ensures Valid() && coupons == map[] && usage == []
    {
      coupons := map[];
      usage := [];
      nextId := 1;
    }

    /**
     * create_coupon. The duplicate check uses the code as given, but the row
     * stores it upper-cased, so a lower-case twin of an existing code passes
     * the check and is then refused by the unique key. `storeOk` is false
     * when the store rejects the insert for any other reason.
     */
    method CreateCoupon(data: CouponData, user: int, storeOk: bool) returns (r: CreateResult)
      requires Valid()
      modifies this
      ensures Valid()
      ensures usage == old(usage)
      ensures r == MissingFields <==> MissingRequired(data)
      ensures r == CodeExists <==> !MissingRequired(data) && CodeTaken(old(coupons), data.code)
      ensures r == InsertFailed <==>
                && !MissingRequired(data) && !CodeTaken(old(coupons), data.code)
                && (CodeTaken(old(coupons), Upper(data.code)) || !storeOk)
      ensures r.Created? ==>
                && r.couponId == old(nextId) && r.couponId !in old(coupons)
                && coupons == old(coupons)[r.couponId := NewCoupon(r.couponId, data, user)]
                && nextId == old(nextId) + 1
      ensures !r.Created? ==> coupons == old(coupons) && nextId == old(nextId)
      ensures r == CreateOutcome(old(coupons), old(nextId), data, storeOk)
    {
      if IsEmptyText(data.code) || IsEmptyText(data.discountType) || data.discountValue.Blank? {
        return MissingFields;
      }
      if exists id :: id in coupons && coupons[id].code == data.code {
        return CodeExists;
      }
      var coupon := NewCoupon(nextId, data, user);
      if !storeOk || exists id :: id in coupons && coupons[id].code == coupon.code {
        // the insert fails, e.g. on the unique key on code
        return InsertFailed;
      }
      UpperIdempotent(data.code);
      coupons := coupons[nextId := coupon];
      r := Created(nextId);
      nextId := nextId + 1;
    }

    /** use_coupon: count one more use (without re-checking the limit) and log it. */
    method UseCoupon(couponId: int, invoiceId: Option<int>, user: int) returns (ok: bool)
      requires Valid()
      modifies this
      ensures Valid()
      ensures ok
      ensures coupons == if couponId in old(coupons)
                         then old(coupons)[couponId := old(coupons)[couponId].(usedCount := old(coupons)[couponId].usedCount + 1)]
                         else old(coupons)
      ensures usage == old(usage) + [UsageRecord(couponId, invoiceId, user)]
      ensures nextId == old(nextId)
    {
      if couponId in coupons {
        coupons := coupons[couponId := coupons[couponId].(usedCount := coupons[couponId].usedCount + 1)];
      }
      LogCouponUsage(couponId, invoiceId, user);
      ok := true;
    }

    /** log_coupon_usage: append one record to the usage log. */
    method LogCouponUsage(couponId: int, invoiceId: Option<int>, user: int)
      modifies this
      ensures usage == old(usage) + [UsageRecord(couponId, invoiceId, user)]
      ensures coupons == old(coupons) && nextId == old(nextId)
    {
      usage := usage + [UsageRecord(couponId, invoiceId, user)];
    }

    /**
     * bulk_generate_coupons: exactly `count` independent creations, one per
     * random suffix (and whether the store accepts that insert); a failed
     * creation is skipped, not retried.
     */
    method BulkGenerateCoupons(request: BulkRequest, suffixes: seq<string>, stored: seq<bool>, now: int, user: int)
      returns (generated: seq<string>, attempts: seq<CreateResult>)
      requires Valid()
      requires request.count <= |suffixes| && request.count <= |stored|
      modifies this
      ensures Valid()
      ensures usage == old(usage)
      ensures |attempts| == if request.count > 0 then request.count else 0
      ensures generated == SucceededCodes(request.prefix, suffixes, attempts)
      ensures |generated| <= |attempts|
      ensures |coupons| == |old(coupons)| + |generated|
      ensures Keeps(old(coupons), coupons)
      ensures forall id :: id in coupons && id !in old(coupons) ==> Created(id) in attempts
      ensures Recorded(coupons, attempts, request, suffixes, now, user)
      ensures var run := BulkRun(old(coupons), old(nextId), request, suffixes, stored, now, user, |attempts|);
              coupons == run.coupons && nextId == run.nextId && attempts == run.attempts
    {
      ghost var start, firstId := coupons, nextId;
      generated, attempts := AttemptAll(request, suffixes, stored, now, user);
      BulkRunKeeps(start, firstId, request, suffixes, stored, now, user, |attempts|);
      BulkRunReportsNewIds(start, firstId, request, suffixes, stored, now, user, |attempts|);
      BulkRunRecorded(start, firstId, request, suffixes, stored, now, user, |attempts|);
    }

    /** The loop of bulk_generate_coupons: one create_coupon per suffix, in order. */
    method AttemptAll(request: BulkRequest, suffixes: seq<string>, stored: seq<bool>, now: int, user: int)
      returns (generated: seq<string>, attempts: seq<CreateResult>)
      requires Valid()
      requires request.count <= |suffixes| && request.count <= |stored|
      modifies this
      ensures Valid()
      ensures usage == old(usage)
      ensures |attempts| == if request.count > 0 then request.count else 0
      ensures generated == SucceededCodes(request.prefix, suffixes, attempts)
      ensures |coupons| == |old(coupons)| + |generated|
      ensures var run := BulkRun(old(coupons), old(nextId), request, suffixes, stored, now, user, |attempts|);
              coupons == run.coupons && nextId == run.nextId && attempts == run.attempts
    {
      ghost var start, firstId := coupons, nextId;
      generated, attempts := [], [];
      var i := 0;
      while i < request.count
        invariant 0 <= i <= if request.count > 0 then request.count else 0
        invariant Valid()
        invariant |attempts| == i
        invariant generated == SucceededCodes(request.prefix, suffixes, attempts)
        invariant usage == old(usage)
        invariant |coupons| == |old(coupons)| + |generated|
        invariant var run := BulkRun(start, firstId, request, suffixes, stored, now, user, i);
                  coupons == run.coupons && nextId == run.nextId && attempts == run.attempts
      {
        var code := BulkCode(request.prefix, suffixes[i]);
        var result := CreateCoupon(BulkData(request, suffixes[i], i + 1, now), user, stored[i]);
        BulkRunStep(start, firstId, request, suffixes, stored, now, user, i,
                    BulkState(coupons, nextId, attempts + [result]));
        SucceededStep(request.prefix, suffixes, attempts, result);
        attempts := attempts + [result];
        if result.Created? {
          generated := generated + [code];
        }
        i := i + 1;
      }
    }

    /**
     * delete_coupon: remove the coupon with that id, if any. Succeeds unless
     * the query itself fails, also when no row has the id; the usage log is
     * left alone.
     */
    method DeleteCoupon(couponId: int, storeOk: bool) returns (ok: bool)
      requires Valid()
      modifies this
      ensures Valid()
      ensures ok == storeOk
      ensures coupons == if ok then old(coupons) - {couponId} else old(coupons)
      ensures usage == old(usage) && nextId == old(nextId)
    {
      if storeOk {
        coupons := coupons - {couponId};
      }
      ok := storeOk;
    }
  }
}
