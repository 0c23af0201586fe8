/** The order summary panel: the coupon rule, the displayed final price and
    the free-delivery shortfall. */
module CartSummary {
  import opened Types
  import opened Pricing
  import opened CartStore

  const RequiredMessage: string := "Please enter a coupon code"
  const InvalidMessage: string := "Invalid coupon code"
  const TenPercentCode: string := "JIVUMA10"
  const TwentyPercentCode: string := "JIVUMA20"

  /** The panel's coupon state: the text typed, the error shown and the
      discount in force. */
  datatype Coupon = Coupon(code: string, error: string, discount: real)

  const InitialCoupon: Coupon := Coupon("", "", 0.0)

  /** ECMAScript WhiteSpace and LineTerminator code points, the characters
      `String.prototype.trim` strips. */
  predicate IsWhitespace(c: char) {
    c in {'\t', '\n', '\U{B}', '\U{C}', '\r', ' ', '\U{A0}', '\U{1680}',
          '\U{2000}', '\U{2001}', '\U{2002}', '\U{2003}', '\U{2004}', '\U{2005}',
          '\U{2006}', '\U{2007}', '\U{2008}', '\U{2009}', '\U{200A}',
          '\U{2028}', '\U{2029}', '\U{202F}', '\U{205F}', '\U{3000}', '\U{FEFF}'}
  }

  predicate IsBlank(s: string) {
    forall i :: 0 <= i < |s| ==> IsWhitespace(s[i])
  }

  /** Position of the first non-whitespace character at or after `i`, or
      the length when there is none. */
  function SkipLeading(s: string, i: nat): (k: nat)
    requires i <= |s|
    ensures i <= k <= |s|
    ensures forall j :: i <= j < k ==> IsWhitespace(s[j])
    ensures k < |s| ==> !IsWhitespace(s[k])
    decreases |s| - i
  {
    if i < |s| && IsWhitespace(s[i]) then SkipLeading(s, i + 1) else i
  }

  /** End of `s[..j]` once trailing whitespace is dropped, never below `lo`. */
  function SkipTrailing(s: string, lo: nat, j: nat): (k: nat)
    requires lo <= j <= |s|
    ensures lo <= k <= j
    ensures forall m :: k <= m < j ==> IsWhitespace(s[m])
    ensures k > lo ==> !IsWhitespace(s[k - 1])
    decreases j
  {
    if j > lo && IsWhitespace(s[j - 1]) then SkipTrailing(s, lo, j - 1) else j
  }

  /** `String.prototype.trim`: the slice between the first and the last
      non-whitespace character. */
  function Trim(s: string): string {
    var start := SkipLeading(s, 0);
    s[start..SkipTrailing(s, start, |s|)]
  }

  /** Upper-case mapping of one character, exact for every character whose
      upper case is one of `JIVUMA` or a digit: ASCII letters and the dotless
      i (U+0131), which upper-cases to I. */
  function UpperChar(c: char): char {
    if 'a' <= c <= 'z' then (c as int - 32) as char
    else if c == '\U{131}' then 'I'
    else c
  }

  /** `String.prototype.toUpperCase`, character by character. */
  function ToUpper(s: string): (r: string)
    ensures |r| == |s|
    ensures forall i :: 0 <= i < |s| ==> r[i] == UpperChar(s[i])
  {
    seq(|s|, i requires 0 <= i < |s| => UpperChar(s[i]))
  }

  /** The three outcomes of looking a code up. */
  datatype Outcome = CodeRequired | Recognised(fraction: real) | CodeNotFound

  /** The case-insensitive coupon table. The code is checked for blankness
      after trimming but matched without trimming. */
  function Lookup(code: string): (o: Outcome)
    ensures o == CodeRequired <==> IsBlank(code)
    ensures o.Recognised? <==> !IsBlank(code) && ToUpper(code) in {TenPercentCode, TwentyPercentCode}
    ensures o.Recognised? ==> o.fraction == (if ToUpper(code) == TenPercentCode then 0.1 else 0.2)
  {
    TrimEmptyIffBlank(code);
    if Trim(code) == "" then CodeRequired
    else if ToUpper(code) == TenPercentCode then Recognised(0.1)
    else if ToUpper(code) == TwentyPercentCode then Recognised(0.2)
    else CodeNotFound
  }

  /** `handleApplyCoupon`, with `total` the discounted cart total at the time
      the button is pressed. */
  function ApplyCoupon(c: Coupon, total: int): (r: Coupon)
    ensures r.code == c.code
    ensures Lookup(c.code) == CodeRequired ==> r.discount == c.discount && r.error == RequiredMessage
    ensures Lookup(c.code).Recognised? ==> r.error == "" && r.discount == Lookup(c.code).fraction * total as real
    ensures Lookup(c.code) == CodeNotFound ==> r.error == InvalidMessage && r.discount == 0.0
  {
    match Lookup(c.code)
    case CodeRequired => c.(error := RequiredMessage)
    case Recognised(fraction) => c.(discount := total as real * fraction, error := "")
    case CodeNotFound => c.(error := InvalidMessage, discount := 0.0)
  }

  /** `getFinalTotal() - couponDiscount`, with no floor at zero. */
  function FinalPrice(items: seq<CartItem>, c: Coupon): real {
    FinalTotal(items) as real - c.discount
  }

  /** The "Add n more packets" count, shown only while the minimum order is
      not met. */
  function FreeDeliveryShortfall(items: seq<CartItem>): (missing: Option<int>)
    ensures missing.None? <==> HasMinimumOrder(items)
    ensures missing.Some? ==> missing.value >= 1
    ensures missing.Some? ==> TotalQuantity(items) + missing.value == MinimumOrderQuantity
    ensures missing.Some? && PositiveQuantities(items) ==> missing.value <= MinimumOrderQuantity
  {
    if HasMinimumOrder(items) then None
    else
      QuantityAtLeastLines(items);
      Some(MinimumOrderQuantity - TotalQuantity(items))
  }

  // ---------------------------------------------------------------------
  // Properties

  /** `!code.trim()` holds exactly when the code is empty or all whitespace. */
  lemma TrimEmptyIffBlank(s: string)
    ensures Trim(s) == "" <==> IsBlank(s)
  {
    var start := SkipLeading(s, 0);
    var end := SkipTrailing(s, start, |s|);
    assert |Trim(s)| == end - start;
  }

  lemma UpperKeepsWhitespace(c: char)
    ensures IsWhitespace(UpperChar(c)) <==> IsWhitespace(c)
  {
  }

  /** Upper-casing never turns whitespace into text or text into
      whitespace, so codes with the same upper-case form are blank together. */
  lemma SameUpperSameBlank(a: string, b: string)
    requires ToUpper(a) == ToUpper(b)
    ensures IsBlank(a) <==> IsBlank(b)
  {
    forall i | 0 <= i < |a| ensures IsWhitespace(a[i]) <==> IsWhitespace(b[i]) {
      UpperKeepsWhitespace(a[i]);
      UpperKeepsWhitespace(b[i]);
      assert ToUpper(a)[i] == ToUpper(b)[i];
    }
  }

  /** The lookup is case-insensitive: two codes with the same upper-case
      form give the same outcome. */
  lemma CouponIsCaseInsensitive(a: string, b: string)
    requires ToUpper(a) == ToUpper(b)
    ensures Lookup(a) == Lookup(b)
  {
    SameUpperSameBlank(a, b);
  }

  /** The match does not trim: a demo code with a surrounding space is
      rejected and resets the discount. */
  lemma PaddedCodeIsInvalid(c: Coupon, total: int)
    requires c.code == " " + TenPercentCode
    ensures ApplyCoupon(c, total) == c.(error := InvalidMessage, discount := 0.0)
  {
    assert !IsWhitespace(c.code[1]);
    assert |ToUpper(c.code)| == 9;
  }

  /** The examples: 10% of 1000 is 100 whatever the case of the code, an
      unknown code is rejected with no discount, and an empty code asks for
      one. */
  lemma CouponExamples(c: Coupon)
    ensures ApplyCoupon(c.(code := "jivuma10"), 1000).discount == 100.0
    ensures ApplyCoupon(c.(code := "BADCODE"), 1000) == c.(code := "BADCODE", error := InvalidMessage, discount := 0.0)
    ensures ApplyCoupon(c.(code := ""), 1000) == c.(code := "", error := RequiredMessage)
  {
    LowerDemoCode();
    assert |ToUpper("BADCODE")| == 7;
    assert !IsWhitespace("BADCODE"[0]);
  }

  lemma LowerDemoCode()
    ensures ToUpper("jivuma10") == TenPercentCode
  {
    var u := ToUpper("jivuma10");
    assert u[0] == 'J' && u[1] == 'I' && u[2] == 'V' && u[3] == 'U';
    assert u[4] == 'M' && u[5] == 'A' && u[6] == '1' && u[7] == '0';
  }

  /** A coupon applied to the current non-negative total keeps the displayed
      price at or above 80% of that total plus delivery. */
  lemma FreshCouponPriceBound(items: seq<CartItem>, c: Coupon)
    requires TotalPrice(items) >= 0
    requires !IsBlank(c.code)
    ensures FinalPrice(items, ApplyCoupon(c, TotalPrice(items))) >=
      TotalPrice(items) as real * 0.8 + DeliveryCharge(items) as real
    ensures FinalPrice(items, ApplyCoupon(c, TotalPrice(items))) >= 0.0
  {
    DeliveryThreshold(items);
  }

  /** A plain product at 100, for the stale-coupon example. */
  const StaleProduct: Product := Product(3, "C", 100, None, "", "")

  /** The discount is fixed when the coupon is applied and the final price has
      no floor: a 20% coupon taken on 10 units at 100 and kept after the line
      is stepped down to 1 unit shows a price of 100 + 40 - 200. */
  lemma StaleCouponGoesNegative(c: Coupon)
    requires ToUpper(c.code) == TwentyPercentCode
    ensures var cart := [CartItem(StaleProduct, 10)];
      var applied := ApplyCoupon(c, TotalPrice(cart));
      && applied.discount == 200.0
      && FinalPrice(Next(cart, UpdateQuantity(StaleProduct.id, 1)), applied) == -60.0
  {
    assert !IsWhitespace(ToUpper(c.code)[0]);
    UpperKeepsWhitespace(c.code[0]);
    var cart := [CartItem(StaleProduct, 10)];
    SumSingle(CartItem(StaleProduct, 10), LineTotal);
    var after := Next(cart, UpdateQuantity(StaleProduct.id, 1));
    assert after == [CartItem(StaleProduct, 1)];
    SumSingle(CartItem(StaleProduct, 1), LineTotal);
    SumSingle(CartItem(StaleProduct, 1), Quantity);
  }

  /** The shortfall is exact: adding that many units of anything reaches free
      delivery, and any fewer does not. */
  lemma ShortfallIsExact(items: seq<CartItem>, ps: seq<Product>)
    requires FreeDeliveryShortfall(items).Some?
    ensures HasMinimumOrder(AddAll(items, ps)) <==> |ps| >= FreeDeliveryShortfall(items).value
  {
    AddAllQuantity(items, ps);
  }
}
