/** The policy engine: first failing guardrail wins. */
module Policy {
  import opened Text
  import opened JsonTree
  import opened Models
  import opened Vaults

  const DARK_PATTERNS := [
    "limited time", "hurry", "act now", "only a few left", "last chance", "expires soon", "selling fast",
    "don't want to save", "i don't want to save", "no thanks, i don't", "i like paying more", "i prefer to pay full"]

  /** The offers of each merchant. */
  type Catalog = map<string, seq<CatalogItem>>

  /** None: unknown merchant or SKU. The first offer of a SKU counts. */
  function GetItem(catalog: Catalog, merchantId: string, sku: string): Option<CatalogItem> {
    if merchantId in catalog then FirstMatch(catalog[merchantId], sku) else None
  }

  function FirstMatch(items: seq<CatalogItem>, sku: string): Option<CatalogItem> {
    if items == [] then None else if items[0].sku == sku then Some(items[0]) else FirstMatch(items[1..], sku)
  }

  /** The merchant's first offer of the SKU. */
  predicate FirstOffer(catalog: Catalog, merchantId: string, sku: string, offer: CatalogItem) {
    && merchantId in catalog
    && exists i | 0 <= i < |catalog[merchantId]| ::
         && catalog[merchantId][i] == offer && offer.sku == sku
         && forall j | 0 <= j < i :: catalog[merchantId][j].sku != sku
  }

  predicate Offers(catalog: Catalog, merchantId: string, sku: string) {
    merchantId in catalog && exists offer | offer in catalog[merchantId] :: offer.sku == sku
  }

  /** The position is the first one of the SKU, or the end without any. */
  predicate FirstAt(items: seq<CatalogItem>, sku: string, i: nat) {
    && i <= |items| && (i < |items| ==> items[i].sku == sku)
    && forall j | 0 <= j < i :: items[j].sku != sku
  }

  lemma {:induction false} FirstMatchAt(items: seq<CatalogItem>, sku: string) returns (i: nat)
    ensures FirstAt(items, sku, i)
    ensures FirstMatch(items, sku) == if i < |items| then Some(items[i]) else None
  {
    if items == [] || items[0].sku == sku {
      i := 0;
    } else {
      var k := FirstMatchAt(items[1..], sku);
      i := k + 1;
      assert forall j | 0 < j < |items| :: items[j] == items[1..][j - 1];
    }
  }

  lemma OneFirstAt(items: seq<CatalogItem>, sku: string, i: nat, k: nat)
    requires FirstAt(items, sku, i) && FirstAt(items, sku, k)
    ensures i == k
  {
  }

  /** A lookup finds the merchant's first offer of the SKU, and nothing exactly if the merchant offers no such SKU. */
  lemma FoundOffer(catalog: Catalog, merchantId: string, sku: string)
    ensures forall offer ::
              GetItem(catalog, merchantId, sku) == Some(offer) <==> FirstOffer(catalog, merchantId, sku, offer)
    ensures GetItem(catalog, merchantId, sku).None? <==> !Offers(catalog, merchantId, sku)
  {
    hide FirstMatch;
    if merchantId in catalog {
      var items := catalog[merchantId];
      var i := FirstMatchAt(items, sku);
      forall k: nat | FirstAt(items, sku, k) ensures k == i { OneFirstAt(items, sku, i, k); }
      assert forall k | 0 <= k < |items| && items[k].sku == sku && (forall j | 0 <= j < k :: items[j].sku != sku) ::
          FirstAt(items, sku, k);
    }
  }

  function Join(texts: seq<string>): string {
    if texts == [] then "" else if |texts| == 1 then texts[0] else texts[0] + " " + Join(texts[1..])
  }

  function CopyHaystack(lower: string -> string, copy: CopyText): string {
    match copy
    case One(text) => lower(text)
    case Many(texts) => lower(Join(texts))
    case Labelled(entries) => lower(Join(seq(|entries|, i requires 0 <= i < |entries| => entries[i].1)))
  }

  // ---------- the declarative verdict ----------

  predicate SkusAllowed(m: Mandate, lines: seq<OrderItem>) {
    forall line | line in lines :: line.sku in m.skuAllowlist
  }

  predicate PriceMatches(catalog: Catalog, merchantId: string, line: OrderItem) {
    var offer := GetItem(catalog, merchantId, line.sku);
    offer.Some? && offer.value.unitAmountPaise == line.unitAmountPaise
  }

  predicate PricesMatch(catalog: Catalog, merchantId: string, lines: seq<OrderItem>) {
    forall line | line in lines :: PriceMatches(catalog, merchantId, line)
  }

  /** unit * quantity * percent of the line's offer: a hundred times the discount before rounding. */
  function Scaled(catalog: Catalog, merchantId: string, line: OrderItem): nat {
    var offer := GetItem(catalog, merchantId, line.sku);
    if offer.None? then 0
    else Times(Times(offer.value.unitAmountPaise, line.quantity), offer.value.maxPercent)
  }

  function Gross(catalog: Catalog, merchantId: string, line: OrderItem): nat {
    var offer := GetItem(catalog, merchantId, line.sku);
    if offer.None? then 0 else Times(offer.value.unitAmountPaise, line.quantity)
  }

  /** The product of two amounts. */
  function Times(a: nat, b: nat): nat {
    a * b
  }

  function LineDiscount(catalog: Catalog, merchantId: string, line: OrderItem): nat {
    Scaled(catalog, merchantId, line) / 100
  }

  function Sum(f: OrderItem -> nat, lines: seq<OrderItem>): nat {
    if lines == [] then 0 else Sum(f, lines[..|lines| - 1]) + f(lines[|lines| - 1])
  }

  /** The largest discount that may be quoted. */
  function MaxDiscount(catalog: Catalog, merchantId: string, lines: seq<OrderItem>): nat {
    Sum(line => LineDiscount(catalog, merchantId, line), lines)
  }

  predicate DarkPattern(lower: string -> string, copy: CopyText) {
    exists p | p in DARK_PATTERNS :: Contains(CopyHaystack(lower, copy), p)
  }

  /** The reason to refuse a proposal under a mandate, with the fixed precedence of the guardrails. */
  function Violation(catalog: Catalog, lower: string -> string, m: Mandate, p: Proposal): Option<string> {
    if p.quotedTotalPaise > m.maxAmountPaise then Some("over_limit")
    else if !SkusAllowed(m, p.items) then Some("sku_not_allowed")
    else if !PricesMatch(catalog, p.merchantId, p.items) then Some("invented_price")
    else if p.quotedDiscountPaise < 0 || p.quotedDiscountPaise > MaxDiscount(catalog, p.merchantId, p.items)
    then Some("invented_discount")
    else if DarkPattern(lower, p.copy) then Some("dark_pattern")
    else None
  }

  function Refuse(mandateId: string, code: string): PolicyResult {
    PolicyResult(mandateId, false, Some(code), [code])
  }

  function Evaluate(v: VaultState, catalog: Catalog, lower: string -> string, p: Proposal, now: Instant): PolicyResult {
    if !Usable(v, p.mandateId, now) then Refuse(p.mandateId, "mandate_invalid")
    else
      var reason := Violation(catalog, lower, v.mandates[p.mandateId].payload, p);
      if reason.Some? then Refuse(p.mandateId, reason.value) else PolicyResult(p.mandateId, true, None, [])
  }

  // ---------- the engine ----------

  class PolicyEngine {
    const vault: Vault
    const catalog: Catalog
    const lower: string -> string

    constructor (vault: Vault, catalog: Catalog, lower: string -> string)
      ensures this.vault == vault && this.catalog == catalog && this.lower == lower
    {
      this.vault := vault;
      this.catalog := catalog;
      this.lower := lower;
    }

    method EvaluateProposal(p: Proposal, now: Instant) returns (r: PolicyResult)
      requires vault.Valid()
      ensures r == Evaluate(vault.State(), catalog, lower, p, now)
      ensures r.mandateId == p.mandateId
      ensures if r.allowed then r.reasonCode.None? && r.violations == []
              else r.reasonCode.Some? && r.violations == [r.reasonCode.value]
    {
      hide DarkPattern, GetItem;
      var valid := vault.ValidateMandate(p.mandateId, now);
      if !valid {
        return Refuse(p.mandateId, "mandate_invalid");
      }
      var stored := vault.GetMandate(p.mandateId);
      if stored.None? {
        return Refuse(p.mandateId, "mandate_invalid");
      }
      var mandate := stored.value;
      if p.quotedTotalPaise > mandate.maxAmountPaise {
        return Refuse(p.mandateId, "over_limit");
      }
      for i := 0 to |p.items|
        invariant SkusAllowed(mandate, p.items[..i])
      {
        if p.items[i].sku !in mandate.skuAllowlist {
          assert p.items[i] in p.items;
          return Refuse(p.mandateId, "sku_not_allowed");
        }
      }
      assert p.items[..|p.items|] == p.items;
      var maxDiscount := 0;
      for i := 0 to |p.items|
        invariant PricesMatch(catalog, p.merchantId, p.items[..i])
        invariant maxDiscount == MaxDiscount(catalog, p.merchantId, p.items[..i])
      {
        var line := p.items[i];
        var offer := GetItem(catalog, p.merchantId, line.sku);
        assert line in p.items;
        if offer.None? || line.unitAmountPaise != offer.value.unitAmountPaise {
          return Refuse(p.mandateId, "invented_price");
        }
        assert p.items[..i + 1][..i] == p.items[..i];
        maxDiscount := maxDiscount + offer.value.unitAmountPaise * line.quantity * offer.value.maxPercent / 100;
      }
      if p.quotedDiscountPaise < 0 || p.quotedDiscountPaise > maxDiscount {
        return Refuse(p.mandateId, "invented_discount");
      }
      if DarkPattern(lower, p.copy) {
        return Refuse(p.mandateId, "dark_pattern");
      }
      return PolicyResult(p.mandateId, true, None, []);
    }
  }

  // ---------- what a verdict means ----------

  /** The reasons in the order of their precedence. */
  const REASONS := ["mandate_invalid", "over_limit", "sku_not_allowed", "invented_price", "invented_discount",
      "dark_pattern"]

  /** The proposal breaks the i-th guardrail, whatever else it breaks. */
  ghost predicate Breaks(v: VaultState, catalog: Catalog, lower: string -> string, p: Proposal, now: Instant, i: nat) {
    if i == 0 then !Usable(v, p.mandateId, now)
    else if i == 1 then p.mandateId in v.mandates && p.quotedTotalPaise > v.mandates[p.mandateId].payload.maxAmountPaise
    else if i == 2 then
      p.mandateId in v.mandates
      && exists line | line in p.items :: line.sku !in v.mandates[p.mandateId].payload.skuAllowlist
    else if i == 3 then
      exists line | line in p.items ::
        forall offer ::
          FirstOffer(catalog, p.merchantId, line.sku, offer) ==> offer.unitAmountPaise != line.unitAmountPaise
    else if i == 4 then !(0 <= p.quotedDiscountPaise <= MaxDiscount(catalog, p.merchantId, p.items))
    else DarkPattern(lower, p.copy)
  }

  lemma PricesByOffers(catalog: Catalog, merchantId: string, lines: seq<OrderItem>)
    ensures !PricesMatch(catalog, merchantId, lines) <==>
            exists line | line in lines ::
              forall offer ::
                FirstOffer(catalog, merchantId, line.sku, offer) ==> offer.unitAmountPaise != line.unitAmountPaise
  {
    hide PriceMatches, FirstOffer;
    forall line { PricedAsOffered(catalog, merchantId, line); }
  }

  lemma ReasonsDiffer()
    ensures |REASONS| == 6 && forall i, j | 0 <= i < j < 6 :: REASONS[i] != REASONS[j]
  {
    assert REASONS[0][0] == 'm' && REASONS[1][0] == 'o' && REASONS[2][0] == 's';
    assert REASONS[3][0] == 'i' && REASONS[4][0] == 'i' && REASONS[3][9] == 'p' && REASONS[4][9] == 'd';
    assert REASONS[5][0] == 'd';
  }

  /** The least guardrail from i on that the proposal breaks, or 6. */
  ghost function FirstBroken(v: VaultState, catalog: Catalog, lower: string -> string, p: Proposal, now: Instant,
                             i: nat): nat
    requires i <= 6
    decreases 6 - i
  {
    if i == 6 || Breaks(v, catalog, lower, p, now, i) then i else FirstBroken(v, catalog, lower, p, now, i + 1)
  }

  lemma {:induction false} FirstBrokenIsFirst(v: VaultState, catalog: Catalog, lower: string -> string, p: Proposal,
                                              now: Instant, i: nat)
    requires i <= 6
    ensures var k := FirstBroken(v, catalog, lower, p, now, i);
            && i <= k <= 6 && (k < 6 ==> Breaks(v, catalog, lower, p, now, k))
            && forall j | i <= j < k :: !Breaks(v, catalog, lower, p, now, j)
    decreases 6 - i
  {
    hide Breaks;
    if i == 6 || Breaks(v, catalog, lower, p, now, i) {
    } else {
      FirstBrokenIsFirst(v, catalog, lower, p, now, i + 1);
    }
  }

  lemma ReasonOfFirst(v: VaultState, catalog: Catalog, lower: string -> string, p: Proposal, now: Instant)
    ensures |REASONS| == 6
    ensures var k, r := FirstBroken(v, catalog, lower, p, now, 0), Evaluate(v, catalog, lower, p, now);
            && k <= 6 && (r.allowed <==> k == 6)
            && r.reasonCode == if k < 6 then Some(REASONS[k]) else None
  {
    hide PriceMatches, MaxDiscount, DarkPattern, FirstBroken, FirstOffer;
    PricesByOffers(catalog, p.merchantId, p.items);
    var k := FirstBroken(v, catalog, lower, p, now, 0);
    FirstBrokenIsFirst(v, catalog, lower, p, now, 0);
    assert k > 0 ==> !Breaks(v, catalog, lower, p, now, 0);
    assert k > 1 ==> !Breaks(v, catalog, lower, p, now, 1);
    assert k > 2 ==> !Breaks(v, catalog, lower, p, now, 2);
    assert k > 3 ==> !Breaks(v, catalog, lower, p, now, 3);
    assert k > 4 ==> !Breaks(v, catalog, lower, p, now, 4);
    assert k > 5 ==> !Breaks(v, catalog, lower, p, now, 5);
  }

  /** The reason given is the first guardrail, in the fixed order, that the proposal breaks; it is allowed exactly if it
      breaks none. */
  lemma FirstFailureWins(v: VaultState, catalog: Catalog, lower: string -> string, p: Proposal, now: Instant, i: nat)
    requires i < 6
    ensures |REASONS| == 6
    ensures Evaluate(v, catalog, lower, p, now).reasonCode == Some(REASONS[i]) <==>
            Breaks(v, catalog, lower, p, now, i) && forall j | 0 <= j < i :: !Breaks(v, catalog, lower, p, now, j)
    ensures Evaluate(v, catalog, lower, p, now).allowed <==>
            forall j | 0 <= j < 6 :: !Breaks(v, catalog, lower, p, now, j)
  {
    hide SkusAllowed, PricesMatch, MaxDiscount, DarkPattern, Usable, Breaks, Evaluate, FirstBroken;
    ReasonsDiffer();
    var k := FirstBroken(v, catalog, lower, p, now, 0);
    FirstBrokenIsFirst(v, catalog, lower, p, now, 0);
    ReasonOfFirst(v, catalog, lower, p, now);
  }

  lemma {:induction false} SumConcat(f: OrderItem -> nat, a: seq<OrderItem>, b: seq<OrderItem>)
    ensures Sum(f, a + b) == Sum(f, a) + Sum(f, b)
  {
    if b == [] {
      assert a + b == a;
    } else {
      assert (a + b)[..|a + b| - 1] == a + b[..|b| - 1];
      SumConcat(f, a, b[..|b| - 1]);
    }
  }

  lemma SumRemove(f: OrderItem -> nat, lines: seq<OrderItem>, k: nat)
    requires k < |lines|
    ensures var rest := lines[..k] + lines[k + 1..];
            Sum(f, lines) == Sum(f, rest) + f(lines[k]) && multiset(lines) == multiset(rest) + multiset{lines[k]}
  {
    var x, tail := lines[k], lines[k + 1..];
    assert lines == lines[..k] + [x] + tail;
    SumConcat(f, lines[..k] + [x], tail);
    SumConcat(f, lines[..k], tail);
    assert (lines[..k] + [x])[..k] == lines[..k];
  }

  lemma {:induction false} SumPermutation(f: OrderItem -> nat, a: seq<OrderItem>, b: seq<OrderItem>)
    requires multiset(a) == multiset(b)
    ensures Sum(f, a) == Sum(f, b)
  {
    if a == [] {
      assert |multiset(b)| == 0;
    } else {
      var last := |a| - 1;
      assert a[last] in multiset(b);
      var k :| 0 <= k < |b| && b[k] == a[last];
      SumRemove(f, a, last);
      SumRemove(f, b, k);
      var a', b' := a[..last] + a[last + 1..], b[..k] + b[k + 1..];
      assert multiset(a') == multiset(a) - multiset{a[last]} && multiset(b') == multiset(b) - multiset{a[last]};
      SumPermutation(f, a', b');
    }
  }

  /** The order of the lines matters neither for the verdict nor for its reason. */
  lemma PermutationInvariance(v: VaultState, catalog: Catalog, lower: string -> string, p: Proposal, q: Proposal,
                              now: Instant)
    requires multiset(p.items) == multiset(q.items) && p.(items := q.items) == q
    ensures Evaluate(v, catalog, lower, p, now) == Evaluate(v, catalog, lower, q, now)
  {
    SumPermutation(line => LineDiscount(catalog, p.merchantId, line), p.items, q.items);
    forall line ensures line in p.items <==> line in q.items {
      assert line in p.items <==> line in multiset(p.items);
      assert line in q.items <==> line in multiset(q.items);
    }
  }

  // ---------- prices and copy without the lookups ----------

  lemma PricedAsOffered(catalog: Catalog, merchantId: string, line: OrderItem)
    ensures PriceMatches(catalog, merchantId, line) <==>
            exists offer ::
              FirstOffer(catalog, merchantId, line.sku, offer) && offer.unitAmountPaise == line.unitAmountPaise
  {
    hide GetItem, FirstOffer;
    FoundOffer(catalog, merchantId, line.sku);
  }

  /** Every line of an allowed proposal has the price of the first offer of its own SKU. */
  lemma AllowedPrices(v: VaultState, catalog: Catalog, lower: string -> string, p: Proposal, now: Instant,
                      line: OrderItem)
    requires Evaluate(v, catalog, lower, p, now).allowed && line in p.items
    ensures exists offer ::
              FirstOffer(catalog, p.merchantId, line.sku, offer) && offer.unitAmountPaise == line.unitAmountPaise
    ensures p.mandateId in v.mandates && line.sku in v.mandates[p.mandateId].payload.skuAllowlist
  {
    hide PriceMatches, FirstOffer, MaxDiscount, DarkPattern;
    PricedAsOffered(catalog, p.merchantId, line);
  }

  /** A line priced unlike every offer of its SKU is never allowed. */
  lemma InventedPricesRefused(v: VaultState, catalog: Catalog, lower: string -> string, p: Proposal, now: Instant,
                              line: OrderItem)
    requires line in p.items
    requires p.merchantId in catalog ==>
               forall offer | offer in catalog[p.merchantId] ::
                 offer.sku == line.sku ==> offer.unitAmountPaise != line.unitAmountPaise
    ensures !Evaluate(v, catalog, lower, p, now).allowed
  {
    hide Evaluate;
    if Evaluate(v, catalog, lower, p, now).allowed { AllowedPrices(v, catalog, lower, p, now, line); }
  }

  /** A line's discount is the largest percentage of its SKU's first offer on its price, rounded down; its gross is that
      price. */
  lemma DiscountByOffer(catalog: Catalog, merchantId: string, line: OrderItem, offer: CatalogItem)
    requires FirstOffer(catalog, merchantId, line.sku, offer)
    ensures LineDiscount(catalog, merchantId, line) == offer.unitAmountPaise * line.quantity * offer.maxPercent / 100
    ensures Gross(catalog, merchantId, line) == offer.unitAmountPaise * line.quantity
  {
    hide GetItem, FirstOffer;
    FoundOffer(catalog, merchantId, line.sku);
  }

  /** The bound is the sum of the lines' discounts. */
  lemma MaxDiscountNext(catalog: Catalog, merchantId: string, lines: seq<OrderItem>, line: OrderItem)
    ensures MaxDiscount(catalog, merchantId, []) == 0
    ensures MaxDiscount(catalog, merchantId, lines + [line])
         == MaxDiscount(catalog, merchantId, lines) + LineDiscount(catalog, merchantId, line)
  {
    assert (lines + [line])[..|lines|] == lines;
  }

  /** The texts that a copy is made of. */
  predicate Spoken(copy: CopyText, pieces: seq<string>) {
    match copy
    case One(text) => pieces == [text]
    case Many(texts) => pieces == texts
    case Labelled(entries) => |pieces| == |entries| && forall i | 0 <= i < |entries| :: pieces[i] == entries[i].1
  }

  const FALSE_URGENCY := [
    "limited time", "hurry", "act now", "only a few left", "last chance", "expires soon", "selling fast"]

  const CONFIRM_SHAMING := [
    "don't want to save", "i don't want to save", "no thanks, i don't", "i like paying more", "i prefer to pay full"]

  /** Texts are joined by single spaces. */
  lemma {:induction false} JoinConcat(a: seq<string>, b: seq<string>)
    requires a != [] && b != []
    ensures Join(a + b) == Join(a) + (" " + Join(b))
  {
    if |a| == 1 {
      assert a + b == [a[0]] + b && (a + b)[1..] == b;
    } else {
      assert (a + b)[1..] == a[1..] + b;
      JoinConcat(a[1..], b);
      assert a[0] + " " + (Join(a[1..]) + (" " + Join(b))) == a[0] + " " + Join(a[1..]) + (" " + Join(b));
    }
  }

  lemma JoinOne(text: string)
    ensures Join([]) == "" && Join([text]) == text
  {
  }

  lemma DarkPhrases(phrase: string)
    ensures phrase in DARK_PATTERNS <==> phrase in FALSE_URGENCY || phrase in CONFIRM_SHAMING
  {
    assert DARK_PATTERNS == FALSE_URGENCY + CONFIRM_SHAMING;
  }

  /** A copy is dark exactly if its joined texts contain one of the phrases in lower case. */
  lemma DarkExactly(lower: string -> string, copy: CopyText, pieces: seq<string>)
    requires Spoken(copy, pieces)
    ensures DarkPattern(lower, copy) <==>
            exists phrase ::
              (phrase in FALSE_URGENCY || phrase in CONFIRM_SHAMING) && Contains(lower(Join(pieces)), phrase)
  {
    hide Contains, DARK_PATTERNS, FALSE_URGENCY, CONFIRM_SHAMING;
    HaystackIsJoined(lower, copy, pieces);
    forall phrase { DarkPhrases(phrase); }
  }

  lemma HaystackIsJoined(lower: string -> string, copy: CopyText, pieces: seq<string>)
    requires Spoken(copy, pieces)
    ensures CopyHaystack(lower, copy) == lower(Join(pieces))
  {
    match copy
    case One(text) => JoinOne(text);
    case Many(texts) =>
    case Labelled(entries) =>
      assert seq(|entries|, i requires 0 <= i < |entries| => entries[i].1) == pieces;
  }

  // ---------- rounding ----------

  function ScaledTotal(catalog: Catalog, merchantId: string, lines: seq<OrderItem>): nat {
    Sum(line => Scaled(catalog, merchantId, line), lines)
  }

  function GrossTotal(catalog: Catalog, merchantId: string, lines: seq<OrderItem>): nat {
    Sum(line => Gross(catalog, merchantId, line), lines)
  }

  /** Rounding each line down loses less than one paisa a line, and never gives any. */
  lemma {:induction false} DiscountBounds(catalog: Catalog, merchantId: string, lines: seq<OrderItem>)
    ensures ScaledTotal(catalog, merchantId, lines) - 99 * |lines|
         <= 100 * MaxDiscount(catalog, merchantId, lines)
         <= ScaledTotal(catalog, merchantId, lines)
  {
    if lines == [] {
    } else {
      DiscountBounds(catalog, merchantId, lines[..|lines| - 1]);
    }
  }

  lemma PercentOf(amount: nat, percent: Percent)
    ensures Times(amount, percent) <= 100 * amount
  {
    assert amount * percent <= amount * 100;
  }

  /** The discount never exceeds the catalog price. */
  lemma {:induction false} DiscountBelowGross(catalog: Catalog, merchantId: string, lines: seq<OrderItem>)
    ensures MaxDiscount(catalog, merchantId, lines) <= GrossTotal(catalog, merchantId, lines)
  {
    if lines == [] {
    } else {
      DiscountBelowGross(catalog, merchantId, lines[..|lines| - 1]);
      var line := lines[|lines| - 1];
      var offer := GetItem(catalog, merchantId, line.sku);
      if offer.Some? { PercentOf(Times(offer.value.unitAmountPaise, line.quantity), offer.value.maxPercent); }
    }
  }

  /** The same line once for each of several quantities. */
  function Split(line: OrderItem, quantities: seq<Positive>): seq<OrderItem> {
    if quantities == [] then []
    else Split(line, quantities[..|quantities| - 1]) + [line.(quantity := quantities[|quantities| - 1])]
  }

  function Total(quantities: seq<Positive>): nat {
    if quantities == [] then 0 else Total(quantities[..|quantities| - 1]) + quantities[|quantities| - 1]
  }

  lemma Distribute(unit: nat, a: nat, b: nat, percent: nat)
    ensures Times(Times(unit, a + b), percent) == Times(Times(unit, a), percent) + Times(Times(unit, b), percent)
  {
  }

  lemma {:induction false} SplitScaled(catalog: Catalog, merchantId: string, line: OrderItem, quantities: seq<Positive>)
    ensures |Split(line, quantities)| == |quantities|
    ensures ScaledTotal(catalog, merchantId, Split(line, quantities))
         == var offer := GetItem(catalog, merchantId, line.sku);
            if offer.None? then 0
                else Times(Times(offer.value.unitAmountPaise, Total(quantities)), offer.value.maxPercent)
  {
    if quantities == [] {
    } else {
      var init, q := quantities[..|quantities| - 1], quantities[|quantities| - 1];
      SplitScaled(catalog, merchantId, line, init);
      var offer := GetItem(catalog, merchantId, line.sku);
      assert Split(line, quantities)[..|init|] == Split(line, init);
      if offer.Some? { Distribute(offer.value.unitAmountPaise, Total(init), q, offer.value.maxPercent); }
    }
  }

  /** Writing one line as k lines lowers the bound by at most k - 1 paise and never raises it. */
  lemma SplitLosesLittle(catalog: Catalog, merchantId: string, before: seq<OrderItem>, line: OrderItem,
                         after: seq<OrderItem>, quantities: seq<Positive>)
    requires Total(quantities) == line.quantity
    ensures var whole := MaxDiscount(catalog, merchantId, before + [line] + after);
            var split := MaxDiscount(catalog, merchantId, before + Split(line, quantities) + after);
            whole - (|quantities| - 1) <= split <= whole
  {
    var f := (x: OrderItem) => LineDiscount(catalog, merchantId, x);
    var parts := Split(line, quantities);
    SumConcat(f, before + [line], after);
    SumConcat(f, before, [line]);
    SumConcat(f, before + parts, after);
    SumConcat(f, before, parts);
    SplitScaled(catalog, merchantId, line, quantities);
    DiscountBounds(catalog, merchantId, parts);
    assert [line][..0] == [];
    assert Sum(f, [line]) == LineDiscount(catalog, merchantId, line);
    assert quantities != [];
  }
}
