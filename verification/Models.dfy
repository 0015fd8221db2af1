/** The records that the gates pass around. The types carry the field constraints of the originals. */
module Models {
  import opened Text
  import opened JsonTree

  type Positive = n: int | n > 0 witness 1
  type Percent = n: int | 0 <= n <= 100
  type AllowList = s: seq<string> | s != [] witness [""]

  datatype Protocol = AP2 | TAP | P3P | UAP

  datatype OrderItem = OrderItem(sku: string, quantity: Positive, unitAmountPaise: nat, name: Option<string>)

  datatype Mandate = Mandate(
    mandateId: string, agentId: string, userId: Option<string>, protocol: Protocol,
    maxAmountPaise: nat, currency: string, skuAllowlist: AllowList, expiresAt: Instant,
    items: seq<OrderItem>, paymentStatus: Option<string>, lastPaymentId: Option<string>)

  /** Marketing text: one string, a list, or labelled strings. */
  datatype CopyText = One(text: string) | Many(texts: seq<string>) | Labelled(entries: seq<(string, string)>)

  datatype Proposal = Proposal(
    mandateId: string, merchantId: string, items: seq<OrderItem>,
    quotedTotalPaise: nat, quotedDiscountPaise: int, copy: CopyText)

  datatype PolicyResult = PolicyResult(mandateId: string, allowed: bool, reasonCode: Option<string>,
      violations: seq<string>)

  datatype CatalogItem = CatalogItem(sku: string, unitAmountPaise: nat, maxPercent: Percent)
}
