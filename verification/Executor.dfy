/** The payment executor: the only code that talks to Razorpay. */
module Executor {
  import opened Text
  import opened Models

  datatype Fault = Timeout | Connection | Http(status: int) | Other

  /** Worth one more attempt: timeouts, dropped connections and 5xx. */
  predicate IsTransient(f: Fault) {
    match f
    case Timeout => true
    case Connection => true
    case Http(status) => 500 <= status < 600
    case Other => false
  }

  /** The body of an order request, amounts in paise. */
  datatype OrderPayload = OrderPayload(amount: nat, currency: string, receipt: Option<string>)

  /** A response of Razorpay, or an order's response with the one to the capture of its payment. */
  datatype Payment = Body(text: string) | Both(order: Payment, capture: Payment)

  /** What comes of a request: a response, or an exception in the client. */
  datatype Reply = Created(payment: Payment) | Failed(fault: Fault)

  /** One attempt: stopped by the chaos injector before the request, or sent. */
  datatype Attempt = Blocked | Sent(reply: Reply)

  function Outcome(a: Attempt): Reply {
    if a.Blocked? then Failed(Timeout) else a.reply
  }

  function OrderFor(mandate: Mandate, proposal: Proposal): OrderPayload {
    OrderPayload(proposal.quotedTotalPaise, mandate.currency, Some(mandate.mandateId))
  }

  /** The requests that an attempt puts on the wire. */
  function Wire(a: Attempt, order: OrderPayload): seq<OrderPayload> {
    if a.Sent? then [order] else []
  }

  /** Exactly the attempts worth one more: stopped by chaos, timed out, dropped, or answered with a 5xx status. */
  lemma TransientExactly(a: Attempt)
    ensures Outcome(a).Failed? && IsTransient(Outcome(a).fault) <==>
            || a == Blocked || a == Sent(Failed(Timeout)) || a == Sent(Failed(Connection))
            || exists status | 500 <= status < 600 :: a == Sent(Failed(Http(status)))
  {
  }

  class RazorpayClient {
    /** The answers to the n-th order request and the n-th capture. */
    const oracle: nat -> Reply
    const captureOracle: nat -> Reply
    var orders: seq<OrderPayload>
    var captures: seq<(string, nat)>

    constructor (oracle: nat -> Reply, captureOracle: nat -> Reply)
      ensures this.oracle == oracle && this.captureOracle == captureOracle && orders == [] && captures == []
    {
      this.oracle := oracle;
      this.captureOracle := captureOracle;
      orders := [];
      captures := [];
    }

    method Create(payload: OrderPayload) returns (r: Reply)
      modifies this`orders
      ensures orders == old(orders) + [payload] && r == oracle(|old(orders)|)
    {
      r := oracle(|orders|);
      orders := orders + [payload];
    }

    method Capture(paymentId: string, amount: nat) returns (r: Reply)
      modifies this`captures
      ensures captures == old(captures) + [(paymentId, amount)] && r == captureOracle(|old(captures)|)
    {
      r := captureOracle(|captures|);
      captures := captures + [(paymentId, amount)];
    }
  }

  class PaymentExecutor {
    const client: RazorpayClient
    /** Whether the n-th call is made to fail before it reaches Razorpay. */
    const chaos: nat -> bool
    const capture: bool
    var calls: nat
    /** How often Execute was called. */
    var attempts: nat

    constructor (client: RazorpayClient, chaos: nat -> bool, capture: bool)
      ensures this.client == client && this.chaos == chaos && this.capture == capture && calls == attempts == 0
    {
      this.client := client;
      this.chaos := chaos;
      this.capture := capture;
      calls, attempts := 0, 0;
    }

    /** The attempt that a call made now would be. */
    function Next(): Attempt
      reads this, client
    {
      if chaos(calls) then Blocked else Sent(client.oracle(|client.orders|))
    }

    /** The attempt that the call after the next one would be. */
    function AfterNext(): Attempt
      reads this, client
    {
      if chaos(calls + 1) then Blocked
      else Sent(client.oracle(if chaos(calls) then |client.orders| else |client.orders| + 1))
    }

    method CreateOrder(amount: nat, currency: string, receipt: Option<string>) returns (r: Reply)
      modifies this`calls, client`orders
      ensures r == Outcome(old(Next())) && calls == old(calls) + 1
      ensures client.orders == old(client.orders) + Wire(old(Next()), OrderPayload(amount, currency, receipt))
      ensures if old(chaos(calls)) then r == Failed(Timeout) && client.orders == old(client.orders)
              else
                && r == client.oracle(|old(client.orders)|)
                && client.orders == old(client.orders) + [OrderPayload(amount, currency, receipt)]
    {
      var blocked := chaos(calls);
      calls := calls + 1;
      if blocked {
        return Failed(Timeout);
      }
      var payload := OrderPayload(amount, currency, None);
      if receipt.Some? {
        payload := payload.(receipt := receipt);
      }
      r := client.Create(payload);
    }

    /** Whether an execution captures: an order came back, capture is on and a payment is named. */
    predicate Captures(ordered: Reply, paymentId: Option<string>) {
      ordered.Created? && capture && paymentId.Some? && paymentId.value != ""
    }

    /** What a capture attempted by the call numbered n would come to. */
    function CaptureOutcome(n: nat): Reply
      reads client
    {
      if chaos(n) then Failed(Timeout) else client.captureOracle(|client.captures|)
    }

    /** Creates the order of a proposal, and captures a named payment if that is switched on. */
    method Execute(mandate: Mandate, proposal: Proposal, paymentId: Option<string>) returns (r: Reply)
      modifies this`calls, this`attempts, client`orders, client`captures
      ensures attempts == old(attempts) + 1
      ensures client.orders == old(client.orders) + Wire(old(Next()), OrderFor(mandate, proposal))
      ensures client.orders == old(client.orders)
                + if old(chaos(calls)) then []
                  else [OrderPayload(proposal.quotedTotalPaise, mandate.currency, Some(mandate.mandateId))]
      ensures var ordered := Outcome(old(Next()));
              if Captures(ordered, paymentId) then
                var captured := old(CaptureOutcome(calls + 1));
                && calls == old(calls) + 2
                && r == (if captured.Created? then Created(Both(ordered.payment, captured.payment)) else captured)
                && client.captures == old(client.captures)
                     + if old(chaos(calls + 1)) then [] else [(paymentId.value, proposal.quotedTotalPaise)]
              else calls == old(calls) + 1 && r == ordered && client.captures == old(client.captures)
      ensures !Captures(Outcome(old(Next())), paymentId) ==> Next() == old(AfterNext())
    {
      attempts := attempts + 1;
      r := CreateOrder(proposal.quotedTotalPaise, mandate.currency, Some(mandate.mandateId));
      if Captures(r, paymentId) {
        var captured := CapturePayment(paymentId.value, proposal.quotedTotalPaise);
        r := if captured.Created? then Created(Both(r.payment, captured.payment)) else captured;
      }
    }

    method CapturePayment(paymentId: string, amount: nat) returns (r: Reply)
      modifies this`calls, client`captures
      ensures r == old(CaptureOutcome(calls)) && calls == old(calls) + 1
      ensures client.captures == old(client.captures) + if old(chaos(calls)) then [] else [(paymentId, amount)]
    {
      var blocked := chaos(calls);
      calls := calls + 1;
      if blocked {
        return Failed(Timeout);
      }
      r := client.Capture(paymentId, amount);
    }
  }
}
