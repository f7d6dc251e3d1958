/** The monotonic transition policy for payment and refund webhooks (packages/shared/src/stripe-financial-state.ts). */
module StripeState {
  import opened Common

  datatype PaymentStatus = Pending | Authorized | Captured | Failed | Voided | Settled | PartiallyRefunded

  datatype PaymentEvent = Processing | Succeeded | PaymentFailed | Canceled | RequiresAction

  datatype RequestStatus = Open | Accepted | Denied

  datatype PaymentAction = Transition | Repair | Unexpected

  datatype Decision = Decision(action: PaymentAction, status: PaymentStatus)

  datatype Refusal = DeniedRequest

  function Target(e: PaymentEvent): PaymentStatus
    requires e != Processing
  {
    match e
    case Succeeded => Captured
    case PaymentFailed => Failed
    case Canceled => Voided
    case RequiresAction => Failed
  }

  function DecidePaymentIntentTransition(current: PaymentStatus, e: PaymentEvent, request: Option<RequestStatus>)
    : Result<Decision, Refusal>
  {
    if e == Processing then Ok(Decision(if current == Pending then Repair else Unexpected, current))
    else if e == Succeeded && request == Some(Denied) && current != Captured then Err(DeniedRequest)
    else if current == Target(e) then Ok(Decision(Repair, current))
    else if current == Pending || (current == Authorized && e == Succeeded) then Ok(Decision(Transition, Target(e)))
    else Ok(Decision(Unexpected, current))
  }

  /** A webhook as delivered, with the booking request's status at that moment. */
  datatype Delivery = Delivery(event: PaymentEvent, request: Option<RequestStatus>)

  /** The ledger after a delivery; a refused delivery changes nothing. */
  function Next(s: PaymentStatus, d: Delivery): PaymentStatus {
    var r := DecidePaymentIntentTransition(s, d.event, d.request);
    if r.Ok? then r.value.status else s
  }

  function Final(s: PaymentStatus, ds: seq<Delivery>): PaymentStatus {
    if ds == [] then s else Next(Final(s, ds[..|ds| - 1]), ds[|ds| - 1])
  }

  /** How often the status changes along the deliveries. */
  function Changes(s: PaymentStatus, ds: seq<Delivery>): nat {
    if ds == [] then 0
    else
      var before := Final(s, ds[..|ds| - 1]);
      Changes(s, ds[..|ds| - 1]) + if Next(before, ds[|ds| - 1]) != before then 1 else 0
  }

  predicate Absorbing(s: PaymentStatus) {
    s in {Captured, Failed, Voided, Settled, PartiallyRefunded}
  }

  /** Whatever webhooks follow, in any order and number, the status changes at most once, and not at all once final. */
  lemma {:induction false} ChangesAtMostOnce(s: PaymentStatus, ds: seq<Delivery>)
    ensures Changes(s, ds) <= 1
    ensures Changes(s, ds) == 0 <==> Final(s, ds) == s
    ensures Changes(s, ds) == 1 ==> Absorbing(Final(s, ds)) && !Absorbing(s)
    ensures Absorbing(s) ==> Final(s, ds) == s
  {
    if ds != [] {
      ChangesAtMostOnce(s, ds[..|ds| - 1]);
    }
  }

  /** The delivery moves a pending payment. */
  predicate Effective(d: Delivery) {
    d.event != Processing && !(d.event == Succeeded && d.request == Some(Denied))
  }

  /** From pending, the first effective delivery decides the outcome; without one the payment stays pending. */
  lemma {:induction false} FirstEffectiveDecides(ds: seq<Delivery>, k: nat)
    requires k <= |ds| && (forall i :: 0 <= i < k ==> !Effective(ds[i])) && (k < |ds| ==> Effective(ds[k]))
    ensures k == |ds| ==> Final(Pending, ds) == Pending
    ensures k < |ds| ==>
      Final(Pending, ds) == match ds[k].event
        case Succeeded => Captured
        case PaymentFailed => Failed
        case RequiresAction => Failed
        case Canceled => Voided
        case Processing => Pending
  {
    if ds != [] {
      var n := |ds| - 1;
      FirstEffectiveDecides(ds[..n], if k > n then n else k);
    }
  }

  /** An authorized payment is captured by the first success without a denied request, and by nothing else. */
  lemma {:induction false} FirstSuccessCaptures(ds: seq<Delivery>, k: nat)
    requires k <= |ds| && (forall i :: 0 <= i < k ==> ds[i].event != Succeeded || ds[i].request == Some(Denied))
    requires k < |ds| ==> ds[k].event == Succeeded && ds[k].request != Some(Denied)
    ensures Final(Authorized, ds) == if k < |ds| then Captured else Authorized
  {
    if ds != [] {
      var n := |ds| - 1;
      FirstSuccessCaptures(ds[..n], if k > n then n else k);
    }
  }

  /**
   * The decision says what happens: a transition changes the status, a repair confirms it, anything else is
   * unexpected and changes nothing; only a success for a denied request that is not captured is refused.
   */
  lemma DecisionIsTruthful(s: PaymentStatus, d: Delivery)
    ensures
      var r := DecidePaymentIntentTransition(s, d.event, d.request);
      && (r.Err? <==> d.event == Succeeded && d.request == Some(Denied) && s != Captured)
      && (r.Ok? ==>
          && (r.value.action == Transition <==> r.value.status != s)
          && (r.value.action == Repair <==>
              (s, d.event) in {(Pending, Processing), (Captured, Succeeded), (Failed, PaymentFailed),
                               (Failed, RequiresAction), (Voided, Canceled)}))
  {}

  /** A redelivery of something already delivered changes nothing, wherever it arrives later. */
  lemma RedeliveryIsHarmless(s: PaymentStatus, earlier: seq<Delivery>, d: Delivery, between: seq<Delivery>)
    ensures var seen := Final(Final(s, earlier + [d]), between);
      Next(seen, d) == seen
  {
    assert (earlier + [d])[..|earlier|] == earlier;
    StaysSettled(Final(s, earlier + [d]), between, d);
  }

  lemma {:induction false} StaysSettled(s: PaymentStatus, ds: seq<Delivery>, d: Delivery)
    requires Next(s, d) == s
    ensures Next(Final(s, ds), d) == Final(s, ds)
  {
    if ds != [] {
      StaysSettled(s, ds[..|ds| - 1], d);
    }
  }

  /** Once the request is denied, for good, a payment that is not captured never becomes captured. */
  lemma {:induction false} DeniedIsNeverCaptured(s: PaymentStatus, ds: seq<Delivery>)
    requires s != Captured && forall i :: 0 <= i < |ds| ==> ds[i].request == Some(Denied)
    ensures Final(s, ds) != Captured
  {
    if ds != [] {
      DeniedIsNeverCaptured(s, ds[..|ds| - 1]);
    }
  }

  // ----- Refunds --------------------------------------------------------------

  datatype RefundStatus = RefundPending | Completed | RefundFailed

  datatype ProviderStatus =
    ProviderSucceeded | ProviderPending | ProviderRequiresAction | ProviderFailed | ProviderCanceled

  datatype RefundAction = RecordPending | RefundRepair | RefundTransition | RefundUnexpected

  function RefundTarget(p: ProviderStatus): RefundStatus {
    if p == ProviderSucceeded then Completed
    else if p == ProviderFailed || p == ProviderCanceled then RefundFailed
    else RefundPending
  }

  function DecideRefundTransition(current: RefundStatus, p: ProviderStatus): (RefundAction, RefundStatus) {
    if current == RefundTarget(p) then (if current == RefundPending then RecordPending else RefundRepair, current)
    else if current == RefundPending then (RefundTransition, RefundTarget(p))
    else (RefundUnexpected, current)
  }

  function RefundFinal(s: RefundStatus, ps: seq<ProviderStatus>): RefundStatus {
    if ps == [] then s else DecideRefundTransition(RefundFinal(s, ps[..|ps| - 1]), ps[|ps| - 1]).1
  }

  predicate Conclusive(p: ProviderStatus) {
    p in {ProviderSucceeded, ProviderFailed, ProviderCanceled}
  }

  /** A refund is decided by the first conclusive provider status, and a decided refund never changes. */
  lemma {:induction false} FirstConclusiveDecides(s: RefundStatus, ps: seq<ProviderStatus>, k: nat)
    requires k <= |ps| && (forall i :: 0 <= i < k ==> !Conclusive(ps[i])) && (k < |ps| ==> Conclusive(ps[k]))
    ensures RefundFinal(s, ps) ==
      if s != RefundPending || k == |ps| then s
      else if ps[k] == ProviderSucceeded then Completed else RefundFailed
  {
    if ps != [] {
      var n := |ps| - 1;
      FirstConclusiveDecides(s, ps[..n], if k > n then n else k);
    }
  }

  /** The action tells a transition, a confirmed status and a contradiction apart. */
  lemma RefundDecisionIsTruthful(s: RefundStatus, p: ProviderStatus)
    ensures
      var (action, status) := DecideRefundTransition(s, p);
      && (action == RefundTransition <==> status != s)
      && (action == RecordPending <==> s == RefundPending && !Conclusive(p))
      && (action == RefundRepair <==>
          (s == Completed && p == ProviderSucceeded) || (s == RefundFailed && p in {ProviderFailed, ProviderCanceled}))
  {}
}
