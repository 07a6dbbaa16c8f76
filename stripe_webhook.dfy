/** The payment webhook (`src/app/api/webhooks/stripe/route.ts`): a signature guard, then
    one role update per event type. Signature verification is an input: the event it
    yields, or `None` when it throws. Each event makes at most one database call, whose
    failure `fault` stands for. */
module StripeWebhook {
  import opened Wrappers
  import opened Users
  import Capabilities

  /** The fields of the verified event the handler reads. */
  datatype StripeEvent =
    | CheckoutCompleted(userId: Option<string>, customer: Option<string>, subscription: Option<string>)
    | SubscriptionUpdated(subCustomer: string, status: string, cancelAtPeriodEnd: bool)
    | SubscriptionDeleted(deletedCustomer: string)
    | OtherEvent(eventType: string)

  datatype StripeResponse =
    | NoSignature       // 400 {error: "No signature"}
    | InvalidSignature  // 400 {error: "Invalid signature"}
    | Skipped           // 200 {received: true, skipped: true}
    | Received          // 200 {received: true}
    | HandlerFailed     // 500 {error: "Webhook handler failed"}

  function HttpStatus(r: StripeResponse): (code: int)
    ensures code == 400 <==> r.NoSignature? || r.InvalidSignature?
    ensures code == 500 <==> r.HandlerFailed?
    ensures code == 200 <==> r.Skipped? || r.Received?
  {
    match r
    case NoSignature => 400
    case InvalidSignature => 400
    case Skipped => 200
    case Received => 200
    case HandlerFailed => 500
  }

  /** `status === "active" && !cancel_at_period_end`. */
  predicate ShouldBeProUser(status: string, cancelAtPeriodEnd: bool) {
    status == "active" && !cancelAtPeriodEnd
  }

  function SubscriptionRole(status: string, cancelAtPeriodEnd: bool): (role: string)
    ensures role == "PRO" <==> status == "active" && !cancelAtPeriodEnd
    ensures role != "PRO" ==> role == "FREE"
  {
    if ShouldBeProUser(status, cancelAtPeriodEnd) then "PRO" else "FREE"
  }

  /** A database call's outcome as the handler's answer and the table after it. */
  function Settle(t: Table, r: Option<Table>): (StripeResponse, Table) {
    if r.Some? then (Received, r.value) else (HandlerFailed, t)
  }

  /** The answer and the new table for one request. */
  function StripeOutcome(t: Table, signature: Option<string>, verified: Option<StripeEvent>,
                         fault: bool): (StripeResponse, Table)
  {
    if signature.None? || signature.value == "" then (NoSignature, t)
    else if verified.None? then (InvalidSignature, t)
    else
      match verified.value
      case CheckoutCompleted(userId, customer, subscription) =>
        if userId.None? || userId.value == "" then (Skipped, t)
        else Settle(t, UpdateBilling(t, userId.value, "PRO", customer, subscription, fault))
      case SubscriptionUpdated(customer, status, cancel) =>
        Settle(t, UpdateRoleByCustomer(t, customer, SubscriptionRole(status, cancel), fault))
      case SubscriptionDeleted(customer) =>
        Settle(t, UpdateRoleByCustomer(t, customer, "FREE", fault))
      case OtherEvent(_) => (Received, t)
  }

  /** `POST`. */
  method HandleStripePost(db: UserDb, signature: Option<string>, verified: Option<StripeEvent>,
                          fault: bool) returns (resp: StripeResponse)
    requires db.Valid()
    modifies db
    ensures db.Valid()
    ensures (resp, db.users) == StripeOutcome(old(db.users), signature, verified, fault)
  {
    if signature.None? || signature.value == "" {
      return NoSignature;
    }
    if verified.None? {
      return InvalidSignature;
    }
    var event := verified.value;
    var ok := true;
    match event {
      case CheckoutCompleted(userId, customer, subscription) =>
        if userId.None? || userId.value == "" {
          return Skipped;
        }
        ok := db.Update(userId.value, "PRO", customer, subscription, fault);
      case SubscriptionUpdated(customer, status, cancel) =>
        var shouldBeProUser := ShouldBeProUser(status, cancel);
        ok := db.UpdateByCustomer(customer, if shouldBeProUser then "PRO" else "FREE", fault);
      case SubscriptionDeleted(customer) =>
        ok := db.UpdateByCustomer(customer, "FREE", fault);
      case OtherEvent(_) =>
    }
    resp := if ok then Received else HandlerFailed;
  }

  // ---------------------------------------------------------------- properties

  /** Without a signature, or with one that does not verify, the answer is 400 and the
      table is untouched. */
  lemma GuardsChangeNothing(t: Table, signature: Option<string>, verified: Option<StripeEvent>, fault: bool)
    requires signature.None? || signature.value == "" || verified.None?
    ensures HttpStatus(StripeOutcome(t, signature, verified, fault).0) == 400
    ensures StripeOutcome(t, signature, verified, fault).1 == t
  {
  }

  /** Whatever the request, every answer other than a success leaves the table as it was,
      and the table stays valid. */
  lemma OnlySuccessWrites(t: Table, signature: Option<string>, verified: Option<StripeEvent>, fault: bool)
    requires ValidTable(t)
    ensures ValidTable(StripeOutcome(t, signature, verified, fault).1)
    ensures StripeOutcome(t, signature, verified, fault).0 != Received ==>
      StripeOutcome(t, signature, verified, fault).1 == t
  {
    if signature.Some? && signature.value != "" && verified.Some? {
      match verified.value
      case CheckoutCompleted(userId, customer, subscription) =>
        if userId.Some? && userId.value != "" {
          var r := UpdateBilling(t, userId.value, "PRO", customer, subscription, fault);
          if r.Some? {
            UpdateBillingChangesOneRow(t, userId.value, "PRO", customer, subscription);
          }
        }
      case SubscriptionUpdated(customer, status, cancel) =>
        var r := UpdateRoleByCustomer(t, customer, SubscriptionRole(status, cancel), fault);
        if r.Some? {
          UpdateRoleByCustomerChangesOneRow(t, customer, SubscriptionRole(status, cancel));
        }
      case SubscriptionDeleted(customer) =>
        var r := UpdateRoleByCustomer(t, customer, "FREE", fault);
        if r.Some? {
          UpdateRoleByCustomerChangesOneRow(t, customer, "FREE");
        }
      case OtherEvent(_) =>
    }
  }

  /** A completed checkout without a user id in its metadata is skipped. */
  lemma CheckoutWithoutUserIsSkipped(t: Table, signature: string, customer: Option<string>,
                                     subscription: Option<string>, fault: bool)
    requires signature != ""
    ensures StripeOutcome(t, Some(signature), Some(CheckoutCompleted(None, customer, subscription)), fault)
      == (Skipped, t)
    ensures StripeOutcome(t, Some(signature), Some(CheckoutCompleted(Some(""), customer, subscription)), fault)
      == (Skipped, t)
  {
  }

  /** A completed checkout for a known user makes that user "PRO" and records the customer
      and subscription; no other row changes. */
  lemma CheckoutUpgrades(t: Table, signature: string, userId: string, customer: Option<string>,
                         subscription: Option<string>)
    requires ValidTable(t) && signature != "" && userId != ""
    requires userId in t && !CustomerTaken(t, customer, userId)
    ensures var (resp, u) := StripeOutcome(t, Some(signature),
                                           Some(CheckoutCompleted(Some(userId), customer, subscription)), false);
      && resp == Received
      && u[userId].role == Some("PRO")
      && u[userId].stripeCustomerId == customer && u[userId].stripeSubscriptionId == subscription
      && (forall k :: k in t && k != userId ==> u[k] == t[k])
  {
    UpdateBillingChangesOneRow(t, userId, "PRO", customer, subscription);
  }

  /** A subscription update sets the customer's role to "PRO" exactly when the subscription
      is active and not set to cancel, and to "FREE" otherwise; an unknown customer makes
      the update throw, and the answer is 500. */
  lemma SubscriptionUpdateSetsRole(t: Table, signature: string, customer: string, status: string,
                                   cancel: bool)
    requires ValidTable(t) && signature != ""
    ensures var (resp, u) := StripeOutcome(t, Some(signature),
                                           Some(SubscriptionUpdated(customer, status, cancel)), false);
      && (HasCustomer(t, customer) ==>
            resp == Received
            && exists k :: k in t && t[k].stripeCustomerId == Some(customer)
                 && u == t[k := t[k].(role := Some(if status == "active" && !cancel then "PRO" else "FREE"))])
      && (!HasCustomer(t, customer) ==> resp == HandlerFailed && u == t)
  {
    if HasCustomer(t, customer) {
      UpdateRoleByCustomerChangesOneRow(t, customer, SubscriptionRole(status, cancel));
    }
  }

  /** A deleted subscription sets the customer's role to "FREE". */
  lemma SubscriptionDeletionDowngrades(t: Table, signature: string, customer: string)
    requires ValidTable(t) && signature != "" && HasCustomer(t, customer)
    ensures var (resp, u) := StripeOutcome(t, Some(signature), Some(SubscriptionDeleted(customer)), false);
      && resp == Received
      && exists k :: k in t && t[k].stripeCustomerId == Some(customer)
           && u == t[k := t[k].(role := Some("FREE"))]
  {
    UpdateRoleByCustomerChangesOneRow(t, customer, "FREE");
  }

  /** Event types without a branch are acknowledged and change nothing. */
  lemma OtherEventsAcknowledged(t: Table, signature: string, eventType: string, fault: bool)
    requires signature != ""
    ensures StripeOutcome(t, Some(signature), Some(OtherEvent(eventType)), fault) == (Received, t)
  {
  }

  /** The role a paying user is given does not pass the premium check, which accepts only
      "PREMIUM". */
  lemma UpgradeDoesNotGrantPremium(t: Table, signature: string, userId: string,
                                   customer: Option<string>, subscription: Option<string>)
    requires ValidTable(t) && signature != "" && userId != ""
    requires userId in t && !CustomerTaken(t, customer, userId)
    ensures var u := StripeOutcome(t, Some(signature),
                                   Some(CheckoutCompleted(Some(userId), customer, subscription)), false).1;
      userId in u && !Capabilities.HasPremium(u[userId].role)
  {
    CheckoutUpgrades(t, signature, userId, customer, subscription);
    Capabilities.OnlyPremiumPasses();
  }
}
