/** The iOS purchase screen: the in-app-purchase readiness flag, the
    payment status machine (idle, processing, then success or failed, then
    idle again) and the props it hands to the product list. The store
    connection, the product fetch and the billing call are outside the
    model: their outcomes are parameters, and the awaited billing call is
    split into the part before it and the part after it settles. */
module IosPurchase {
  import opened Wrappers
  import opened Subscription
  import opened ProcessingModal

  /** `onPay`'s immediate effect. */
  datatype PayOutcome = NotReady | Started(operation: Operation)

  /** The operation a purchase is recorded as: recurring plans subscribe,
      everything else tops up; upgrades are never chosen here. */
  function OperationFor(item: PricingPlan): (op: Operation)
    ensures op != Operation.Upgrade
    ensures op == Subscribe <==> item.mode == Recurring
  {
    if item.mode == Recurring then Subscribe else Topup
  }

  /** ProductList's `loading` prop. */
  function Loading(status: PaymentStatus): (loading: bool)
    ensures loading <==> status == Processing
  {
    status == Processing
  }

  /** ProductList's `disabled` prop: purchases are blocked until the store
      is connected and initialised. */
  function Disabled(connected: bool, isReady: bool): (disabled: bool)
    ensures !disabled <==> connected && isReady
  {
    !connected || !isReady
  }

  class Screen {
    var connected: bool
    var isReady: bool
    var paymentStatus: PaymentStatus
    var currentOperation: Option<Operation>

    /** The operation shown is never an upgrade. (Readiness does not imply a
        connection: a connection lost after initialisation leaves `isReady`
        set.) */
    ghost predicate Valid()
      reads this
    {
      currentOperation != Some(Operation.Upgrade)
    }

    constructor (connected: bool)
      ensures Valid()
      ensures this.connected == connected && !isReady
      ensures paymentStatus == Idle && currentOperation.None?
    {
      this.connected := connected;
      isReady := false;
      paymentStatus := Idle;
      currentOperation := None;
    }

    /** The initialisation effect: once connected, the screen becomes ready
        whether or not the product fetch succeeded. */
    method Initialize(fetchSucceeded: bool)
      requires Valid()
      modifies this`isReady
      ensures Valid()
      ensures isReady == (old(isReady) || connected)
    {
      if connected {
        isReady := true;
      }
    }

    /** The store connection changes after mount. The initialisation effect
        depends on `connected`, so it runs again and, when connected, sets
        the screen ready; losing the connection does not clear `isReady`. */
    method ConnectionChanged(now: bool, fetchSucceeded: bool)
      requires Valid()
      modifies this`connected, this`isReady
      ensures Valid()
      ensures connected == now
      ensures isReady == (old(isReady) || now)
    {
      connected := now;
      Initialize(fetchSucceeded);
    }

    /** `onPay(item)` up to the billing call. `hasMetadata` says whether the
        store knows the product; a missing entry is only a warning. */
    method OnPay(item: PricingPlan, hasMetadata: bool) returns (outcome: PayOutcome)
      requires Valid()
      modifies this`paymentStatus, this`currentOperation
      ensures Valid()
      ensures outcome == (if connected && isReady then Started(OperationFor(item)) else NotReady)
      ensures outcome == NotReady ==> paymentStatus == old(paymentStatus) && currentOperation == old(currentOperation)
      ensures outcome.Started? ==> paymentStatus == Processing && currentOperation == Some(outcome.operation)
    {
      if !connected || !isReady {
        return NotReady;
      }
      if !hasMetadata {
        // The product is bought anyway.
      }
      var operation := OperationFor(item);
      currentOperation := Some(operation);
      paymentStatus := Processing;
      return Started(operation);
    }

    /** The billing call settles: resolved means success, thrown means failed. */
    method BillingSettled(succeeded: bool)
      requires Valid()
      modifies this`paymentStatus
      ensures Valid()
      ensures paymentStatus == (if succeeded then Success else Failed)
    {
      if succeeded {
        paymentStatus := Success;
      } else {
        paymentStatus := Failed;
      }
    }

    /** `handleCloseModal()`: always back to idle with no operation; the
        screen navigates back only when closing a success. */
    method HandleCloseModal() returns (navigateBack: bool)
      requires Valid()
      modifies this`paymentStatus, this`currentOperation
      ensures Valid()
      ensures paymentStatus == Idle && currentOperation.None?
      ensures navigateBack <==> old(paymentStatus) == Success
    {
      navigateBack := paymentStatus == Success;
      paymentStatus := Idle;
      currentOperation := None;
    }

    /** The success timer fires (it is cancelled when the status changes
        first), closing the dialog as the button would. */
    method AutoCloseFired() returns (navigateBack: bool)
      requires Valid() && paymentStatus == Success
      modifies this`paymentStatus, this`currentOperation
      ensures Valid()
      ensures paymentStatus == Idle && currentOperation.None? && navigateBack
    {
      navigateBack := HandleCloseModal();
    }
  }

  /** A whole purchase from an enabled product list: it starts, and the
      dialog then shows the result of the billing call for the operation
      the item calls for. */
  method PurchaseFlow(s: Screen, item: PricingPlan, hasMetadata: bool, succeeded: bool)
    returns (outcome: PayOutcome, title: string)
    requires s.Valid() && !Disabled(s.connected, s.isReady)
    modifies s
    ensures s.Valid()
    ensures outcome == Started(OperationFor(item))
    ensures title == Title(if succeeded then Success else Failed, Some(OperationFor(item)))
    ensures succeeded ==> title == (if item.mode == Recurring then "payment.subscribeSuccess" else "payment.topupSuccess")
  {
    outcome := s.OnPay(item, hasMetadata);
    s.BillingSettled(succeeded);
    title := Title(s.paymentStatus, s.currentOperation);
  }
}
