/** The payment progress dialog: which status shows it, its title and
    description keys, and its action button. */
module ProcessingModal {
  import opened Wrappers

  datatype PaymentStatus = Idle | Processing | Success | Failed

  datatype Operation = Subscribe | Upgrade | Topup

  /** The dialog is up for every status except idle. */
  function Visible(status: PaymentStatus): (visible: bool)
    ensures visible <==> status != Idle
  {
    status != Idle
  }

  /** `getTitle()`: one key per status, and for success one per operation. */
  function Title(status: PaymentStatus, operation: Option<Operation>): (title: string)
    ensures title == "" <==> status == Idle
    ensures status == Processing ==> title == "payment.paying"
    ensures status == Failed ==> title == "payment.purchaseFailedTitle"
    ensures status == Success && operation == Some(Subscribe) ==> title == "payment.subscribeSuccess"
    ensures status == Success && operation == Some(Upgrade) ==> title == "payment.upgradeSuccess"
    ensures status == Success && operation == Some(Topup) ==> title == "payment.topupSuccess"
    ensures status == Success && operation.None? ==> title == "payment.success"
  {
    match status
    case Processing => "payment.paying"
    case Success =>
      (match operation
       case Some(Subscribe) => "payment.subscribeSuccess"
       case Some(Upgrade) => "payment.upgradeSuccess"
       case Some(Topup) => "payment.topupSuccess"
       case None => "payment.success")
    case Failed => "payment.purchaseFailedTitle"
    case Idle => ""
  }

  /** `getDescription()`, built the same way as the title. */
  function Description(status: PaymentStatus, operation: Option<Operation>): (description: string)
    ensures description == "" <==> status == Idle
    ensures status == Processing ==> description == "payment.payingTip"
    ensures status == Failed ==> description == "payment.pleaseRetry"
    ensures status == Success && operation == Some(Subscribe) ==> description == "payment.subscribeSuccessMsg"
    ensures status == Success && operation == Some(Upgrade) ==> description == "payment.upgradeSuccessMsg"
    ensures status == Success && operation == Some(Topup) ==> description == "payment.topupSuccessMsg"
    ensures status == Success && operation.None? ==> description == "payment.purchaseSuccessMsg"
  {
    match status
    case Processing => "payment.payingTip"
    case Success =>
      (match operation
       case Some(Subscribe) => "payment.subscribeSuccessMsg"
       case Some(Upgrade) => "payment.upgradeSuccessMsg"
       case Some(Topup) => "payment.topupSuccessMsg"
       case None => "payment.purchaseSuccessMsg")
    case Failed => "payment.pleaseRetry"
    case Idle => ""
  }

  /** While processing and after a failure, the texts do not depend on the operation. */
  lemma TextsIgnoreOperation(status: PaymentStatus, op1: Option<Operation>, op2: Option<Operation>)
    requires status == Processing || status == Failed
    ensures Title(status, op1) == Title(status, op2)
    ensures Description(status, op1) == Description(status, op2)
  {
  }

  /** After success every operation, and the missing one, has its own title
      and its own description. */
  lemma SuccessTextsPerOperation(op1: Option<Operation>, op2: Option<Operation>)
    requires op1 != op2
    ensures Title(Success, op1) != Title(Success, op2)
    ensures Description(Success, op1) != Description(Success, op2)
  {
    assert Title(Success, op1)[8] != Title(Success, op2)[8] || |Title(Success, op1)| != |Title(Success, op2)|;
    assert Description(Success, op1)[8] != Description(Success, op2)[8] || |Description(Success, op1)| != |Description(Success, op2)|;
  }

  /** The button under the texts, present only once the payment is over:
      "ok" after success, "retry" after failure (both close the dialog). */
  function ActionButton(status: PaymentStatus): (button: Option<string>)
    ensures button.Some? <==> status == Success || status == Failed
    ensures status == Success ==> button == Some("common.ok")
    ensures status == Failed ==> button == Some("payment.retry")
  {
    match status
    case Success => Some("common.ok")
    case Failed => Some("payment.retry")
    case _ => None
  }
}
