/**
 * The customer detail dialog (app/modules/customers/ui/customer-detail-modal.tsx):
 * its own copies of the status and type styles, the per-row refund action,
 * and the two pieces of state the refund flow moves through, the pending
 * confirmation and the transaction being refunded.
 */
module CustomerDetailModal {
  import opened Js
  import opened Ui
  import TransactionSchema
  import TransactionColumns

  /** One row of the customer's transaction history. */
  datatype UserTransaction = UserTransaction(
    id: string,
    idTransaction: string,
    transactionType: string,
    transactionStatus: string,
    paymentType: string,
    amount: int,
    currency: string,
    paymentDate: Option<string>,
    createdAt: Option<string>,
    canRefund: bool,
    refundStatus: Option<string>)

  /** `getStatusVariant`, as the dialog defines it. */
  function StatusVariant(status: string): (v: Variant)
    ensures v == Outline <==> status !in TransactionSchema.TransactionStatuses
  {
    match status
    case "success" => Default
    case "in_process" => Secondary
    case "waiting_user_interaction" => Secondary
    case "failed" => Destructive
    case _ => Outline
  }

  /** `getTypeVariant`, as the dialog defines it: it has no `rdr` case, so
      `rdr` reaches the default branch together with every unknown type. */
  function TypeVariant(transactionType: string): (v: Variant)
    ensures v == Outline <==> transactionType !in ["payment", "refund", "chargeback"]
  {
    match transactionType
    case "payment" => Default
    case "refund" => Destructive
    case "chargeback" => Destructive
    case _ => Outline
  }

  /** `formatStatus`, as the dialog defines it (a label record over all
      strings, with the status itself as the fallback). */
  function FormatStatus(status: string): (r: string)
    ensures status !in TransactionSchema.TransactionStatuses ==> r == status
  {
    match status
    case "success" => "Success"
    case "failed" => "Failed"
    case "in_process" => "In Process"
    case "waiting_user_interaction" => "Waiting"
    case _ => status
  }

  /** The dialog styles and labels statuses and types exactly as the
      transactions table does, for every input, `rdr` included. */
  lemma AgreesWithTransactionsTable(status: string, transactionType: string)
    ensures StatusVariant(status) == TransactionColumns.StatusVariant(status)
    ensures FormatStatus(status) == TransactionColumns.FormatStatus(status)
    ensures TypeVariant(transactionType) == TransactionColumns.TypeVariant(transactionType)
  {
  }

  /** The payment column: the raw payment type, as the transactions table
      captions it, but always in the outline style, so unlike that table
      the dialog does not set initial and recurring payments apart. */
  function PaymentCell(tx: UserTransaction): (c: Cell)
    ensures c.Badge? && c.caption == TransactionColumns.PaymentTypeCell(tx.paymentType).caption
    ensures c.variant == Outline
    ensures (c.variant == TransactionColumns.PaymentTypeCell(tx.paymentType).variant)
              <==> tx.paymentType !in ["initial", "recurring"]
  {
    Badge(Outline, tx.paymentType)
  }

  /** The date a row shows: `payment_date || created_at`. */
  function RowDate(tx: UserTransaction): (d: Option<string>)
    ensures Truthy(tx.paymentDate) ==> d == tx.paymentDate
    ensures !Truthy(tx.paymentDate) ==> d == tx.createdAt
  {
    if Truthy(tx.paymentDate) then tx.paymentDate else tx.createdAt
  }

  /** What the actions column of a row holds. */
  datatype Action =
    | ConfirmOrCancel(busy: bool)   // Confirm and Cancel, both disabled while `busy`
    | RefundButton
    | RefundedBadge                 // a disabled "Refunded" button
    | NoAction                      // the muted dash

  /** The refund flow's state: the row awaiting confirmation and the
      `id_transaction` whose refund is in flight. */
  datatype RefundState = RefundState(confirmRefund: Option<UserTransaction>, refundingId: Option<string>)

  const Idle := RefundState(None, None)

  /** The actions cell of a row. A refundable row offers Refund, or
      Confirm/Cancel when it is the one awaiting confirmation (matched by
      `id`); the buttons are busy while this row's `id_transaction` is being
      refunded. A row that cannot be refunded shows "Refunded" when it was. */
  function ActionCell(tx: UserTransaction, s: RefundState): (a: Action)
    ensures a.ConfirmOrCancel? <==> tx.canRefund && s.confirmRefund.Some? && s.confirmRefund.value.id == tx.id
    ensures a == RefundButton <==> tx.canRefund && !(s.confirmRefund.Some? && s.confirmRefund.value.id == tx.id)
    ensures a == RefundedBadge <==> !tx.canRefund && tx.refundStatus == Some("refunded")
    ensures a.ConfirmOrCancel? ==> (a.busy <==> s.refundingId == Some(tx.idTransaction))
  {
    if tx.canRefund then
      if s.confirmRefund.Some? && s.confirmRefund.value.id == tx.id then
        ConfirmOrCancel(s.refundingId == Some(tx.idTransaction))
      else RefundButton
    else if tx.refundStatus == Some("refunded") then RefundedBadge
    else NoAction
  }

  /** The Confirm button's caption. */
  function ConfirmLabel(busy: bool): (r: string)
    ensures r == "Processing..." <==> busy
  {
    if busy then "Processing..." else "Confirm"
  }

  /** In a history whose rows have distinct ids, at most one row shows
      Confirm/Cancel. */
  lemma AtMostOneConfirmRow(rows: seq<UserTransaction>, s: RefundState, i: int, j: int)
    requires forall m, n :: 0 <= m < n < |rows| ==> rows[m].id != rows[n].id
    requires 0 <= i < |rows| && 0 <= j < |rows|
    requires ActionCell(rows[i], s).ConfirmOrCancel? && ActionCell(rows[j], s).ConfirmOrCancel?
    ensures i == j
  {
  }

  /** The Refund button: this row now awaits confirmation. */
  function AskConfirm(s: RefundState, tx: UserTransaction): (t: RefundState)
    ensures t.confirmRefund == Some(tx) && t.refundingId == s.refundingId
  {
    s.(confirmRefund := Some(tx))
  }

  /** The Cancel button: no row awaits confirmation. */
  function CancelConfirm(s: RefundState): (t: RefundState)
    ensures t.confirmRefund == None && t.refundingId == s.refundingId
  {
    s.(confirmRefund := None)
  }

  /** What the refund endpoint is asked for. */
  datatype RefundRequest = RefundRequest(chargeId: string, reason: string)

  function RequestFor(tx: UserTransaction): (r: RefundRequest)
    ensures r.chargeId == tx.idTransaction && r.reason == "requested_by_customer"
  {
    RefundRequest(tx.idTransaction, "requested_by_customer")
  }

  /** `handleRefund` before the call: the transaction is marked as being refunded. */
  function StartRefund(s: RefundState, tx: UserTransaction): (t: RefundState)
    ensures t.refundingId == Some(tx.idTransaction) && t.confirmRefund == s.confirmRefund
  {
    s.(refundingId := Some(tx.idTransaction))
  }

  /** `handleRefund` after the call: the confirmation is dropped only on
      success, and nothing is marked as being refunded any more. */
  function SettleRefund(s: RefundState, succeeded: bool): (t: RefundState)
    ensures t.refundingId == None
    ensures succeeded ==> t.confirmRefund == None
    ensures !succeeded ==> t.confirmRefund == s.confirmRefund
  {
    RefundState(if succeeded then None else s.confirmRefund, None)
  }

  /** Confirming a refund: while the call is in flight the row's buttons
      are busy; afterwards they are enabled again, and the row is back to
      Refund on success or still awaiting confirmation on failure. */
  lemma RefundCycle(s: RefundState, tx: UserTransaction, succeeded: bool)
    requires tx.canRefund && s.confirmRefund == Some(tx)
    ensures ActionCell(tx, StartRefund(s, tx)) == ConfirmOrCancel(true)
    ensures ActionCell(tx, SettleRefund(StartRefund(s, tx), succeeded)) ==
              if succeeded then RefundButton else ConfirmOrCancel(false)
  {
  }

  /** Only the row being refunded is busy: another row awaiting
      confirmation stays enabled as long as its `id_transaction` differs. */
  lemma OnlyRefundingRowBusy(s: RefundState, tx: UserTransaction, other: UserTransaction)
    requires other.idTransaction != tx.idTransaction
    requires ActionCell(other, StartRefund(s, tx)).ConfirmOrCancel?
    ensures !ActionCell(other, StartRefund(s, tx)).busy
  {
  }

  /** The green indicator dot on the Notes button: notes are loaded and there is at least one. */
  predicate HasNotes<T>(notes: Option<seq<T>>)
    ensures HasNotes(notes) <==> notes.Some? && notes.value != []
  {
    notes.Some? && |notes.value| > 0
  }

  /** The Notes button is disabled exactly when no customer is selected. */
  predicate NotesButtonDisabled(customerId: Option<string>)
    ensures NotesButtonDisabled(customerId) <==> !Truthy(customerId)
  {
    customerId.None? || customerId.value == ""
  }

  /** While one refund is in flight the other rows keep an enabled Refund
      button, and the dialog tracks a single in-flight refund. So: row `a`
      is confirmed and sent; row `b` is then confirmed and sent too; when
      `a`'s call comes back successfully it clears the confirmation and the
      in-flight mark, and `b` offers Refund and then an enabled Confirm
      again although `b`'s first request has not settled, so a second
      refund request for `b` can be sent. */
  lemma SecondRequestWhileFirstPending(a: UserTransaction, b: UserTransaction)
    requires a.canRefund && b.canRefund
    requires a.id != b.id && a.idTransaction != b.idTransaction
    ensures var aSent := StartRefund(AskConfirm(Idle, a), a);
            && ActionCell(b, aSent) == RefundButton
            && var bSent := StartRefund(AskConfirm(aSent, b), b);
            && ActionCell(b, bSent) == ConfirmOrCancel(true)
            && var aBack := SettleRefund(bSent, true);
            && ActionCell(b, aBack) == RefundButton
            && ActionCell(b, AskConfirm(aBack, b)) == ConfirmOrCancel(false)
  {
  }

  /** The dialog's refund state, updated by the row buttons and by
      `handleRefund` around the refund call. */
  class RefundFlow {
    var confirmRefund: Option<UserTransaction>
    var refundingId: Option<string>

    function State(): RefundState
      reads this
    {
      RefundState(confirmRefund, refundingId)
    }

    constructor ()
      ensures State() == Idle
    {
      confirmRefund, refundingId := None, None;
    }

    /** Refund is clicked in a row that offers it. */
    method ClickRefund(tx: UserTransaction)
      requires ActionCell(tx, State()) == RefundButton
      modifies this
      ensures State() == AskConfirm(old(State()), tx)
    {
      confirmRefund := Some(tx);
    }

    /** Cancel is clicked in the confirming row; it is disabled while that
        row's refund is in flight. */
    method ClickCancel(tx: UserTransaction)
      requires ActionCell(tx, State()) == ConfirmOrCancel(false)
      modifies this
      ensures State() == CancelConfirm(old(State()))
    {
      confirmRefund := None;
    }

    /** `handleRefund(tx)` up to its `await`, from the enabled Confirm
        button: the transaction is marked as being refunded and the refund
        request is sent. */
    method BeginRefund(tx: UserTransaction) returns (request: RefundRequest)
      requires ActionCell(tx, State()) == ConfirmOrCancel(false)
      modifies this
      ensures request == RequestFor(tx)
      ensures State() == StartRefund(old(State()), tx)
    {
      refundingId := Some(tx.idTransaction);
      request := RefundRequest(tx.idTransaction, "requested_by_customer");
    }

    /** `handleRefund` after its `await`, whichever row's call it is that
        settles. The call's outcome is `succeeded`. Other clicks may come
        between `BeginRefund` and this. */
    method FinishRefund(succeeded: bool)
      modifies this
      ensures State() == SettleRefund(old(State()), succeeded)
    {
      if succeeded {
        confirmRefund := None;
      }
      refundingId := None;
    }
  }
}
