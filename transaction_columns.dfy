/**
 * The display decisions of the transactions table
 * (app/modules/transactions/ui/columns.tsx): which badge style each enum
 * value gets, how statuses, plans and providers are labelled, and when the
 * amount is shown in the destructive colour.
 */
module TransactionColumns {
  import opened Js
  import opened Ui
  import opened TransactionSchema

  /** The `accessorKey`s of the table's columns, in display order. */
  const ColumnIds: seq<string> := [
    "email", "id_transaction", "subscription_id", "subscription_plan",
    "subscription_status", "created_at", "transaction_type", "transaction_status",
    "amount", "currency", "country", "provider", "payment_type",
    "normalized_card_brand", "card_holder_name", "bin", "last_4",
    "payment_date", "next_transaction_date", "refund_date", "updated_at"]

  /** `getStatusVariant`: success is plain, pending is muted, failure is
      destructive, and only a status outside the picklist falls to outline. */
  function StatusVariant(status: string): (v: Variant)
    ensures v == Outline <==> status !in TransactionStatuses
    ensures v == Default <==> status == "success"
    ensures v == Destructive <==> status == "failed"
    ensures v == Secondary <==> status in ["in_process", "waiting_user_interaction"]
  {
    match status
    case "success" => Default
    case "in_process" => Secondary
    case "waiting_user_interaction" => Secondary
    case "failed" => Destructive
    case _ => Outline
  }

  /** `getTypeVariant`: money going back to the customer is destructive;
      `rdr` and unknown types share the outline style. */
  function TypeVariant(transactionType: string): (v: Variant)
    ensures v == Destructive <==> transactionType in ["refund", "chargeback"]
    ensures v == Default <==> transactionType == "payment"
    ensures v != Secondary
    ensures transactionType in TransactionTypes && v == Outline ==> transactionType == "rdr"
  {
    match transactionType
    case "payment" => Default
    case "refund" => Destructive
    case "chargeback" => Destructive
    case "rdr" => Outline
    case _ => Outline
  }

  /** `getPaymentTypeVariant`. */
  function PaymentTypeVariant(paymentType: string): (v: Variant)
    ensures v != Destructive
    ensures v == Default <==> paymentType == "initial"
    ensures v == Secondary <==> paymentType == "recurring"
    ensures v == Outline <==> paymentType !in ["initial", "recurring"]
  {
    match paymentType
    case "initial" => Default
    case "recurring" => Secondary
    case "upgrade" => Outline
    case _ => Outline
  }

  /** The three payment types get three different styles. */
  lemma PaymentTypeVariantsDistinct(a: string, b: string)
    requires a in PaymentTypes && b in PaymentTypes
    requires PaymentTypeVariant(a) == PaymentTypeVariant(b)
    ensures a == b
  {
  }

  /** `getProviderVariant`: only Stripe gets the plain style. */
  function ProviderVariant(provider: Option<string>): (v: Variant)
    ensures v == Default <==> provider == Some("stripe")
    ensures v == Secondary <==> provider != Some("stripe")
  {
    if provider == Some("stripe") then Default else Secondary
  }

  /** `formatProvider`: "-" for a missing provider, "Stripe" for Stripe and
      "Macropay" for anything else. */
  function FormatProvider(provider: Option<string>): (r: string)
    ensures r == "-" <==> !Truthy(provider)
    ensures r == "Stripe" <==> provider == Some("stripe")
    ensures r in ["-", "Stripe", "Macropay"]
  {
    if !Truthy(provider) then "-"
    else if provider.value == "stripe" then "Stripe"
    else "Macropay"
  }

  /** The provider cell: a dash when there is no provider, otherwise a badge
      whose style and label agree on whether it is Stripe. */
  function ProviderCell(provider: Option<string>): (c: Cell)
    ensures c == Dash <==> !Truthy(provider)
    ensures Truthy(provider) ==> c.Badge?
    ensures c.Badge? ==> c.caption != "-" && (c.variant == Default <==> c.caption == "Stripe")
    ensures c.Badge? ==> c.caption == FormatProvider(provider) && c.variant == ProviderVariant(provider)
  {
    if !Truthy(provider) then Dash
    else Badge(ProviderVariant(provider), FormatProvider(provider))
  }

  /** Each value of the provider picklist gets its own label. */
  lemma ProviderLabelsDistinct(a: string, b: string)
    requires a in Providers && b in Providers
    requires FormatProvider(Some(a)) == FormatProvider(Some(b))
    ensures a == b
  {
  }

  /** The labels of the four known statuses. */
  const StatusLabels: map<string, string> := map[
    "success" := "Success",
    "failed" := "Failed",
    "in_process" := "In Process",
    "waiting_user_interaction" := "Waiting"]

  /** `formatStatus`: `labels[status] || status`. A known status gets its
      label; any other string is shown as it is. */
  function FormatStatus(status: string): (r: string)
    ensures status !in TransactionStatuses ==> r == status
    ensures status in TransactionStatuses ==> r in ["Success", "Failed", "In Process", "Waiting"]
  {
    if status in StatusLabels && StatusLabels[status] != "" then StatusLabels[status] else status
  }

  /** No two known statuses share a label. */
  lemma FormatStatusInjective(a: string, b: string)
    requires a in TransactionStatuses && b in TransactionStatuses
    requires FormatStatus(a) == FormatStatus(b)
    ensures a == b
  {
  }

  /** The status cell: a badge that shows a known status by its label and
      any other status as it is, in the outline style exactly then. */
  function StatusCell(status: string): (c: Cell)
    ensures c.Badge?
    ensures c.caption == status <==> status !in TransactionStatuses
    ensures c.variant == Outline <==> c.caption == status
    ensures status in TransactionStatuses ==> c.caption in StatusLabels.Values
    ensures c.variant == StatusVariant(status) && c.caption == FormatStatus(status)
  {
    Badge(StatusVariant(status), FormatStatus(status))
  }

  /** Across the picklist the status cell tells every status apart. */
  lemma StatusCellsDistinct(a: string, b: string)
    requires a in TransactionStatuses && b in TransactionStatuses
    requires StatusCell(a) == StatusCell(b)
    ensures a == b
  {
    FormatStatusInjective(a, b);
  }

  /** The transaction-type cell: a badge showing the raw type, destructive
      exactly when the row's amount is shown in the destructive colour. */
  function TypeCell(transactionType: string): (c: Cell)
    ensures c.Badge? && c.caption == transactionType
    ensures c.variant == Destructive <==> AmountDestructive(transactionType)
    ensures c.variant == Default <==> transactionType == "payment"
    ensures c.variant != Secondary
  {
    Badge(TypeVariant(transactionType), transactionType)
  }

  /** The payment-type cell: a badge showing the raw payment type; among
      the picklist only `upgrade` is in the outline style, and no payment
      type is ever destructive. */
  function PaymentTypeCell(paymentType: string): (c: Cell)
    ensures c.Badge? && c.caption == paymentType
    ensures c.variant != Destructive
    ensures paymentType in PaymentTypes ==> (c.variant == Outline <==> paymentType == "upgrade")
    ensures c.variant == PaymentTypeVariant(paymentType)
  {
    Badge(PaymentTypeVariant(paymentType), paymentType)
  }

  /** "month" for a one-month plan, "months" otherwise. */
  function MonthUnit(plan: string): (u: string)
    ensures u == "month" <==> plan == "1"
    ensures u in ["month", "months"]
  {
    if plan == "1" then "month" else "months"
  }

  /** The plan cell: a dash when there is no plan, otherwise the plan
      followed by a space and the unit. */
  function PlanCell(plan: Option<string>): (c: Cell)
    ensures c == Dash <==> !Truthy(plan)
    ensures Truthy(plan) ==> c.Text?
    ensures c.Text? ==> |c.text| > |plan.value| && c.text[..|plan.value|] == plan.value
    ensures c.Text? ==> c.text[|plan.value|..] == " " + MonthUnit(plan.value)
  {
    if !Truthy(plan) then Dash else Text(plan.value + " " + MonthUnit(plan.value))
  }

  /** What the plan picklist's values are shown as. */
  lemma PlanLabels()
    ensures PlanCell(Some("1")) == Text("1 month")
    ensures PlanCell(Some("3")) == Text("3 months")
    ensures PlanCell(Some("12")) == Text("12 months")
  {
  }

  /** Different plans give different plan cells. */
  lemma PlanCellInjective(a: string, b: string)
    requires a != "" && b != ""
    requires PlanCell(Some(a)) == PlanCell(Some(b))
    ensures a == b
  {
    var ta := a + " " + MonthUnit(a);
    var tb := b + " " + MonthUnit(b);
    if MonthUnit(a) == MonthUnit(b) {
      assert a == ta[..|a|] && b == tb[..|b|];
    }
  }

  /** The amount is shown in the destructive colour for refunds and
      chargebacks, which are exactly the types whose badge is destructive. */
  predicate AmountDestructive(transactionType: string)
    ensures AmountDestructive(transactionType) <==> TypeVariant(transactionType) == Destructive
  {
    transactionType == "refund" || transactionType == "chargeback"
  }
}
