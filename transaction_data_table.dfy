/**
 * The transactions table's filter bar (app/modules/transactions/ui/data-table.tsx):
 * three selects, on status, type and payment type, their option lists and
 * option labels.
 */
module TransactionDataTable {
  import opened Js
  import opened TableFilters
  import TransactionSchema
  import TransactionColumns

  const StatusOptions: seq<string> := ["all", "success", "failed", "in_process", "waiting_user_interaction"]
  const TypeOptions: seq<string> := ["all", "payment", "refund", "chargeback", "rdr"]
  const PaymentTypeOptions: seq<string> := ["all", "initial", "recurring", "upgrade"]

  /** After "all", each select offers exactly the values of its picklist,
      in the picklist's order. */
  lemma OptionsMatchPicklists()
    ensures StatusOptions == ["all"] + TransactionSchema.TransactionStatuses
    ensures TypeOptions == ["all"] + TransactionSchema.TransactionTypes
    ensures PaymentTypeOptions == ["all"] + TransactionSchema.PaymentTypes
  {
  }

  /** The ids of the table's columns. */
  const TableColumns: set<string> := set c | c in TransactionColumns.ColumnIds

  const StatusSelect := "transaction_status"
  const TypeSelect := "transaction_type"
  const PaymentTypeSelect := "payment_type"

  /** The three selects are bound to columns the table has, so each of
      them shows back what is picked in it. */
  lemma SelectsAreBound(f: Filters, value: string)
    ensures StatusSelect in TableColumns && TypeSelect in TableColumns && PaymentTypeSelect in TableColumns
    ensures Displayed(OnSelect(f, TableColumns, StatusSelect, value), TableColumns, StatusSelect) == value
    ensures Displayed(OnSelect(f, TableColumns, TypeSelect, value), TableColumns, TypeSelect) == value
    ensures Displayed(OnSelect(f, TableColumns, PaymentTypeSelect, value), TableColumns, PaymentTypeSelect) == value
  {
    assert TransactionColumns.ColumnIds[7] == StatusSelect;
    assert TransactionColumns.ColumnIds[6] == TypeSelect;
    assert TransactionColumns.ColumnIds[12] == PaymentTypeSelect;
  }

  const StatusLabels: map<string, string> := map[
    "all" := "All Statuses",
    "success" := "Success",
    "failed" := "Failed",
    "in_process" := "In Process",
    "waiting_user_interaction" := "Waiting"]

  /** A status option's label: `statusLabels[status] || capitalized status`. */
  function StatusOptionLabel(status: string): (r: string)
    ensures status in StatusLabels ==> r == StatusLabels[status]
    ensures status !in StatusLabels ==> r == Capitalize(status)
  {
    if status in StatusLabels && StatusLabels[status] != "" then StatusLabels[status] else Capitalize(status)
  }

  /** The status select labels each status the way the status badges do. */
  lemma StatusOptionsMatchBadges(status: string)
    requires status in TransactionSchema.TransactionStatuses
    ensures StatusOptionLabel(status) == TransactionColumns.FormatStatus(status)
  {
  }

  /** A type option's label: "All Types", or the type with its first letter upper-cased. */
  function TypeOptionLabel(transactionType: string): (r: string)
    ensures transactionType == "all" ==> r == "All Types"
    ensures transactionType != "all" ==> r == Capitalize(transactionType)
  {
    if transactionType == "all" then "All Types" else Capitalize(transactionType)
  }

  /** A payment-type option's label: "All Payment Types", or the payment
      type with its first letter upper-cased. */
  function PaymentTypeOptionLabel(paymentType: string): (r: string)
    ensures paymentType == "all" ==> r == "All Payment Types"
    ensures paymentType != "all" ==> r == Capitalize(paymentType)
  {
    if paymentType == "all" then "All Payment Types" else Capitalize(paymentType)
  }

  /** The labels the status select shows, option by option. */
  lemma StatusOptionLabels()
    ensures seq(|StatusOptions|, i requires 0 <= i < |StatusOptions| => StatusOptionLabel(StatusOptions[i]))
              == ["All Statuses", "Success", "Failed", "In Process", "Waiting"]
  {
  }

  /** The labels the type select shows, option by option. */
  lemma TypeOptionLabels()
    ensures seq(|TypeOptions|, i requires 0 <= i < |TypeOptions| => TypeOptionLabel(TypeOptions[i]))
              == ["All Types", "Payment", "Refund", "Chargeback", "Rdr"]
  {
    assert Capitalize("payment") == "Payment";
    assert Capitalize("refund") == "Refund";
    assert Capitalize("chargeback") == "Chargeback";
    assert Capitalize("rdr") == "Rdr";
  }

  /** The labels the payment-type select shows, option by option. */
  lemma PaymentTypeOptionLabels()
    ensures seq(|PaymentTypeOptions|, i requires 0 <= i < |PaymentTypeOptions| => PaymentTypeOptionLabel(PaymentTypeOptions[i]))
              == ["All Payment Types", "Initial", "Recurring", "Upgrade"]
  {
    assert Capitalize("initial") == "Initial";
    assert Capitalize("recurring") == "Recurring";
    assert Capitalize("upgrade") == "Upgrade";
  }

  /** The transactions table's filter bar, over the table's own columns. */
  method NewFilterBar() returns (bar: FilterBar)
    ensures fresh(bar) && bar.columns == TableColumns && bar.State() == NoFilters
  {
    bar := new FilterBar(TableColumns);
  }
}
