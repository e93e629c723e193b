/**
 * The display decisions of the customers table
 * (app/modules/customers/ui/columns.tsx). The user-type, subscription and
 * provider fields the table reads are not part of the customer schema;
 * they are optional strings here, over the literals the switches test.
 */
module CustomerColumns {
  import opened Js
  import opened Ui
  import CustomerSchema
  import TransactionColumns

  /** The column ids of the table, in display order. */
  const ColumnIds: seq<string> := [
    "email", "name", "created_at", "loginWith", "customer_id_np", "status",
    "unsubscribed_date", "renewal_date", "retries", "first_transaction_date",
    "user_type", "subscription_status", "subscription_type", "country",
    "language", "provider"]

  /** `getLoginWithVariant`: Google and Apple each get their own style;
      Facebook, Email and anything else share the outline. */
  function LoginWithVariant(loginWith: string): (v: Variant)
    ensures v == Default <==> loginWith == "Google"
    ensures v == Secondary <==> loginWith == "Apple"
    ensures v == Outline <==> loginWith !in ["Google", "Apple"]
  {
    match loginWith
    case "Google" => Default
    case "Apple" => Secondary
    case "Facebook" => Outline
    case _ => Outline
  }

  /** Of the four login methods, only Facebook and Email share a style. */
  lemma LoginWithVariantsShared(a: string, b: string)
    requires a in CustomerSchema.LoginWithOptions && b in CustomerSchema.LoginWithOptions
    requires a != b
    ensures LoginWithVariant(a) == LoginWithVariant(b) <==> {a, b} == {"Facebook", "Email"}
  {
    if LoginWithVariant(a) == LoginWithVariant(b) {
      assert a in ["Facebook", "Email"] && b in ["Facebook", "Email"];
    }
  }

  /** The login cell shows the method itself in a badge; of the picklist's
      methods, Facebook and Email are the ones left in the outline style. */
  function LoginWithCell(loginWith: string): (c: Cell)
    ensures c.Badge? && c.caption == loginWith
    ensures loginWith in CustomerSchema.LoginWithOptions ==>
              (c.variant == Outline <==> loginWith in ["Facebook", "Email"])
    ensures c.variant != Destructive
    ensures c.variant == LoginWithVariant(loginWith)
  {
    Badge(LoginWithVariant(loginWith), loginWith)
  }

  /** `getUserTypeVariant`: only `pro` gets the plain style. */
  function UserTypeVariant(userType: Option<string>): (v: Variant)
    ensures v == Default <==> userType == Some("pro")
    ensures v == Secondary <==> userType != Some("pro")
  {
    if userType == Some("pro") then Default else Secondary
  }

  /** The user-type cell: a dash when the type is missing or empty,
      otherwise the type in a badge. */
  function UserTypeCell(userType: Option<string>): (c: Cell)
    ensures c == Dash <==> !Truthy(userType)
    ensures Truthy(userType) ==> c.Badge?
    ensures c.Badge? ==> c.caption == userType.value && c.variant == UserTypeVariant(userType)
  {
    if !Truthy(userType) then Dash else Badge(UserTypeVariant(userType), userType.value)
  }

  /** `getSubscriptionStatusVariant`. */
  function SubscriptionStatusVariant(status: Option<string>): (v: Variant)
    ensures v == Default <==> status == Some("Active") || status == Some("Paying")
    ensures v == Destructive <==> status == Some("Unsubscribed")
    ensures v == Secondary <==> status == Some("Non renewal")
  {
    if status.None? then Outline
    else match status.value
      case "Active" => Default
      case "Paying" => Default
      case "Unsubscribed" => Destructive
      case "Non renewal" => Secondary
      case _ => Outline
  }

  /** The subscription-status cell: a dash when the status is missing or
      empty, otherwise the status in a badge. */
  function SubscriptionStatusCell(status: Option<string>): (c: Cell)
    ensures c == Dash <==> !Truthy(status)
    ensures Truthy(status) ==> c.Badge?
    ensures c.Badge? ==> c.caption == status.value && c.variant == SubscriptionStatusVariant(status)
  {
    if !Truthy(status) then Dash else Badge(SubscriptionStatusVariant(status), status.value)
  }

  /** `getProviderVariant`, as this table defines it. */
  function ProviderVariant(provider: Option<string>): (v: Variant)
    ensures v == Default <==> provider == Some("stripe")
  {
    if provider == Some("stripe") then Default else Secondary
  }

  /** `formatProvider`, as this table defines it. */
  function FormatProvider(provider: Option<string>): (r: string)
    ensures r == "-" <==> !Truthy(provider)
  {
    if !Truthy(provider) then "-"
    else if provider.value == "stripe" then "Stripe"
    else "Macropay"
  }

  /** The provider cell, as this table defines it. */
  function ProviderCell(provider: Option<string>): (c: Cell)
    ensures c == Dash <==> !Truthy(provider)
    ensures Truthy(provider) ==> c.Badge?
  {
    if !Truthy(provider) then Dash
    else Badge(ProviderVariant(provider), FormatProvider(provider))
  }

  /** The customers table shows providers exactly as the transactions table
      does: same style, same label, same cell, for every input. */
  lemma ProviderAgreesWithTransactions(provider: Option<string>)
    ensures ProviderVariant(provider) == TransactionColumns.ProviderVariant(provider)
    ensures FormatProvider(provider) == TransactionColumns.FormatProvider(provider)
    ensures ProviderCell(provider) == TransactionColumns.ProviderCell(provider)
  {
  }

  /** The subscription-type cell: a dash when the type is missing or empty,
      otherwise the type followed by "month" or "months". */
  function SubscriptionTypeCell(subscriptionType: Option<string>): (c: Cell)
    ensures c == Dash <==> !Truthy(subscriptionType)
  {
    if !Truthy(subscriptionType) then Dash
    else
      var t := subscriptionType.value;
      Text(t + " " + if t == "1" then "month" else "months")
  }

  /** The subscription type is labelled exactly like the transactions
      table's plan. */
  lemma SubscriptionTypeAgreesWithPlan(subscriptionType: Option<string>)
    ensures SubscriptionTypeCell(subscriptionType) == TransactionColumns.PlanCell(subscriptionType)
  {
  }

  /** The language cell: `language_communication || language_registration || "-"`. */
  function LanguageCell(communication: Option<string>, registration: Option<string>): (r: string)
    ensures Truthy(communication) ==> r == communication.value
    ensures !Truthy(communication) ==> r == OrDash(registration)
    ensures r != ""
  {
    if Truthy(communication) then communication.value
    else if Truthy(registration) then registration.value
    else "-"
  }

  /** What the retries cell shows: a number, or the dash. */
  datatype Shown = ShowNumber(n: int) | ShowDash

  /** The retries cell: `retries ?? "-"`. Only a missing count becomes the
      dash; zero is a count and is shown. */
  function RetriesCell(retries: Option<int>): (r: Shown)
    ensures r == ShowDash <==> retries.None?
    ensures r.ShowNumber? ==> r.n == retries.value
  {
    if retries.Some? then ShowNumber(retries.value) else ShowDash
  }

  /** Zero retries are shown as 0, not as the dash. */
  lemma ZeroRetriesShown()
    ensures RetriesCell(Some(0)) == ShowNumber(0)
  {
  }
}
