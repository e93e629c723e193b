/**
 * The transaction record and its validator (app/modules/transactions/ui/schema.ts).
 */
module TransactionSchema {
  import opened Js
  import opened JsonSchema

  const TransactionStatuses: seq<string> := ["success", "failed", "in_process", "waiting_user_interaction"]
  const TransactionTypes: seq<string> := ["payment", "refund", "chargeback", "rdr"]
  const PaymentTypes: seq<string> := ["initial", "recurring", "upgrade"]
  const SubscriptionPlans: seq<string> := ["1", "3", "12"]
  const Providers: seq<string> := ["stripe", "macropay"]

  /** A validated transaction. Optional fields are `None` when missing;
      nullable ones are `None` when null. */
  datatype Transaction = Transaction(
    id: string,
    idTransaction: string,
    customerId: string,
    subscriptionId: string,
    amount: int,
    currency: string,
    paymentType: string,
    transactionType: string,
    transactionStatus: string,
    paymentDate: Option<string>,
    createdAt: Option<string>,
    updatedAt: Option<string>,
    email: Option<string>,
    subscriptionPlan: Option<string>,
    subscriptionStatus: Option<string>,
    country: Option<string>,
    provider: Option<string>,
    normalizedCardBrand: Option<string>,
    cardHolderName: Option<string>,
    bin: Option<string>,
    last4: Option<string>,
    nextTransactionDate: Nullish<string>,
    refundDate: Nullish<string>,
    idOrder: Option<string>)

  /** What the schema guarantees beyond field types: every enum-typed field
      holds one of its picklist's values. */
  predicate WellFormed(t: Transaction)
  {
    && t.paymentType in PaymentTypes
    && t.transactionType in TransactionTypes
    && t.transactionStatus in TransactionStatuses
    && (t.subscriptionPlan.Some? ==> t.subscriptionPlan.value in SubscriptionPlans)
    && (t.provider.Some? ==> t.provider.value in Providers)
  }

  /** `v.parse(TransactionSchema, input)`: unknown keys are dropped. */
  function Parse(j: Json): (r: Parsed<Transaction>)
    ensures r.Valid? ==> WellFormed(r.value)
    ensures r.Valid? ==> j.JObject?
    ensures r.Valid? ==> PicklistField(j.fields, "transaction_status", TransactionStatuses) == Valid(r.value.transactionStatus)
  {
    if !j.JObject? then Invalid
    else
      var o := j.fields;
      var id :- StringField(o, "id");
      var idTransaction :- StringField(o, "id_transaction");
      var customerId :- StringField(o, "customer_id");
      var subscriptionId :- StringField(o, "subscription_id");
      var amount :- NumberField(o, "amount");
      var currency :- StringField(o, "currency");
      var paymentType :- PicklistField(o, "payment_type", PaymentTypes);
      var transactionType :- PicklistField(o, "transaction_type", TransactionTypes);
      var transactionStatus :- PicklistField(o, "transaction_status", TransactionStatuses);
      var paymentDate :- NullableStringField(o, "payment_date");
      var createdAt :- NullableStringField(o, "created_at");
      var updatedAt :- NullableStringField(o, "updated_at");
      var email :- OptionalStringField(o, "email");
      var subscriptionPlan :- OptionalPicklistField(o, "subscription_plan", SubscriptionPlans);
      var subscriptionStatus :- OptionalStringField(o, "subscription_status");
      var country :- OptionalStringField(o, "country");
      var provider :- OptionalPicklistField(o, "provider", Providers);
      var normalizedCardBrand :- OptionalStringField(o, "normalized_card_brand");
      var cardHolderName :- OptionalStringField(o, "card_holder_name");
      var bin :- OptionalStringField(o, "bin");
      var last4 :- OptionalStringField(o, "last_4");
      var nextTransactionDate :- OptionalNullableStringField(o, "next_transaction_date");
      var refundDate :- OptionalNullableStringField(o, "refund_date");
      var idOrder :- OptionalStringField(o, "id_order");
      Valid(Transaction(id, idTransaction, customerId, subscriptionId, amount, currency,
        paymentType, transactionType, transactionStatus, paymentDate, createdAt, updatedAt,
        email, subscriptionPlan, subscriptionStatus, country, provider, normalizedCardBrand,
        cardHolderName, bin, last4, nextTransactionDate, refundDate, idOrder))
  }

  /** The JSON object the API sends for a transaction; absent optional
      fields are left out. */
  function Encode(t: Transaction): Json
  {
    JObject(EncodeFields(t))
  }

  function EncodeFields(t: Transaction): map<string, Json>
  {
    PresentEntries(map[
      "id" := Some(JString(t.id)),
      "id_transaction" := Some(JString(t.idTransaction)),
      "customer_id" := Some(JString(t.customerId)),
      "subscription_id" := Some(JString(t.subscriptionId)),
      "amount" := Some(JNumber(t.amount)),
      "currency" := Some(JString(t.currency)),
      "payment_type" := Some(JString(t.paymentType)),
      "transaction_type" := Some(JString(t.transactionType)),
      "transaction_status" := Some(JString(t.transactionStatus)),
      "payment_date" := Some(NullableJson(t.paymentDate)),
      "created_at" := Some(NullableJson(t.createdAt)),
      "updated_at" := Some(NullableJson(t.updatedAt)),
      "email" := OptionalJson(t.email),
      "subscription_plan" := OptionalJson(t.subscriptionPlan),
      "subscription_status" := OptionalJson(t.subscriptionStatus),
      "country" := OptionalJson(t.country),
      "provider" := OptionalJson(t.provider),
      "normalized_card_brand" := OptionalJson(t.normalizedCardBrand),
      "card_holder_name" := OptionalJson(t.cardHolderName),
      "bin" := OptionalJson(t.bin),
      "last_4" := OptionalJson(t.last4),
      "next_transaction_date" := NullishJson(t.nextTransactionDate),
      "refund_date" := NullishJson(t.refundDate),
      "id_order" := OptionalJson(t.idOrder)
    ])
  }

  // Reading each field of an encoded transaction back, one field per
  // lemma so that each proof looks up a single key of the object.

  lemma ReadId(t: Transaction)
    ensures StringField(EncodeFields(t), "id") == Valid(t.id)
  {
  }

  lemma ReadIdTransaction(t: Transaction)
    ensures StringField(EncodeFields(t), "id_transaction") == Valid(t.idTransaction)
  {
  }

  lemma ReadCustomerId(t: Transaction)
    ensures StringField(EncodeFields(t), "customer_id") == Valid(t.customerId)
  {
  }

  lemma ReadSubscriptionId(t: Transaction)
    ensures StringField(EncodeFields(t), "subscription_id") == Valid(t.subscriptionId)
  {
  }

  lemma ReadAmount(t: Transaction)
    ensures NumberField(EncodeFields(t), "amount") == Valid(t.amount)
  {
  }

  lemma ReadCurrency(t: Transaction)
    ensures StringField(EncodeFields(t), "currency") == Valid(t.currency)
  {
  }

  lemma ReadPaymentType(t: Transaction)
    ensures PicklistField(EncodeFields(t), "payment_type", PaymentTypes) ==
              if t.paymentType in PaymentTypes then Valid(t.paymentType) else Invalid
  {
  }

  lemma ReadTransactionType(t: Transaction)
    ensures PicklistField(EncodeFields(t), "transaction_type", TransactionTypes) ==
              if t.transactionType in TransactionTypes then Valid(t.transactionType) else Invalid
  {
  }

  lemma ReadStatus(t: Transaction)
    ensures PicklistField(EncodeFields(t), "transaction_status", TransactionStatuses) ==
              if t.transactionStatus in TransactionStatuses then Valid(t.transactionStatus) else Invalid
  {
  }

  lemma ReadPaymentDate(t: Transaction)
    ensures NullableStringField(EncodeFields(t), "payment_date") == Valid(t.paymentDate)
  {
  }

  lemma ReadCreatedAt(t: Transaction)
    ensures NullableStringField(EncodeFields(t), "created_at") == Valid(t.createdAt)
  {
  }

  lemma ReadUpdatedAt(t: Transaction)
    ensures NullableStringField(EncodeFields(t), "updated_at") == Valid(t.updatedAt)
  {
  }

  lemma ReadEmail(t: Transaction)
    ensures OptionalStringField(EncodeFields(t), "email") == Valid(t.email)
  {
  }

  lemma ReadSubscriptionPlan(t: Transaction)
    ensures t.subscriptionPlan.None? || t.subscriptionPlan.value in SubscriptionPlans ==>
              OptionalPicklistField(EncodeFields(t), "subscription_plan", SubscriptionPlans) == Valid(t.subscriptionPlan)
  {
  }

  lemma ReadSubscriptionStatus(t: Transaction)
    ensures OptionalStringField(EncodeFields(t), "subscription_status") == Valid(t.subscriptionStatus)
  {
  }

  lemma ReadCountry(t: Transaction)
    ensures OptionalStringField(EncodeFields(t), "country") == Valid(t.country)
  {
  }

  lemma ReadProvider(t: Transaction)
    ensures t.provider.None? || t.provider.value in Providers ==>
              OptionalPicklistField(EncodeFields(t), "provider", Providers) == Valid(t.provider)
  {
  }

  lemma ReadCardBrand(t: Transaction)
    ensures OptionalStringField(EncodeFields(t), "normalized_card_brand") == Valid(t.normalizedCardBrand)
  {
  }

  lemma ReadCardHolder(t: Transaction)
    ensures OptionalStringField(EncodeFields(t), "card_holder_name") == Valid(t.cardHolderName)
  {
  }

  lemma ReadBin(t: Transaction)
    ensures OptionalStringField(EncodeFields(t), "bin") == Valid(t.bin)
  {
  }

  lemma ReadLast4(t: Transaction)
    ensures OptionalStringField(EncodeFields(t), "last_4") == Valid(t.last4)
  {
  }

  lemma ReadNextTransactionDate(t: Transaction)
    ensures OptionalNullableStringField(EncodeFields(t), "next_transaction_date") == Valid(t.nextTransactionDate)
  {
  }

  lemma ReadRefundDate(t: Transaction)
    ensures OptionalNullableStringField(EncodeFields(t), "refund_date") == Valid(t.refundDate)
  {
  }

  lemma ReadIdOrder(t: Transaction)
    ensures OptionalStringField(EncodeFields(t), "id_order") == Valid(t.idOrder)
  {
  }

  /** Every well-formed transaction the API sends validates back to itself. */
  lemma ParseEncode(t: Transaction)
    requires WellFormed(t)
    ensures Parse(Encode(t)) == Valid(t)
  {
    ReadId(t);
    ReadIdTransaction(t);
    ReadCustomerId(t);
    ReadSubscriptionId(t);
    ReadAmount(t);
    ReadCurrency(t);
    ReadPaymentType(t);
    ReadTransactionType(t);
    ReadStatus(t);
    ReadPaymentDate(t);
    ReadCreatedAt(t);
    ReadUpdatedAt(t);
    ReadEmail(t);
    ReadSubscriptionPlan(t);
    ReadSubscriptionStatus(t);
    ReadCountry(t);
    ReadProvider(t);
    ReadCardBrand(t);
    ReadCardHolder(t);
    ReadBin(t);
    ReadLast4(t);
    ReadNextTransactionDate(t);
    ReadRefundDate(t);
    ReadIdOrder(t);
  }

  /** The validator accepts an object exactly when every field reader
      accepts its field: one failing field rejects the whole record. */
  lemma ParseAcceptsIff(o: map<string, Json>)
    ensures Parse(JObject(o)).Valid? <==>
            && StringField(o, "id").Valid?
            && StringField(o, "id_transaction").Valid?
            && StringField(o, "customer_id").Valid?
            && StringField(o, "subscription_id").Valid?
            && NumberField(o, "amount").Valid?
            && StringField(o, "currency").Valid?
            && PicklistField(o, "payment_type", PaymentTypes).Valid?
            && PicklistField(o, "transaction_type", TransactionTypes).Valid?
            && PicklistField(o, "transaction_status", TransactionStatuses).Valid?
            && NullableStringField(o, "payment_date").Valid?
            && NullableStringField(o, "created_at").Valid?
            && NullableStringField(o, "updated_at").Valid?
            && OptionalStringField(o, "email").Valid?
            && OptionalPicklistField(o, "subscription_plan", SubscriptionPlans).Valid?
            && OptionalStringField(o, "subscription_status").Valid?
            && OptionalStringField(o, "country").Valid?
            && OptionalPicklistField(o, "provider", Providers).Valid?
            && OptionalStringField(o, "normalized_card_brand").Valid?
            && OptionalStringField(o, "card_holder_name").Valid?
            && OptionalStringField(o, "bin").Valid?
            && OptionalStringField(o, "last_4").Valid?
            && OptionalNullableStringField(o, "next_transaction_date").Valid?
            && OptionalNullableStringField(o, "refund_date").Valid?
            && OptionalStringField(o, "id_order").Valid?
  {
  }

  /** Every field of an accepted record is the value its reader read from
      the input. */
  lemma ParsedFields(o: map<string, Json>, t: Transaction)
    requires Parse(JObject(o)) == Valid(t)
    ensures && StringField(o, "id") == Valid(t.id)
            && StringField(o, "id_transaction") == Valid(t.idTransaction)
            && StringField(o, "customer_id") == Valid(t.customerId)
            && StringField(o, "subscription_id") == Valid(t.subscriptionId)
            && NumberField(o, "amount") == Valid(t.amount)
            && StringField(o, "currency") == Valid(t.currency)
            && PicklistField(o, "payment_type", PaymentTypes) == Valid(t.paymentType)
            && PicklistField(o, "transaction_type", TransactionTypes) == Valid(t.transactionType)
            && PicklistField(o, "transaction_status", TransactionStatuses) == Valid(t.transactionStatus)
            && NullableStringField(o, "payment_date") == Valid(t.paymentDate)
            && NullableStringField(o, "created_at") == Valid(t.createdAt)
            && NullableStringField(o, "updated_at") == Valid(t.updatedAt)
            && OptionalStringField(o, "email") == Valid(t.email)
            && OptionalPicklistField(o, "subscription_plan", SubscriptionPlans) == Valid(t.subscriptionPlan)
            && OptionalStringField(o, "subscription_status") == Valid(t.subscriptionStatus)
            && OptionalStringField(o, "country") == Valid(t.country)
            && OptionalPicklistField(o, "provider", Providers) == Valid(t.provider)
            && OptionalStringField(o, "normalized_card_brand") == Valid(t.normalizedCardBrand)
            && OptionalStringField(o, "card_holder_name") == Valid(t.cardHolderName)
            && OptionalStringField(o, "bin") == Valid(t.bin)
            && OptionalStringField(o, "last_4") == Valid(t.last4)
            && OptionalNullableStringField(o, "next_transaction_date") == Valid(t.nextTransactionDate)
            && OptionalNullableStringField(o, "refund_date") == Valid(t.refundDate)
            && OptionalStringField(o, "id_order") == Valid(t.idOrder)
  {
    ParseAcceptsIff(o);
  }

  /** The validator rejects an object whose status is outside the picklist. */
  lemma UnknownStatusRejected(t: Transaction, status: string)
    requires status !in TransactionStatuses
    ensures Parse(Encode(t.(transactionStatus := status))).Invalid?
  {
    ReadStatus(t.(transactionStatus := status));
  }

  /** A missing `payment_date` is rejected: nullable is not optional. */
  lemma MissingPaymentDateRejected(o: map<string, Json>)
    requires "payment_date" !in o
    ensures Parse(JObject(o)).Invalid?
  {
  }

  /** A null `email` is rejected: optional is not nullable. */
  lemma NullEmailRejected(o: map<string, Json>)
    requires "email" in o && o["email"] == JNull
    ensures Parse(JObject(o)).Invalid?
  {
  }
}
