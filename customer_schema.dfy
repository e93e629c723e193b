/**
 * The customer record and its validator (app/modules/customers/ui/schema.ts).
 * The `v.email()` format check comes from the validation library and is a
 * parameter here: any predicate on strings.
 */
module CustomerSchema {
  import opened Js
  import opened JsonSchema

  const LoginWithOptions: seq<string> := ["Google", "Facebook", "Apple", "Email"]

  /** A validated customer. Optional fields are `None` when missing;
      nullable ones are `None` when null. */
  datatype Customer = Customer(
    id: string,
    email: string,
    name: string,
    emailVerified: bool,
    loginWith: string,
    companyName: Option<string>,
    address: Option<string>,
    city: Option<string>,
    state: Option<string>,
    postalCode: Option<string>,
    country: Nullish<string>,
    subscriptionId: Option<string>,
    createdAt: Option<string>,
    updatedAt: Option<string>)

  /** What the schema guarantees beyond field types. */
  predicate WellFormed(c: Customer, isEmail: string -> bool)
  {
    isEmail(c.email) && c.loginWith in LoginWithOptions
  }

  /** `v.pipe(v.string(), v.email())`: a string that passes the format check. */
  function EmailField(o: map<string, Json>, k: string, isEmail: string -> bool): (r: Parsed<string>)
    ensures r.Valid? <==> k in o && o[k].JString? && isEmail(o[k].s)
    ensures r.Valid? ==> o[k] == JString(r.value)
  {
    var s :- StringField(o, k);
    if isEmail(s) then Valid(s) else Invalid
  }

  /** `v.parse(CustomerSchema, input)`: unknown keys are dropped. */
  function Parse(j: Json, isEmail: string -> bool): (r: Parsed<Customer>)
    ensures r.Valid? ==> j.JObject? && WellFormed(r.value, isEmail)
    ensures r.Valid? ==> PicklistField(j.fields, "loginWith", LoginWithOptions) == Valid(r.value.loginWith)
  {
    if !j.JObject? then Invalid
    else
      var o := j.fields;
      var id :- StringField(o, "id");
      var email :- EmailField(o, "email", isEmail);
      var name :- StringField(o, "name");
      var emailVerified :- BoolField(o, "email_verified");
      var loginWith :- PicklistField(o, "loginWith", LoginWithOptions);
      var companyName :- OptionalStringField(o, "company_name");
      var address :- OptionalStringField(o, "address");
      var city :- OptionalStringField(o, "city");
      var state :- OptionalStringField(o, "state");
      var postalCode :- OptionalStringField(o, "postal_code");
      var country :- OptionalNullableStringField(o, "country");
      var subscriptionId :- OptionalStringField(o, "subscription_id");
      var createdAt :- NullableStringField(o, "created_at");
      var updatedAt :- NullableStringField(o, "updated_at");
      Valid(Customer(id, email, name, emailVerified, loginWith, companyName, address, city,
        state, postalCode, country, subscriptionId, createdAt, updatedAt))
  }

  /** The JSON object the API sends for a customer; absent optional fields
      are left out. */
  function Encode(c: Customer): Json
  {
    JObject(EncodeFields(c))
  }

  function EncodeFields(c: Customer): map<string, Json>
  {
    PresentEntries(map[
      "id" := Some(JString(c.id)),
      "email" := Some(JString(c.email)),
      "name" := Some(JString(c.name)),
      "email_verified" := Some(JBool(c.emailVerified)),
      "loginWith" := Some(JString(c.loginWith)),
      "company_name" := OptionalJson(c.companyName),
      "address" := OptionalJson(c.address),
      "city" := OptionalJson(c.city),
      "state" := OptionalJson(c.state),
      "postal_code" := OptionalJson(c.postalCode),
      "country" := NullishJson(c.country),
      "subscription_id" := OptionalJson(c.subscriptionId),
      "created_at" := Some(NullableJson(c.createdAt)),
      "updated_at" := Some(NullableJson(c.updatedAt))
    ])
  }

  // Reading each field of an encoded customer back, one field per lemma so
  // that each proof looks up a single key of the object.

  lemma ReadId(c: Customer)
    ensures StringField(EncodeFields(c), "id") == Valid(c.id)
  {
  }

  lemma ReadEmail(c: Customer, isEmail: string -> bool)
    ensures EmailField(EncodeFields(c), "email", isEmail) == if isEmail(c.email) then Valid(c.email) else Invalid
  {
  }

  lemma ReadName(c: Customer)
    ensures StringField(EncodeFields(c), "name") == Valid(c.name)
  {
  }

  lemma ReadEmailVerified(c: Customer)
    ensures BoolField(EncodeFields(c), "email_verified") == Valid(c.emailVerified)
  {
  }

  lemma ReadLoginWith(c: Customer)
    ensures PicklistField(EncodeFields(c), "loginWith", LoginWithOptions) ==
              if c.loginWith in LoginWithOptions then Valid(c.loginWith) else Invalid
  {
  }

  lemma ReadCompanyName(c: Customer)
    ensures OptionalStringField(EncodeFields(c), "company_name") == Valid(c.companyName)
  {
  }

  lemma ReadAddress(c: Customer)
    ensures OptionalStringField(EncodeFields(c), "address") == Valid(c.address)
  {
  }

  lemma ReadCity(c: Customer)
    ensures OptionalStringField(EncodeFields(c), "city") == Valid(c.city)
  {
  }

  lemma ReadState(c: Customer)
    ensures OptionalStringField(EncodeFields(c), "state") == Valid(c.state)
  {
  }

  lemma ReadPostalCode(c: Customer)
    ensures OptionalStringField(EncodeFields(c), "postal_code") == Valid(c.postalCode)
  {
  }

  lemma ReadCountry(c: Customer)
    ensures OptionalNullableStringField(EncodeFields(c), "country") == Valid(c.country)
  {
  }

  lemma ReadSubscriptionId(c: Customer)
    ensures OptionalStringField(EncodeFields(c), "subscription_id") == Valid(c.subscriptionId)
  {
  }

  lemma ReadCreatedAt(c: Customer)
    ensures NullableStringField(EncodeFields(c), "created_at") == Valid(c.createdAt)
  {
  }

  lemma ReadUpdatedAt(c: Customer)
    ensures NullableStringField(EncodeFields(c), "updated_at") == Valid(c.updatedAt)
  {
  }

  /** Every well-formed customer the API sends validates back to itself. */
  lemma ParseEncode(c: Customer, isEmail: string -> bool)
    requires WellFormed(c, isEmail)
    ensures Parse(Encode(c), isEmail) == Valid(c)
  {
    ReadId(c);
    ReadEmail(c, isEmail);
    ReadName(c);
    ReadEmailVerified(c);
    ReadLoginWith(c);
    ReadCompanyName(c);
    ReadAddress(c);
    ReadCity(c);
    ReadState(c);
    ReadPostalCode(c);
    ReadCountry(c);
    ReadSubscriptionId(c);
    ReadCreatedAt(c);
    ReadUpdatedAt(c);
  }

  /** The validator accepts an object exactly when every field reader
      accepts its field: one failing field rejects the whole record. */
  lemma ParseAcceptsIff(o: map<string, Json>, isEmail: string -> bool)
    ensures Parse(JObject(o), isEmail).Valid? <==>
            && StringField(o, "id").Valid?
            && EmailField(o, "email", isEmail).Valid?
            && StringField(o, "name").Valid?
            && BoolField(o, "email_verified").Valid?
            && PicklistField(o, "loginWith", LoginWithOptions).Valid?
            && OptionalStringField(o, "company_name").Valid?
            && OptionalStringField(o, "address").Valid?
            && OptionalStringField(o, "city").Valid?
            && OptionalStringField(o, "state").Valid?
            && OptionalStringField(o, "postal_code").Valid?
            && OptionalNullableStringField(o, "country").Valid?
            && OptionalStringField(o, "subscription_id").Valid?
            && NullableStringField(o, "created_at").Valid?
            && NullableStringField(o, "updated_at").Valid?
  {
  }

  /** Every field of an accepted record is the value its reader read from
      the input. */
  lemma ParsedFields(o: map<string, Json>, isEmail: string -> bool, c: Customer)
    requires Parse(JObject(o), isEmail) == Valid(c)
    ensures && StringField(o, "id") == Valid(c.id)
            && EmailField(o, "email", isEmail) == Valid(c.email)
            && StringField(o, "name") == Valid(c.name)
            && BoolField(o, "email_verified") == Valid(c.emailVerified)
            && PicklistField(o, "loginWith", LoginWithOptions) == Valid(c.loginWith)
            && OptionalStringField(o, "company_name") == Valid(c.companyName)
            && OptionalStringField(o, "address") == Valid(c.address)
            && OptionalStringField(o, "city") == Valid(c.city)
            && OptionalStringField(o, "state") == Valid(c.state)
            && OptionalStringField(o, "postal_code") == Valid(c.postalCode)
            && OptionalNullableStringField(o, "country") == Valid(c.country)
            && OptionalStringField(o, "subscription_id") == Valid(c.subscriptionId)
            && NullableStringField(o, "created_at") == Valid(c.createdAt)
            && NullableStringField(o, "updated_at") == Valid(c.updatedAt)
  {
    ParseAcceptsIff(o, isEmail);
  }

  /** A login method outside the picklist is rejected. */
  lemma UnknownLoginRejected(c: Customer, isEmail: string -> bool, login: string)
    requires login !in LoginWithOptions
    ensures Parse(Encode(c.(loginWith := login)), isEmail).Invalid?
  {
    ReadLoginWith(c.(loginWith := login));
  }

  /** An address that fails the email check is rejected. */
  lemma MalformedEmailRejected(o: map<string, Json>, isEmail: string -> bool)
    requires "email" in o && o["email"].JString? && !isEmail(o["email"].s)
    ensures Parse(JObject(o), isEmail).Invalid?
  {
  }

  /** A missing `created_at` is rejected: nullable is not optional. */
  lemma MissingCreatedAtRejected(o: map<string, Json>, isEmail: string -> bool)
    requires "created_at" !in o
    ensures Parse(JObject(o), isEmail).Invalid?
  {
  }

  /** A null `country` is accepted and kept apart from a missing one. */
  lemma NullCountryAccepted(c: Customer, isEmail: string -> bool)
    requires WellFormed(c, isEmail) && c.country == Null
    ensures Parse(Encode(c), isEmail) == Valid(c)
    ensures "country" in Encode(c).fields && Encode(c).fields["country"] == JNull
  {
    ParseEncode(c, isEmail);
    ReadCountry(c);
  }
}
