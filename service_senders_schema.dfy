/**
 * The four request schemas for a service's senders (email reply-to address,
 * letter contact block, SMS sender add and update), with the JSON Schema
 * draft-04 keywords they use: `type` (section 5.5.2 of
 * draft-fge-json-schema-validation-00), `minimum` (5.1.3), `required` (5.4.3),
 * `properties` and the absent `additionalProperties` (5.4.4), and `format`.
 *
 * The custom `email_address` format checker and the shared `uuid` definition
 * are not part of this model: they are the parameters in `Checkers`.
 */
module ServiceSendersSchema {
  import opened Wrappers
  import opened Json

  datatype JsonType = TObject | TArray | TString | TInteger | TNumber | TBoolean | TNull

  /** A draft-04 schema, restricted to the keywords these schemas use. */
  datatype Schema =
    | Schema(types: set<JsonType>, minimum: Option<int>, format: Option<string>,
             properties: map<string, Schema>, required: seq<string>)
    | Definition(name: string)   // a schema defined elsewhere (`uuid`)

  /** The format checkers and external definitions the validator is configured with. */
  datatype Checkers = Checkers(format: (string, string) -> bool, definition: (string, Json) -> bool)

  /** Section 5.5.2: the instance is of the primitive type (an integer is also a number). */
  predicate HasType(j: Json, t: JsonType)
  {
    match t
    case TObject => j.JObject?
    case TArray => j.JArray?
    case TString => j.JString?
    case TInteger => j.JInt?
    case TNumber => j.JInt?
    case TBoolean => j.JBool?
    case TNull => j.JNull?
  }

  /** Whether `j` validates against `s`; an empty `types` set means no `type` keyword. */
  predicate Validates(j: Json, s: Schema, c: Checkers)
    decreases s
  {
    match s
    case Definition(name) => c.definition(name, j)
    case Schema(types, minimum, format, properties, required) =>
      && (types == {} || exists t :: t in types && HasType(j, t))
      // 5.1.3: `minimum` constrains numbers only
      && (minimum.Some? && j.JInt? ==> j.i >= minimum.value)
      // `format` constrains strings only
      && (format.Some? && j.JString? ==> c.format(format.value, j.s))
      && (j.JObject? ==>
            // 5.4.3
            && (forall k :: k in required ==> k in j.fields)
            // 5.4.4: only the listed properties are checked; others are accepted
            && (forall k :: k in properties && k in j.fields ==> Validates(j.fields[k], properties[k], c)))
  }

  function Typed(types: set<JsonType>): Schema
  {
    Schema(types, None, None, map[], [])
  }

  const IsDefault: Schema := Typed({TBoolean})
  const PlainString: Schema := Typed({TString})
  const RateLimit: Schema := Schema({TInteger, TNull}, Some(1), None, map[], [])
  const Uuid: Schema := Definition("uuid")

  const AddServiceEmailReplyToRequest: Schema := Schema({TObject}, None, None, map[
    "email_address" := Schema({TString}, None, Some("email_address"), map[], []),
    "is_default" := IsDefault
  ], ["email_address", "is_default"])

  const AddServiceLetterContactBlockRequest: Schema := Schema({TObject}, None, None, map[
    "contact_block" := PlainString,
    "is_default" := IsDefault
  ], ["contact_block", "is_default"])

  const AddServiceSmsSenderRequest: Schema := Schema({TObject}, None, None, map[
    "sms_sender" := PlainString,
    "is_default" := IsDefault,
    "inbound_number_id" := Uuid,
    "rate_limit" := RateLimit,
    "rate_limit_interval" := RateLimit
  ], ["sms_sender", "is_default"])

  const UpdateServiceSmsSenderRequest: Schema := Schema({TObject}, None, None, map[
    "sms_sender" := PlainString,
    "sms_sender_specifics" := Typed({TObject, TNull}),
    "is_default" := IsDefault,
    "rate_limit" := RateLimit,
    "rate_limit_interval" := RateLimit,
    "inbound_number_id" := Uuid
  ], [])

  /** An optional field: absent, or present and satisfying `p`. */
  predicate OptionalField(fields: map<string, Json>, key: string, p: Json -> bool)
  {
    key in fields ==> p(fields[key])
  }

  /** A rate limit: null, or an integer of at least 1. */
  predicate RateLimitValue(v: Json)
  {
    v.JNull? || (v.JInt? && v.i >= 1)
  }

  /** An object schema without `minimum` or `format`: required keys present, listed keys valid. */
  lemma ObjectSchema(j: Json, properties: map<string, Schema>, required: seq<string>, c: Checkers)
    ensures Validates(j, Schema({TObject}, None, None, properties, required), c) <==>
              && j.JObject?
              && (forall k :: k in required ==> k in j.fields)
              && (forall k :: k in properties && k in j.fields ==> Validates(j.fields[k], properties[k], c))
  {
    assert HasType(j, TObject) ==> TObject in {TObject};
  }

  /** The leaf schemas these requests use, each as a plain condition on the value. */
  lemma LeafSchemas(v: Json, c: Checkers)
    ensures Validates(v, IsDefault, c) <==> v.JBool?
    ensures Validates(v, PlainString, c) <==> v.JString?
    ensures Validates(v, RateLimit, c) <==> RateLimitValue(v)
    ensures Validates(v, Typed({TObject, TNull}), c) <==> v.JObject? || v.JNull?
    ensures Validates(v, Schema({TString}, None, Some("email_address"), map[], []), c) <==>
              v.JString? && c.format("email_address", v.s)
    ensures Validates(v, Uuid, c) <==> c.definition("uuid", v)
  {
    assert HasType(v, TBoolean) ==> TBoolean in IsDefault.types;
    assert HasType(v, TString) ==> TString in PlainString.types;
    assert HasType(v, TInteger) ==> TInteger in RateLimit.types;
    assert HasType(v, TNull) ==> TNull in RateLimit.types;
    assert HasType(v, TObject) ==> TObject in Typed({TObject, TNull}).types;
    assert HasType(v, TNull) ==> TNull in Typed({TObject, TNull}).types;
  }

  /** The two listed properties of the reply-to schema, one at a time. */
  lemma EmailReplyToProperties(fields: map<string, Json>, c: Checkers)
    ensures PropertiesValid(fields, AddServiceEmailReplyToRequest.properties, c) <==>
              && OptionalField(fields, "email_address", (v: Json) => v.JString? && c.format("email_address", v.s))
              && OptionalField(fields, "is_default", (v: Json) => v.JBool?)
  {
    var props := AddServiceEmailReplyToRequest.properties;
    assert props.Keys == {"email_address", "is_default"};
    assert props["email_address"] == Schema({TString}, None, Some("email_address"), map[], []);
    assert props["is_default"] == IsDefault;
    forall k | k in fields {
      LeafSchemas(fields[k], c);
    }
  }

  /** The add-reply-to request, field by field. */
  predicate ValidEmailReplyTo(j: Json, c: Checkers): (r: bool)
    ensures r <==>
              && j.JObject?
              && "email_address" in j.fields && "is_default" in j.fields
              && j.fields["email_address"].JString?
              && c.format("email_address", j.fields["email_address"].s)
              && j.fields["is_default"].JBool?
  {
    ObjectSchema(j, AddServiceEmailReplyToRequest.properties, AddServiceEmailReplyToRequest.required, c);
    if j.JObject? then
      EmailReplyToProperties(j.fields, c);
      Validates(j, AddServiceEmailReplyToRequest, c)
    else
      Validates(j, AddServiceEmailReplyToRequest, c)
  }

  /** The two listed properties of the letter-contact schema, one at a time. */
  lemma LetterContactBlockProperties(fields: map<string, Json>, c: Checkers)
    ensures PropertiesValid(fields, AddServiceLetterContactBlockRequest.properties, c) <==>
              && OptionalField(fields, "contact_block", (v: Json) => v.JString?)
              && OptionalField(fields, "is_default", (v: Json) => v.JBool?)
  {
    var props := AddServiceLetterContactBlockRequest.properties;
    assert props.Keys == {"contact_block", "is_default"};
    assert props["contact_block"] == PlainString && props["is_default"] == IsDefault;
    forall k | k in fields {
      LeafSchemas(fields[k], c);
    }
  }

  /** The add-letter-contact request, field by field. */
  predicate ValidLetterContactBlock(j: Json, c: Checkers): (r: bool)
    ensures r <==>
              && j.JObject?
              && "contact_block" in j.fields && "is_default" in j.fields
              && j.fields["contact_block"].JString?
              && j.fields["is_default"].JBool?
  {
    ObjectSchema(j, AddServiceLetterContactBlockRequest.properties, AddServiceLetterContactBlockRequest.required, c);
    if j.JObject? then
      LetterContactBlockProperties(j.fields, c);
      Validates(j, AddServiceLetterContactBlockRequest, c)
    else
      Validates(j, AddServiceLetterContactBlockRequest, c)
  }

  /** Every listed property that is present validates. */
  predicate PropertiesValid(fields: map<string, Json>, properties: map<string, Schema>, c: Checkers)
  {
    forall k :: k in properties && k in fields ==> Validates(fields[k], properties[k], c)
  }

  /** The five listed properties of the add-SMS-sender schema, one at a time. */
  lemma AddSmsSenderProperties(fields: map<string, Json>, c: Checkers)
    ensures PropertiesValid(fields, AddServiceSmsSenderRequest.properties, c) <==>
              && OptionalField(fields, "sms_sender", (v: Json) => v.JString?)
              && OptionalField(fields, "is_default", (v: Json) => v.JBool?)
              && OptionalField(fields, "inbound_number_id", (v: Json) => c.definition("uuid", v))
              && OptionalField(fields, "rate_limit", RateLimitValue)
              && OptionalField(fields, "rate_limit_interval", RateLimitValue)
  {
    var props := AddServiceSmsSenderRequest.properties;
    assert props.Keys == {"sms_sender", "is_default", "inbound_number_id", "rate_limit", "rate_limit_interval"};
    assert props["sms_sender"] == PlainString && props["is_default"] == IsDefault;
    assert props["inbound_number_id"] == Uuid;
    assert props["rate_limit"] == RateLimit && props["rate_limit_interval"] == RateLimit;
    forall k | k in fields {
      LeafSchemas(fields[k], c);
    }
  }

  /** The add-SMS-sender request, field by field. */
  predicate ValidAddSmsSender(j: Json, c: Checkers): (r: bool)
    ensures r <==>
              && j.JObject?
              && "sms_sender" in j.fields && "is_default" in j.fields
              && j.fields["sms_sender"].JString?
              && j.fields["is_default"].JBool?
              && OptionalField(j.fields, "inbound_number_id", (v: Json) => c.definition("uuid", v))
              && OptionalField(j.fields, "rate_limit", RateLimitValue)
              && OptionalField(j.fields, "rate_limit_interval", RateLimitValue)
  {
    ObjectSchema(j, AddServiceSmsSenderRequest.properties, AddServiceSmsSenderRequest.required, c);
    if j.JObject? then
      AddSmsSenderProperties(j.fields, c);
      Validates(j, AddServiceSmsSenderRequest, c)
    else
      Validates(j, AddServiceSmsSenderRequest, c)
  }

  /** The six listed properties of the update-SMS-sender schema, one at a time. */
  lemma UpdateSmsSenderProperties(fields: map<string, Json>, c: Checkers)
    ensures PropertiesValid(fields, UpdateServiceSmsSenderRequest.properties, c) <==>
              && OptionalField(fields, "sms_sender", (v: Json) => v.JString?)
              && OptionalField(fields, "sms_sender_specifics", (v: Json) => v.JObject? || v.JNull?)
              && OptionalField(fields, "is_default", (v: Json) => v.JBool?)
              && OptionalField(fields, "rate_limit", RateLimitValue)
              && OptionalField(fields, "rate_limit_interval", RateLimitValue)
              && OptionalField(fields, "inbound_number_id", (v: Json) => c.definition("uuid", v))
  {
    var props := UpdateServiceSmsSenderRequest.properties;
    assert props.Keys == {"sms_sender", "sms_sender_specifics", "is_default", "rate_limit", "rate_limit_interval",
                          "inbound_number_id"};
    assert props["sms_sender"] == PlainString && props["is_default"] == IsDefault;
    assert props["sms_sender_specifics"] == Typed({TObject, TNull});
    assert props["inbound_number_id"] == Uuid;
    assert props["rate_limit"] == RateLimit && props["rate_limit_interval"] == RateLimit;
    forall k | k in fields {
      LeafSchemas(fields[k], c);
    }
  }

  /** The update-SMS-sender request, field by field: every field is optional. */
  predicate ValidUpdateSmsSender(j: Json, c: Checkers): (r: bool)
    ensures r <==>
              && j.JObject?
              && OptionalField(j.fields, "sms_sender", (v: Json) => v.JString?)
              && OptionalField(j.fields, "sms_sender_specifics", (v: Json) => v.JObject? || v.JNull?)
              && OptionalField(j.fields, "is_default", (v: Json) => v.JBool?)
              && OptionalField(j.fields, "rate_limit", RateLimitValue)
              && OptionalField(j.fields, "rate_limit_interval", RateLimitValue)
              && OptionalField(j.fields, "inbound_number_id", (v: Json) => c.definition("uuid", v))
  {
    ObjectSchema(j, UpdateServiceSmsSenderRequest.properties, UpdateServiceSmsSenderRequest.required, c);
    if j.JObject? then
      UpdateSmsSenderProperties(j.fields, c);
      Validates(j, UpdateServiceSmsSenderRequest, c)
    else
      Validates(j, UpdateServiceSmsSenderRequest, c)
  }

  /** No schema sets `additionalProperties`: a key none of them lists never makes a request invalid. */
  lemma {:induction false} UnlistedKeysAccepted(j: Json, key: string, v: Json, c: Checkers)
    requires j.JObject?
    requires key !in {"email_address", "contact_block", "sms_sender", "sms_sender_specifics", "is_default",
                      "inbound_number_id", "rate_limit", "rate_limit_interval"}
    ensures var j' := JObject(j.fields[key := v]);
            && (ValidEmailReplyTo(j, c) ==> ValidEmailReplyTo(j', c))
            && (ValidLetterContactBlock(j, c) ==> ValidLetterContactBlock(j', c))
            && (ValidAddSmsSender(j, c) ==> ValidAddSmsSender(j', c))
            && (ValidUpdateSmsSender(j, c) ==> ValidUpdateSmsSender(j', c))
  {
  }

  /** Without a `required` list, the empty object is a valid update. */
  lemma EmptyUpdateValid(c: Checkers)
    ensures ValidUpdateSmsSender(JObject(map[]), c)
  {
  }
}
