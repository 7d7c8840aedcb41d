/**
 * The MPI (Master Person Index) client: FHIR identifier formatting, the
 * retryable / non-retryable failure taxonomy of its HTTP request, and the
 * extraction of the single active VA Profile ID from the identifiers MPI returns.
 *
 * `requests.get` is a parameter (`transport`), as is the `IdentifierType(value)`
 * enum lookup, whose string values are not part of this model. The statsd
 * counters the client bumps are recorded in `MpiClient.metrics`.
 */
module Mpi {
  import opened Wrappers
  import opened Json

  /** Members of `IdentifierType`; `Unlisted` stands for one with no FHIR suffix. */
  datatype IdentifierType = Icn | Pid | VaProfileId | Birlsid | Unlisted(name: string)

  /** `IdentifierType(value)`: None when no member has that value (ValueError). */
  type IdentifierTypeLookup = string -> Option<IdentifierType>

  const SystemIdentifier: string := "200ENTF"
  const RetryableStatuses: set<int> := {429, 500, 502, 503, 504}
  const VaProfileSuffix: string := "^PI^200VETS^USDVA"
  const ActiveVaProfileSuffix: string := VaProfileSuffix + "^A"

  /** `FHIR_FORMAT_SUFFIXES.get(t)`. */
  function FhirSuffix(t: IdentifierType): (r: Option<string>)
    ensures r.Some? <==> !t.Unlisted?
    ensures r.Some? ==> |r.value| > 0 && r.value[0] == '^'
    ensures t == VaProfileId ==> r == Some(VaProfileSuffix)
  {
    match t
    case Icn => Some("^NI^200M^USVHA")
    case Pid => Some("^PI^200CORP^USVBA")
    case VaProfileId => Some(VaProfileSuffix)
    case Birlsid => Some("^PI^200BRLS^USDVA")
    case Unlisted(_) => None
  }

  datatype RecipientIdentifier = RecipientIdentifier(idType: string, idValue: string)

  datatype FhirIdentifier = FhirIdentifier(fhir: string, idType: IdentifierType, idValue: string)

  datatype UnsupportedReason = NoSuchType(value: string) | NoMapping(member: IdentifierType)

  /**
   * The exceptions the client raises. `Uncaught` is a Python exception outside
   * the client's own taxonomy (`KeyError`, `TypeError`, `IndexError`,
   * `AttributeError`) raised while reading a response body, named by its class.
   */
  datatype MpiError =
    | UnsupportedIdentifier(reason: UnsupportedReason)
    | IncorrectNumberOfIdentifiers(count: nat)
    | IdentifierNotFound
    | MultipleActiveVaProfileIds
    | MpiRetryable
    | MpiNonRetryable
    | BeneficiaryDeceased
    | Uncaught(exception: string)

  /** `transform_to_fhir_format`: the identifier value followed by its type's suffix. */
  function TransformToFhirFormat(ri: RecipientIdentifier, typeOf: IdentifierTypeLookup)
    : (r: Result<FhirIdentifier, MpiError>)
    ensures typeOf(ri.idType).None? ==> r == Failure(UnsupportedIdentifier(NoSuchType(ri.idType)))
    ensures typeOf(ri.idType).Some? && FhirSuffix(typeOf(ri.idType).value).None? ==>
              r == Failure(UnsupportedIdentifier(NoMapping(typeOf(ri.idType).value)))
    ensures r.Success? <==> typeOf(ri.idType).Some? && FhirSuffix(typeOf(ri.idType).value).Some?
    ensures r.Success? ==>
              && r.value.idType == typeOf(ri.idType).value
              && r.value.idValue == ri.idValue
              && r.value.fhir == ri.idValue + FhirSuffix(r.value.idType).value
  {
    match typeOf(ri.idType)
    case None => Failure(UnsupportedIdentifier(NoSuchType(ri.idType)))
    case Some(t) =>
      match FhirSuffix(t)
      case None => Failure(UnsupportedIdentifier(NoMapping(t)))
      case Some(suffix) => Success(FhirIdentifier(ri.idValue + suffix, t, ri.idValue))
  }

  predicate EndsWith(s: string, suffix: string)
  {
    |suffix| <= |s| && s[|s| - |suffix|..] == suffix
  }

  /** `s.split('^')[0]`: the text before the first caret (all of `s` when it has none). */
  function BeforeCaret(s: string): (r: string)
    ensures '^' !in r
    ensures |r| <= |s| && r == s[..|r|]
    ensures |r| < |s| ==> s[|r|] == '^'
  {
    if s == [] || s[0] == '^' then [] else [s[0]] + BeforeCaret(s[1..])
  }

  /** The number of identifier values that end with the active VA Profile suffix. */
  function CountActive(values: seq<string>): nat
  {
    if values == [] then 0
    else (if EndsWith(values[0], ActiveVaProfileSuffix) then 1 else 0) + CountActive(values[1..])
  }

  /** The list comprehension of `_get_active_va_profile_id` (lines 90-92). */
  function ActiveVaProfileIds(values: seq<string>): (ids: seq<string>)
    ensures |ids| == CountActive(values)
    ensures forall k :: 0 <= k < |ids| ==> '^' !in ids[k]
    ensures forall k :: 0 <= k < |ids| ==>
              exists v :: v in values && EndsWith(v, ActiveVaProfileSuffix) && ids[k] == BeforeCaret(v)
  {
    if values == [] then []
    else
      var rest := ActiveVaProfileIds(values[1..]);
      if EndsWith(values[0], ActiveVaProfileSuffix) then [BeforeCaret(values[0])] + rest else rest
  }

  /** `_get_active_va_profile_id`: the single active VA Profile ID, or why there is none. */
  function GetActiveVaProfileId(values: seq<string>): (r: Result<string, MpiError>)
    ensures r == Failure(IdentifierNotFound) <==> CountActive(values) == 0
    ensures r == Failure(MultipleActiveVaProfileIds) <==> CountActive(values) > 1
    ensures r.Success? <==> CountActive(values) == 1
    ensures r.Success? ==>
              '^' !in r.value
              && exists v :: v in values && EndsWith(v, ActiveVaProfileSuffix) && r.value == BeforeCaret(v)
  {
    var ids := ActiveVaProfileIds(values);
    if ids == [] then Failure(IdentifierNotFound)
    else if |ids| > 1 then Failure(MultipleActiveVaProfileIds)
    else Success(ids[0])
  }

  lemma {:induction false} BeforeCaretOfSuffixed(v: string, suffix: string)
    requires '^' !in v
    requires |suffix| > 0 && suffix[0] == '^'
    ensures BeforeCaret(v + suffix) == v
  {
    if v != [] {
      assert (v + suffix)[1..] == v[1..] + suffix;
      BeforeCaretOfSuffixed(v[1..], suffix);
    } else {
      assert v + suffix == suffix;
    }
  }

  /**
   * Round trip: the identifier MPI echoes back for a VA Profile ID, active
   * (`^A`), yields that ID again.
   */
  lemma {:induction false} FhirRoundTrip(v: string, idType: string, typeOf: IdentifierTypeLookup)
    requires '^' !in v
    requires typeOf(idType) == Some(VaProfileId)
    ensures var f := TransformToFhirFormat(RecipientIdentifier(idType, v), typeOf);
            f.Success? && GetActiveVaProfileId([f.value.fhir + "^A"]) == Success(v)
  {
    var fhir := v + VaProfileSuffix;
    var echoed := fhir + "^A";
    assert echoed == v + ActiveVaProfileSuffix;
    assert EndsWith(echoed, ActiveVaProfileSuffix) by {
      assert echoed[|echoed| - |ActiveVaProfileSuffix|..] == ActiveVaProfileSuffix;
    }
    BeforeCaretOfSuffixed(v, ActiveVaProfileSuffix);
    assert [echoed][1..] == [];
    assert ActiveVaProfileIds([echoed]) == [v];
  }

  /** What `requests.get(...).raise_for_status()` raised. */
  datatype RequestFailure =
    | HttpError(status: int)
    | OtherRequestException   // a RequestException that is not an HTTPError

  /** The error classification of `_make_request` (lines 70-80). */
  function ClassifyRequestFailure(f: RequestFailure): (e: MpiError)
    ensures e == MpiRetryable || e == MpiNonRetryable
    ensures e == MpiRetryable <==> f.OtherRequestException? || f.status in RetryableStatuses
  {
    match f
    case HttpError(status) => if status in RetryableStatuses then MpiRetryable else MpiNonRetryable
    case OtherRequestException => MpiRetryable
  }

  /** The statsd counter bumped for a failed request. */
  function RequestFailureMetric(f: RequestFailure): string
  {
    match f
    case HttpError(status) => "clients.mpi.error." + IntToString(status)
    case OtherRequestException => "clients.mpi.error.request_exception"
  }

  /** The GET request `_make_request` sends. */
  datatype MpiRequest = MpiRequest(url: string, sender: string, certPath: string, keyPath: string)

  /**
   * What the transport produced: a failure, a 2xx response with its JSON body,
   * or a 2xx response whose body `response.json()` cannot decode.
   */
  datatype RequestOutcome = Failed(failure: RequestFailure) | Responded(body: Json) | RespondedUndecodable

  /**
   * The fields `_validate_response` reads to build its error message:
   * `details.coding[0].code` and `details.text`.
   */
  predicate HasErrorDetails(body: Json)
  {
    var details := GetOrNull(body, "details");
    && Field(details, "text").Some?
    && Field(details, "coding").Some?
    && Field(details, "coding").value.JArray?
    && |Field(details, "coding").value.items| > 0
    && Field(Field(details, "coding").value.items[0], "code").Some?
  }

  /**
   * `j[0]`: a list or string yields its first element (`IndexError` when empty),
   * a dict has no key `0` (JSON keys are strings), anything else is not subscriptable.
   */
  function First(j: Json): (r: Indexed)
    ensures r.Got? <==> (j.JArray? && j.items != []) || (j.JString? && j.s != "")
  {
    match j
    case JArray(items) => if items == [] then Raised("IndexError") else Got(items[0])
    case JString(s) => if s == "" then Raised("IndexError") else Got(JString([s[0]]))
    case JObject(_) => Raised("KeyError")
    case _ => Raised("TypeError")
  }

  /**
   * The exception building `_validate_response`'s message raises, if any: the
   * f-string reads `['details']['coding'][0]['code']` and then `['details']['text']`.
   */
  function ErrorDetailsFault(body: Json): (r: Option<string>)
    ensures r.Some? ==> r.value in {"KeyError", "TypeError", "IndexError"}
  {
    match Index2(body, "details", "coding")
    case Raised(e) => Some(e)
    case Got(coding) =>
      match First(coding)
      case Raised(e) => Some(e)
      case Got(entry) =>
        match Index(entry, "code")
        case Raised(e) => Some(e)
        case Got(_) =>
          match Index2(body, "details", "text")
          case Raised(e) => Some(e)
          case Got(_) => None
  }

  /** The message is built exactly when the body carries all the details it reads. */
  lemma ErrorDetailsFaultIff(body: Json)
    ensures ErrorDetailsFault(body).None? <==> HasErrorDetails(body)
  {
  }

  /**
   * `_validate_response` then `_assert_not_deceased` on a successful response
   * body: the error raised, if any. A body that is not a dict has no `.get`;
   * a truthy severity whose details are incomplete fails while the message is built.
   */
  function CheckResponse(body: Json): (r: Option<MpiError>)
    ensures !body.JObject? ==> r == Some(Uncaught("AttributeError"))
    ensures body.JObject? && Truthy(GetOrNull(body, "severity")) ==>
              r == Some(match ErrorDetailsFault(body)
                        case None => MpiNonRetryable
                        case Some(e) => Uncaught(e))
    ensures body.JObject? && !Truthy(GetOrNull(body, "severity")) && Truthy(GetOrNull(body, "deceasedDateTime")) ==>
              r == Some(BeneficiaryDeceased)
    ensures r.None? <==>
              body.JObject? && !Truthy(GetOrNull(body, "severity")) && !Truthy(GetOrNull(body, "deceasedDateTime"))
  {
    if !body.JObject? then Some(Uncaught("AttributeError"))
    else if Truthy(GetOrNull(body, "severity")) then
      match ErrorDetailsFault(body)
      case None => Some(MpiNonRetryable)
      case Some(e) => Some(Uncaught(e))
    else if Truthy(GetOrNull(body, "deceasedDateTime")) then Some(BeneficiaryDeceased)
    else None
  }

  /** The statsd counters bumped when a response body is refused. */
  function ResponseMetrics(e: MpiError): seq<string>
  {
    match e
    case MpiNonRetryable => ["clients.mpi.error"]
    case BeneficiaryDeceased => ["clients.mpi.beneficiary_deceased"]
    case _ => []
  }

  /** `_make_request` on a given transport outcome: the body or the error, and the counters bumped. */
  function MakeRequest(outcome: RequestOutcome): (r: (Result<Json, MpiError>, seq<string>))
    ensures outcome.Failed? ==>
              r == (Failure(ClassifyRequestFailure(outcome.failure)), [RequestFailureMetric(outcome.failure)])
    ensures outcome.Responded? ==>
              && (r.0.Success? <==> CheckResponse(outcome.body).None?)
              && (r.0.Success? ==> r.0.value == outcome.body && r.1 == [])
              && (r.0.Failure? ==> r.0.error == CheckResponse(outcome.body).value
                                   && r.1 == ResponseMetrics(r.0.error))
    // the decode error is raised in the `else:` block, outside the classifying `except` clauses
    ensures outcome.RespondedUndecodable? ==> r == (Failure(Uncaught("JSONDecodeError")), [])
    ensures r.0.Failure? ==> r.0.error != IdentifierNotFound && r.0.error != MultipleActiveVaProfileIds
  {
    match outcome
    case Failed(f) => (Failure(ClassifyRequestFailure(f)), [RequestFailureMetric(f)])
    case Responded(body) =>
      (match CheckResponse(body)
       case Some(e) => (Failure(e), ResponseMetrics(e))
       case None => (Success(body), []))
    case RespondedUndecodable => (Failure(Uncaught("JSONDecodeError")), [])
  }

  /**
   * What the comprehension's filter does to one identifier:
   * `identifier['value'].endswith(...)` raises when the subscript does, and
   * with `AttributeError` when the value is not a string.
   */
  function ItemFault(item: Json): (r: Option<string>)
    ensures r.None? <==> Field(item, "value").Some? && Field(item, "value").value.JString?
  {
    match Index(item, "value")
    case Raised(e) => Some(e)
    case Got(JString(_)) => None
    case Got(_) => Some("AttributeError")
  }

  /** The `value` strings of the identifiers, or the exception of the first one that has none. */
  function IdentifierValues(items: seq<Json>): (r: Result<seq<string>, string>)
    ensures r.Success? <==> forall k :: 0 <= k < |items| ==> ItemFault(items[k]).None?
    ensures r.Success? ==>
              && |r.value| == |items|
              && forall k :: 0 <= k < |items| ==> Field(items[k], "value") == Some(JString(r.value[k]))
    ensures r.Failure? ==>
              exists k :: 0 <= k < |items| && ItemFault(items[k]) == Some(r.error)
                          && forall m :: 0 <= m < k ==> ItemFault(items[m]).None?
  {
    if items == [] then Success([])
    else match ItemFault(items[0])
      case Some(e) => Failure(e)
      case None =>
        match IdentifierValues(items[1..])
        case Success(rest) => Success([Field(items[0], "value").value.s] + rest)
        case Failure(e) =>
          assert exists k :: 0 <= k < |items[1..]| && ItemFault(items[1..][k]) == Some(e)
                             && forall m :: 0 <= m < k ==> ItemFault(items[1..][m]).None?;
          var k :| 0 <= k < |items[1..]| && ItemFault(items[1..][k]) == Some(e)
                   && forall m :: 0 <= m < k ==> ItemFault(items[1..][m]).None?;
          assert ItemFault(items[k + 1]) == Some(e);
          assert forall m :: 0 <= m < k + 1 ==> ItemFault(items[m]).None? by {
            forall m | 0 <= m < k + 1 ensures ItemFault(items[m]).None? {
              if m > 0 { assert items[m] == items[1..][m - 1]; }
            }
          }
          Failure(e)
  }

  datatype Notification = Notification(id: string, recipientIdentifiers: seq<RecipientIdentifier>)

  const IncorrectNumberMetric: string := "clients.mpi.incorrect_number_of_recipient_identifiers_error"

  /**
   * `response_json['identifier']` as the comprehension iterates it, reduced to
   * the `value` strings. Iterating a dict yields its keys and a string its
   * characters, so an empty dict or string gives no values and a non-empty
   * one fails on `str['value']`; a number, boolean or null is not iterable.
   */
  function ResponseIdentifiers(body: Json): (r: Result<seq<string>, MpiError>)
    ensures Index(body, "identifier").Raised? ==>
              r == Failure(Uncaught(Index(body, "identifier").exception))
    ensures r == Success([]) <==>
              Index(body, "identifier").Got?
              && Index(body, "identifier").value in {JArray([]), JObject(map[]), JString("")}
    ensures r.Success? && r.value != [] ==>
              && Index(body, "identifier").Got? && Index(body, "identifier").value.JArray?
              && var items := Index(body, "identifier").value.items;
                 |items| == |r.value|
                 && forall k :: 0 <= k < |items| ==> Field(items[k], "value") == Some(JString(r.value[k]))
    ensures Index(body, "identifier").Got? && Index(body, "identifier").value.JArray? ==>
              var values := IdentifierValues(Index(body, "identifier").value.items);
              r == (if values.Success? then Success(values.value) else Failure(Uncaught(values.error)))
    ensures Index(body, "identifier").Got? && !Index(body, "identifier").value.JArray?
            && Index(body, "identifier").value !in {JObject(map[]), JString("")} ==>
              r == Failure(Uncaught("TypeError"))
  {
    match Index(body, "identifier")
    case Raised(e) => Failure(Uncaught(e))
    case Got(JArray(items)) =>
      (match IdentifierValues(items)
       case Success(values) => Success(values)
       case Failure(e) => Failure(Uncaught(e)))
    case Got(JObject(fields)) => if fields == map[] then Success([]) else Failure(Uncaught("TypeError"))
    case Got(JString(s)) => if s == "" then Success([]) else Failure(Uncaught("TypeError"))
    case Got(_) => Failure(Uncaught("TypeError"))
  }

  /** The counters `_get_active_va_profile_id` and `get_va_profile_id` bump after the request. */
  function ExtractionMetric(r: Result<string, MpiError>): string
  {
    match r
    case Success(_) => "clients.mpi.success"
    case Failure(IdentifierNotFound) => "clients.mpi.error.no_va_profile_id"
    case Failure(_) => "clients.mpi.error.multiple_va_profile_ids"
  }

  /** The client, with the fields `init_app` assigns and the statsd counters bumped so far. */
  class MpiClient {
    var baseUrl: string
    var sslCertPath: string
    var sslKeyPath: string
    /** `statsd_client.incr` calls, oldest first. */
    var metrics: seq<string>

    constructor ()
      ensures metrics == []
    {
      baseUrl, sslCertPath, sslKeyPath := "", "", "";
      metrics := [];
    }

    /** `init_app` (the logger and the statsd client itself are not modelled). */
    method InitApp(url: string, sslCertPath': string, sslKeyPath': string)
      modifies this
      ensures baseUrl == url && sslCertPath == sslCertPath' && sslKeyPath == sslKeyPath'
      ensures metrics == old(metrics)
    {
      baseUrl := url;
      sslCertPath := sslCertPath';
      sslKeyPath := sslKeyPath';
    }

    /** The request `_make_request` sends for a FHIR identifier. */
    function RequestFor(fhir: string): (q: MpiRequest)
      reads this
      ensures q.sender == SystemIdentifier
      ensures q.url == baseUrl + "/psim_webservice/fhir/Patient/" + fhir
    {
      MpiRequest(baseUrl + "/psim_webservice/fhir/Patient/" + fhir, SystemIdentifier, sslCertPath, sslKeyPath)
    }

    /** `get_va_profile_id`, with `requests.get` given as `transport`. */
    method GetVaProfileId(notification: Notification, typeOf: IdentifierTypeLookup,
                          transport: MpiRequest -> RequestOutcome)
      returns (r: Result<string, MpiError>)
      modifies this`metrics
      // exactly one recipient identifier, or an error before any request
      ensures |notification.recipientIdentifiers| != 1 ==>
                r == Failure(IncorrectNumberOfIdentifiers(|notification.recipientIdentifiers|))
                && metrics == old(metrics) + [IncorrectNumberMetric]
      ensures |notification.recipientIdentifiers| == 1 ==>
                var f := TransformToFhirFormat(notification.recipientIdentifiers[0], typeOf);
                && (f.Failure? ==> r == Failure(f.error) && metrics == old(metrics))
                && (f.Success? ==>
                      var (made, bumped) := MakeRequest(transport(RequestFor(f.value.fhir)));
                      && (made.Failure? ==> r == Failure(made.error) && metrics == old(metrics) + bumped)
                      && (made.Success? ==>
                            var ids := ResponseIdentifiers(made.value);
                            && (ids.Failure? ==> r == Failure(ids.error) && metrics == old(metrics))
                            && (ids.Success? ==>
                                  r == GetActiveVaProfileId(ids.value)
                                  && metrics == old(metrics) + [ExtractionMetric(r)])))
      // a returned ID is the text before the caret of the one active VA Profile identifier
      ensures r.Success? ==> '^' !in r.value
    {
      if |notification.recipientIdentifiers| != 1 {
        metrics := metrics + [IncorrectNumberMetric];
        return Failure(IncorrectNumberOfIdentifiers(|notification.recipientIdentifiers|));
      }
      var f := TransformToFhirFormat(notification.recipientIdentifiers[0], typeOf);
      if f.Failure? {
        return Failure(f.error);
      }
      var (made, bumped) := MakeRequest(transport(RequestFor(f.value.fhir)));
      metrics := metrics + bumped;
      if made.Failure? {
        return Failure(made.error);
      }
      var ids := ResponseIdentifiers(made.value);
      if ids.Failure? {
        return Failure(ids.error);
      }
      r := GetActiveVaProfileId(ids.value);
      metrics := metrics + [ExtractionMetric(r)];
    }
  }
}
