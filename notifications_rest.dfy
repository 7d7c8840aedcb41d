/**
 * The notifications blueprint: the SES, MMG and Firetext delivery-receipt
 * callbacks and `send_notification`'s chain of checks.
 *
 * Every call into code outside this blueprint is a parameter: `json.loads`,
 * `validate_callback_data`, `get_aws_responses`, the notifications DAO,
 * `process_sms_client_response`, the marshmallow schemas, the templates DAO,
 * `Template` rendering and `allowed_to_send_to`. Each handler is a
 * specification function (what it answers and which calls it makes) and a
 * method on `CallbackEffects` / `ApiEffects` that performs the calls in order
 * and is proved to agree with it.
 */
module NotificationsRest {
  import opened Wrappers
  import opened Json

  /** How a view ends. */
  datatype Reply =
    | Succeeded(message: Json)               // `jsonify(result="success", message=...)`, 200
    | Created(data: Json)                    // `jsonify(data=...)`, 201
    | Rejected(status: int, message: Json)   // `raise InvalidRequest(message, status_code)`
    | Unhandled(exception: string)           // an exception no handler in the view catches

  /** The application settings the views read. */
  datatype Config = Config(
    verifyCodeFromEmailAddress: string,   // VERIFY_CODE_FROM_EMAIL_ADDRESS
    invitationEmailFrom: string,          // INVITATION_EMAIL_FROM
    notifyEmailDomain: string,            // NOTIFY_EMAIL_DOMAIN
    smsCharCountLimit: int,               // SMS_CHAR_COUNT_LIMIT
    keyTypeTeam: string)                  // app.models.KEY_TYPE_TEAM

  function Strings(xs: seq<string>): (j: Json)
    ensures j.JArray? && |j.items| == |xs|
    ensures forall i :: 0 <= i < |xs| ==> j.items[i] == JString(xs[i])
  {
    if xs == [] then JArray([]) else JArray([JString(xs[0])] + Strings(xs[1..]).items)
  }

  /** `{field: [message]}`, the error shape of `send_notification`. */
  function FieldError(field: string, message: string): Json
  {
    JObject(map[field := JArray([JString(message)])])
  }

  /** `", ".join(xs)`. */
  function Join(xs: seq<string>): (s: string)
    ensures xs == [] ==> s == ""
    ensures |xs| == 1 ==> s == xs[0]
  {
    if xs == [] then "" else if |xs| == 1 then xs[0] else xs[0] + ", " + Join(xs[1..])
  }

  // ---------------------------------------------------------------------------
  // SES callback

  /** The entry `get_aws_responses` returns for a notification type. */
  datatype AwsResponse = AwsResponse(
    notificationStatus: string,
    notificationStatisticsStatus: string,
    success: bool,
    message: string)

  datatype SesCollaborators = SesCollaborators(
    loads: string -> Option<Json>,                    // `json.loads`; None is a ValueError
    validate: (Json, seq<string>, string) -> seq<string>, // `validate_callback_data`
    awsResponses: Json -> Option<AwsResponse>,        // `get_aws_responses`; None is a KeyError
    updateByReference: (Json, string, string) -> bool) // whether the DAO update's result is truthy

  /** A call of `update_notification_status_by_reference`. */
  datatype UpdateCall = UpdateCall(reference: Json, status: string, statisticsStatus: string)

  /** What one SES callback does: its reply, the update it makes (if any) and the counter it bumps (if any). */
  datatype SesRun = SesRun(reply: Reply, update: Option<UpdateCall>, metric: Option<string>)

  const SesSucceeded: Json := JString("SES callback succeeded")
  const SesInvalidJson: Json := JString("SES callback failed: invalid json")
  const SesMessageIdMissing: Json := JString("SES callback failed: messageId missing")

  function SesStatusNotFound(key: Json): Json
  {
    JString("SES callback failed: status " + PyStr(key) + " not found")
  }

  function SesNotUpdated(status: string): Json
  {
    JString("SES callback failed: notification either not found or already updated from sending. Status " + status)
  }

  /** `is_not_a_notification`: the source is one of the platform's own sender addresses. */
  predicate IsNotANotification(source: Json, cfg: Config): (r: bool)
    ensures r ==> source.JString?
    ensures r <==> source == JString(cfg.verifyCodeFromEmailAddress)
                   || source == JString(cfg.invitationEmailFrom + "@" + cfg.notifyEmailDomain)
  {
    var inviteEmail := cfg.invitationEmailFrom + "@" + cfg.notifyEmailDomain;
    if JString(cfg.verifyCodeFromEmailAddress) == source then true
    else if JString(inviteEmail) == source then true
    else false
  }

  /** The key the SES `notificationType` is looked up under: bounces split into permanent and temporary. */
  function LookupKey(message: Json, notificationType: Json): (r: Result<Json, string>)
    ensures notificationType != JString("Bounce") ==> r == Success(notificationType)
    ensures notificationType == JString("Bounce") ==>
              match Index2(message, "bounce", "bounceType")
              case Raised(e) => r == Failure(e)
              case Got(b) => r == Success(if b == JString("Permanent") then b else JString("Temporary"))
    ensures r.Success? && notificationType == JString("Bounce") ==>
              r.value in {JString("Permanent"), JString("Temporary")}
  {
    if notificationType == JString("Bounce") then
      match Index2(message, "bounce", "bounceType")
      case Raised(e) => Failure(e)
      case Got(bounceType) => if bounceType == JString("Permanent") then Success(bounceType) else Success(JString("Temporary"))
    else Success(notificationType)
  }

  function Reject(status: int, message: Json): SesRun
  {
    SesRun(Rejected(status, message), None, None)
  }

  /** Lines 77-112: the part guarded by `except KeyError`. */
  function SesDeliver(message: Json, aws: AwsResponse, cfg: Config, x: SesCollaborators): (run: SesRun)
  {
    match Index2(message, "mail", "source")
    case Raised(e) =>
      if e == "KeyError" then Reject(400, SesMessageIdMissing) else SesRun(Unhandled(e), None, None)
    case Got(source) =>
      if IsNotANotification(source, cfg) then SesRun(Succeeded(SesSucceeded), None, None)
      else
        // `mail` held a `source`, so it is a dict: only the key can be missing
        match Index2(message, "mail", "messageId")
        case Raised(_) => Reject(400, SesMessageIdMissing)
        case Got(reference) =>
          var call := UpdateCall(reference, aws.notificationStatus, aws.notificationStatisticsStatus);
          if !x.updateByReference(reference, aws.notificationStatus, aws.notificationStatisticsStatus) then
            SesRun(Rejected(404, SesNotUpdated(aws.notificationStatus)), Some(call), None)
          else
            SesRun(Succeeded(SesSucceeded), Some(call),
                   Some("notifications.callback.ses." + aws.notificationStatisticsStatus))
  }

  /** `process_ses_response` on the raw request body `data`. */
  function SesResponse(data: string, cfg: Config, x: SesCollaborators): (run: SesRun)
    // malformed outer JSON: 400 and nothing else
    ensures x.loads(data).None? ==> run == Reject(400, SesInvalidJson)
    // the outer validation runs first and its errors are the reply
    ensures x.loads(data).Some? && x.validate(x.loads(data).value, ["Message"], "SES") != [] ==>
              run == Reject(400, Strings(x.validate(x.loads(data).value, ["Message"], "SES")))
    // malformed inner JSON in `Message`: 400 and nothing else
    ensures SesOuterPasses(data, x) && x.loads(SesMessageText(data, x)).None? ==>
              run == Reject(400, SesInvalidJson)
    // the inner validation runs next and its errors are the reply
    ensures SesOuterPasses(data, x) && x.loads(SesMessageText(data, x)).Some?
            && x.validate(x.loads(SesMessageText(data, x)).value, ["notificationType"], "SES") != [] ==>
              run == Reject(400, Strings(x.validate(x.loads(SesMessageText(data, x)).value, ["notificationType"], "SES")))
    // a message without `notificationType`, or a bounce without `bounce.bounceType`,
    // raises KeyError outside both `except` clauses: no reply, no update
    ensures SesOuterPasses(data, x) && x.loads(SesMessageText(data, x)).Some?
            && SesInnerMessage(data, x, x.loads(SesMessageText(data, x)).value) ==>
              var message := x.loads(SesMessageText(data, x)).value;
              && (Index(message, "notificationType").Raised? ==>
                    run == SesRun(Unhandled(Index(message, "notificationType").exception), None, None))
              && (Index(message, "notificationType").Got?
                  && LookupKey(message, Index(message, "notificationType").value).Failure? ==>
                    run == SesRun(Unhandled(LookupKey(message, Index(message, "notificationType").value).error),
                                  None, None))
    // once the status is found, a `mail` without `source` (or, for an outside
    // sender, without `messageId`) is the 400 "messageId missing"
    ensures SesOuterPasses(data, x) && x.loads(SesMessageText(data, x)).Some?
            && SesInnerMessage(data, x, x.loads(SesMessageText(data, x)).value)
            && SesStatusFound(x.loads(SesMessageText(data, x)).value, x)
            && MailKeyMissing(x.loads(SesMessageText(data, x)).value, cfg) ==>
              run == Reject(400, SesMessageIdMissing)
    // a `mail` that is not a dict raises TypeError, which no clause of the view catches
    ensures SesOuterPasses(data, x) && x.loads(SesMessageText(data, x)).Some?
            && SesInnerMessage(data, x, x.loads(SesMessageText(data, x)).value)
            && SesStatusFound(x.loads(SesMessageText(data, x)).value, x)
            && Index2(x.loads(SesMessageText(data, x)).value, "mail", "source") == Raised("TypeError") ==>
              run == SesRun(Unhandled("TypeError"), None, None)
    // the only update ever made is with the status pair of the looked-up entry
    ensures run.update.Some? ==>
              exists key :: x.awsResponses(key).Some?
                            && run.update.value.status == x.awsResponses(key).value.notificationStatus
                            && run.update.value.statisticsStatus == x.awsResponses(key).value.notificationStatisticsStatus
    // a counter is bumped only on success, after an update
    ensures run.metric.Some? ==> run.reply == Succeeded(SesSucceeded) && run.update.Some?
    // every 404 follows an update whose result was falsy
    ensures run.reply.Rejected? && run.reply.status == 404 ==>
              run.update.Some? && run.metric.None?
              && !x.updateByReference(run.update.value.reference, run.update.value.status,
                                      run.update.value.statisticsStatus)
    // rejections are 400 or 404 and never bump a counter
    ensures run.reply.Rejected? ==> run.reply.status in {400, 404} && run.metric.None?
    ensures run.reply.Rejected? && run.reply.status == 400 ==> run.update.None?
  {
    match x.loads(data)
    case None => Reject(400, SesInvalidJson)
    case Some(request) =>
      var errors := x.validate(request, ["Message"], "SES");
      if errors != [] then Reject(400, Strings(errors))
      else
        match Index(request, "Message")
        case Raised(e) => SesRun(Unhandled(e), None, None)
        case Got(m) =>
          if !m.JString? then SesRun(Unhandled("TypeError"), None, None)   // json.loads of a non-string
          else
            match x.loads(m.s)
            case None => Reject(400, SesInvalidJson)
            case Some(message) =>
              var errors := x.validate(message, ["notificationType"], "SES");
              if errors != [] then Reject(400, Strings(errors))
              else
                match Index(message, "notificationType")
                case Raised(e) => SesRun(Unhandled(e), None, None)
                case Got(notificationType) =>
                  match LookupKey(message, notificationType)
                  case Failure(e) => SesRun(Unhandled(e), None, None)
                  case Success(key) =>
                    match x.awsResponses(key)
                    case None => Reject(400, SesStatusNotFound(key))
                    case Some(aws) => SesDeliver(message, aws, cfg, x)
  }

  /** The outer body decodes, validates and carries a string `Message`. */
  predicate SesOuterPasses(data: string, x: SesCollaborators)
  {
    && x.loads(data).Some?
    && x.validate(x.loads(data).value, ["Message"], "SES") == []
    && Index(x.loads(data).value, "Message").Got?
    && Index(x.loads(data).value, "Message").value.JString?
  }

  /** The text of the outer body's `Message`. */
  function SesMessageText(data: string, x: SesCollaborators): string
    requires SesOuterPasses(data, x)
  {
    Index(x.loads(data).value, "Message").value.s
  }

  /** The decoded inner message of an SES callback whose outer layers pass. */
  predicate SesInnerMessage(data: string, x: SesCollaborators, message: Json)
  {
    && SesOuterPasses(data, x)
    && x.loads(SesMessageText(data, x)) == Some(message)
    && x.validate(message, ["notificationType"], "SES") == []
  }

  /** The message's `notificationType` maps to an entry of the response table. */
  predicate SesStatusFound(message: Json, x: SesCollaborators)
  {
    && Index(message, "notificationType").Got?
    && LookupKey(message, Index(message, "notificationType").value).Success?
    && x.awsResponses(LookupKey(message, Index(message, "notificationType").value).value).Some?
  }

  /** The `KeyError`s the inner `except` turns into "messageId missing". */
  predicate MailKeyMissing(message: Json, cfg: Config)
  {
    || Index2(message, "mail", "source") == Raised("KeyError")
    || (&& Index2(message, "mail", "source").Got?
        && !IsNotANotification(Index2(message, "mail", "source").value, cfg)
        && Index2(message, "mail", "messageId") == Raised("KeyError"))
  }

  /**
   * Once the inner message is decoded and validated, the key missing from the
   * response table is reported before the sender or the message id is looked at.
   */
  lemma {:induction false} StatusNotFoundBeforeSender(data: string, cfg: Config, x: SesCollaborators, message: Json)
    requires SesInnerMessage(data, x, message)
    requires Index(message, "notificationType").Got?
    requires LookupKey(message, Index(message, "notificationType").value).Success?
    requires x.awsResponses(LookupKey(message, Index(message, "notificationType").value).value).None?
    ensures SesResponse(data, cfg, x)
            == Reject(400, SesStatusNotFound(LookupKey(message, Index(message, "notificationType").value).value))
  {
  }

  /** A callback about one of the platform's own senders succeeds without any update. */
  lemma {:induction false} InternalSenderNotUpdated(data: string, cfg: Config, x: SesCollaborators, message: Json)
    requires SesInnerMessage(data, x, message)
    requires Index(message, "notificationType").Got?
    requires LookupKey(message, Index(message, "notificationType").value).Success?
    requires x.awsResponses(LookupKey(message, Index(message, "notificationType").value).value).Some?
    requires Index2(message, "mail", "source").Got?
    requires IsNotANotification(Index2(message, "mail", "source").value, cfg)
    ensures SesResponse(data, cfg, x) == SesRun(Succeeded(SesSucceeded), None, None)
  {
  }

  /**
   * A found notification is answered 200 and counted, whatever the entry's
   * `success` flag says: the flag is only logged.
   */
  lemma {:induction false} DeliveredRegardlessOfSuccessFlag(data: string, cfg: Config, x: SesCollaborators,
                                                           message: Json)
    requires SesInnerMessage(data, x, message)
    requires Index(message, "notificationType").Got?
    requires LookupKey(message, Index(message, "notificationType").value).Success?
    requires x.awsResponses(LookupKey(message, Index(message, "notificationType").value).value).Some?
    requires Index2(message, "mail", "source").Got?
    requires !IsNotANotification(Index2(message, "mail", "source").value, cfg)
    requires Index2(message, "mail", "messageId").Got?
    ensures var aws := x.awsResponses(LookupKey(message, Index(message, "notificationType").value).value).value;
            var reference := Index2(message, "mail", "messageId").value;
            var run := SesResponse(data, cfg, x);
            && run.update == Some(UpdateCall(reference, aws.notificationStatus, aws.notificationStatisticsStatus))
            && (x.updateByReference(reference, aws.notificationStatus, aws.notificationStatisticsStatus) ==>
                  run.reply == Succeeded(SesSucceeded)
                  && run.metric == Some("notifications.callback.ses." + aws.notificationStatisticsStatus))
            && (!x.updateByReference(reference, aws.notificationStatus, aws.notificationStatisticsStatus) ==>
                  run.reply == Rejected(404, SesNotUpdated(aws.notificationStatus)))
  {
  }

  // ---------------------------------------------------------------------------
  // MMG and Firetext callbacks

  datatype SmsCollaborators = SmsCollaborators(
    loads: string -> Option<Json>,
    validate: (Json, seq<string>, string) -> seq<string>,
    processSms: (Json, Json, string) -> (Json, Json))   // `process_sms_client_response` -> (success, errors)

  /** A call of `process_sms_client_response(status, reference, client_name)`. */
  datatype SmsCall = SmsCall(status: Json, reference: Json, clientName: string)

  datatype SmsRun = SmsRun(reply: Reply, call: Option<SmsCall>, metric: Option<string>)

  /** The reply once `process_sms_client_response` has answered. */
  function SmsReply(processed: (Json, Json)): (r: Reply)
    ensures Truthy(processed.1) ==> r == Rejected(400, processed.1)
    ensures !Truthy(processed.1) ==> r == Succeeded(processed.0)
  {
    if Truthy(processed.1) then Rejected(400, processed.1) else Succeeded(processed.0)
  }

  /** `process_mmg_response` on the raw request body. */
  function MmgResponse(data: string, x: SmsCollaborators): (run: SmsRun)
    ensures run.metric.None?
    // malformed JSON is not caught in this view
    ensures x.loads(data).None? ==> run == SmsRun(Unhandled("ValueError"), None, None)
    // the required fields are checked before anything is processed
    ensures x.loads(data).Some? && x.validate(x.loads(data).value, ["status", "CID"], "MMG") != [] ==>
              run == SmsRun(Rejected(400, Strings(x.validate(x.loads(data).value, ["status", "CID"], "MMG"))), None, None)
    // a dict that passes validation is processed: its status as a string, its reference as it came
    ensures x.loads(data).Some? && x.loads(data).value.JObject?
            && x.validate(x.loads(data).value, ["status", "CID"], "MMG") == [] ==>
              run.call == Some(SmsCall(JString(PyStr(GetOrNull(x.loads(data).value, "status"))),
                                       GetOrNull(x.loads(data).value, "CID"), "MMG"))
    // a decoded value that is not a dict has no `.get`
    ensures x.loads(data).Some? && !x.loads(data).value.JObject?
            && x.validate(x.loads(data).value, ["status", "CID"], "MMG") == [] ==>
              run == SmsRun(Unhandled("AttributeError"), None, None)
    // the only call made is that one, and its outcome is the reply
    ensures run.call.Some? ==>
              && x.loads(data).Some? && x.loads(data).value.JObject?
              && x.validate(x.loads(data).value, ["status", "CID"], "MMG") == []
              && run.call.value == SmsCall(JString(PyStr(GetOrNull(x.loads(data).value, "status"))),
                                           GetOrNull(x.loads(data).value, "CID"), "MMG")
              && run.reply == SmsReply(x.processSms(run.call.value.status, run.call.value.reference, "MMG"))
  {
    match x.loads(data)
    case None => SmsRun(Unhandled("ValueError"), None, None)
    case Some(d) =>
      var errors := x.validate(d, ["status", "CID"], "MMG");
      if errors != [] then SmsRun(Rejected(400, Strings(errors)), None, None)
      else if !d.JObject? then SmsRun(Unhandled("AttributeError"), None, None)   // `data.get` on a non-dict
      else
        var call := SmsCall(JString(PyStr(GetOrNull(d, "status"))), GetOrNull(d, "CID"), "MMG");
        SmsRun(SmsReply(x.processSms(call.status, call.reference, call.clientName)), Some(call), None)
  }

  /** `request.form` as the dict `validate_callback_data` receives. */
  function FormJson(form: map<string, string>): (j: Json)
    ensures j.JObject? && j.fields.Keys == form.Keys
    ensures forall k :: k in form ==> j.fields[k] == JString(form[k])
  {
    JObject(map k | k in form :: JString(form[k]))
  }

  /** `request.form.get(key)`. */
  function FormGet(form: map<string, string>, key: string): (v: Json)
    ensures key in form ==> v == JString(form[key])
    ensures key !in form ==> v == JNull
  {
    if key in form then JString(form[key]) else JNull
  }

  /** The Firetext counter: the extended error code, or `None` when the form has none. */
  function FiretextCodeMetric(form: map<string, string>): (m: string)
    ensures "code" in form ==> m == "notifications.callback.firetext.code." + form["code"]
    ensures "code" !in form ==> m == "notifications.callback.firetext.code.None"
  {
    "notifications.callback.firetext.code." + PyStr(FormGet(form, "code"))
  }

  /** `process_firetext_response` on the posted form. */
  function FiretextResponse(form: map<string, string>, x: SmsCollaborators): (run: SmsRun)
    // the required fields are checked before anything is counted or processed
    ensures x.validate(FormJson(form), ["status", "reference"], "Firetext") != [] ==>
              run == SmsRun(Rejected(400, Strings(x.validate(FormJson(form), ["status", "reference"], "Firetext"))),
                            None, None)
    // otherwise the code is counted and the form's status and reference are processed
    ensures x.validate(FormJson(form), ["status", "reference"], "Firetext") == [] ==>
              && run.metric == Some(FiretextCodeMetric(form))
              && run.call == Some(SmsCall(FormGet(form, "status"), FormGet(form, "reference"), "Firetext"))
              && run.reply == SmsReply(x.processSms(FormGet(form, "status"), FormGet(form, "reference"), "Firetext"))
  {
    var errors := x.validate(FormJson(form), ["status", "reference"], "Firetext");
    if errors != [] then SmsRun(Rejected(400, Strings(errors)), None, None)
    else
      var call := SmsCall(FormGet(form, "status"), FormGet(form, "reference"), "Firetext");
      SmsRun(SmsReply(x.processSms(call.status, call.reference, call.clientName)), Some(call),
             Some(FiretextCodeMetric(form)))
  }

  function OptionToSeq<T>(o: Option<T>): (s: seq<T>)
    ensures o.None? ==> s == []
    ensures o.Some? ==> s == [o.value]
  {
    if o.Some? then [o.value] else []
  }

  /** The calls the callback views make outside themselves. */
  class CallbackEffects {
    /** `update_notification_status_by_reference` calls, oldest first. */
    var updates: seq<UpdateCall>
    /** `process_sms_client_response` calls, oldest first. */
    var smsCalls: seq<SmsCall>
    /** `statsd_client.incr` counters, oldest first. */
    var metrics: seq<string>

    constructor ()
      ensures updates == [] && smsCalls == [] && metrics == []
    {
      updates := [];
      smsCalls := [];
      metrics := [];
    }

    /** `process_ses_response`. */
    method ProcessSesResponse(data: string, cfg: Config, x: SesCollaborators) returns (reply: Reply)
      modifies this
      ensures var run := SesResponse(data, cfg, x);
              && reply == run.reply
              && updates == old(updates) + OptionToSeq(run.update)
              && metrics == old(metrics) + OptionToSeq(run.metric)
              && smsCalls == old(smsCalls)
    {
      var parsed := x.loads(data);
      if parsed.None? {
        return Rejected(400, SesInvalidJson);
      }
      var sesRequest := parsed.value;
      var errors := x.validate(sesRequest, ["Message"], "SES");
      if errors != [] {
        return Rejected(400, Strings(errors));
      }
      var m := Index(sesRequest, "Message");
      if m.Raised? {
        return Unhandled(m.exception);
      }
      if !m.value.JString? {
        return Unhandled("TypeError");
      }
      parsed := x.loads(m.value.s);
      if parsed.None? {
        return Rejected(400, SesInvalidJson);
      }
      var sesMessage := parsed.value;
      errors := x.validate(sesMessage, ["notificationType"], "SES");
      if errors != [] {
        return Rejected(400, Strings(errors));
      }
      var t := Index(sesMessage, "notificationType");
      if t.Raised? {
        return Unhandled(t.exception);
      }
      var notificationType := t.value;
      if notificationType == JString("Bounce") {
        var bounceType := Index2(sesMessage, "bounce", "bounceType");
        if bounceType.Raised? {
          return Unhandled(bounceType.exception);
        }
        if bounceType.value == JString("Permanent") {
          notificationType := bounceType.value;
        } else {
          notificationType := JString("Temporary");
        }
      }
      var awsResponse := x.awsResponses(notificationType);
      if awsResponse.None? {
        return Rejected(400, SesStatusNotFound(notificationType));
      }
      assert LookupKey(sesMessage, t.value) == Success(notificationType);
      reply := DeliverSes(sesMessage, awsResponse.value, cfg, x);
    }

    /** Lines 74-112 of `process_ses_response`: the sender check, the update and the counter. */
    method DeliverSes(sesMessage: Json, awsResponse: AwsResponse, cfg: Config, x: SesCollaborators) returns (reply: Reply)
      modifies this
      ensures var run := SesDeliver(sesMessage, awsResponse, cfg, x);
              && reply == run.reply
              && updates == old(updates) + OptionToSeq(run.update)
              && metrics == old(metrics) + OptionToSeq(run.metric)
              && smsCalls == old(smsCalls)
    {
      var notificationStatus := awsResponse.notificationStatus;
      var notificationStatisticsStatus := awsResponse.notificationStatisticsStatus;
      var source := Index2(sesMessage, "mail", "source");
      if source.Raised? {
        return if source.exception == "KeyError" then Rejected(400, SesMessageIdMissing) else Unhandled(source.exception);
      }
      if IsNotANotification(source.value, cfg) {
        return Succeeded(SesSucceeded);
      }
      var reference := Index2(sesMessage, "mail", "messageId");
      if reference.Raised? {
        // `mail` held a `source`, so it is a dict and only the key can be missing
        return Rejected(400, SesMessageIdMissing);
      }
      updates := updates + [UpdateCall(reference.value, notificationStatus, notificationStatisticsStatus)];
      if !x.updateByReference(reference.value, notificationStatus, notificationStatisticsStatus) {
        return Rejected(404, SesNotUpdated(notificationStatus));
      }
      metrics := metrics + ["notifications.callback.ses." + notificationStatisticsStatus];
      reply := Succeeded(SesSucceeded);
    }

    /** `process_mmg_response`. */
    method ProcessMmgResponse(data: string, x: SmsCollaborators) returns (reply: Reply)
      modifies this
      ensures var run := MmgResponse(data, x);
              && reply == run.reply
              && smsCalls == old(smsCalls) + OptionToSeq(run.call)
              && updates == old(updates) && metrics == old(metrics)
    {
      var parsed := x.loads(data);
      if parsed.None? {
        return Unhandled("ValueError");
      }
      var d := parsed.value;
      var errors := x.validate(d, ["status", "CID"], "MMG");
      if errors != [] {
        return Rejected(400, Strings(errors));
      }
      if !d.JObject? {
        return Unhandled("AttributeError");
      }
      var status := JString(PyStr(GetOrNull(d, "status")));
      var reference := GetOrNull(d, "CID");
      smsCalls := smsCalls + [SmsCall(status, reference, "MMG")];
      reply := SmsReply(x.processSms(status, reference, "MMG"));
    }

    /** `process_firetext_response`. */
    method ProcessFiretextResponse(form: map<string, string>, x: SmsCollaborators) returns (reply: Reply)
      modifies this
      ensures var run := FiretextResponse(form, x);
              && reply == run.reply
              && smsCalls == old(smsCalls) + OptionToSeq(run.call)
              && metrics == old(metrics) + OptionToSeq(run.metric)
              && updates == old(updates)
    {
      var errors := x.validate(FormJson(form), ["status", "reference"], "Firetext");
      if errors != [] {
        return Rejected(400, Strings(errors));
      }
      var responseCode := FormGet(form, "code");
      var status := FormGet(form, "status");
      metrics := metrics + ["notifications.callback.firetext.code." + PyStr(responseCode)];
      smsCalls := smsCalls + [SmsCall(status, FormGet(form, "reference"), "Firetext")];
      reply := SmsReply(x.processSms(status, FormGet(form, "reference"), "Firetext"));
    }
  }

  // ---------------------------------------------------------------------------
  // send_notification

  datatype User = User(mobileNumber: string, emailAddress: string)

  /** The service row the view reads. */
  datatype Service = Service(messageLimit: int, restricted: bool, users: seq<User>)

  /** The day's statistics row for the service. */
  datatype DailyStats = DailyStats(smsRequested: int, emailsRequested: int)

  /** The authenticated API key (`api_user`). */
  datatype ApiUser = ApiUser(id: string, serviceId: string, keyType: string)

  /** The template row the templates DAO returns. */
  datatype TemplateRow = TemplateRow(id: Json, archived: bool, version: int)

  /** What `Template(...)` computes from the row and the personalisation. */
  datatype Rendering = Rendering(
    templateType: string,
    missingData: seq<string>,
    additionalData: seq<string>,
    replacedContentCount: int,
    replaced: string,
    replacedSubject: string)

  /** A marshmallow `load`: the data and the errors. */
  datatype Loaded = Loaded(data: map<string, Json>, errors: Json)

  datatype SendCollaborators = SendCollaborators(
    loadPayload: (string, Json) -> Loaded,        // the sms or email notification schema
    templateById: (Json, string) -> Option<TemplateRow>, // None is the DAO's NoResultFound
    archivedErrors: bool -> Json,                // `unarchived_template_schema.validate`
    render: (TemplateRow, Json) -> Rendering,
    allowedToSendTo: (Json, seq<string>) -> bool,
    firstColumnHeading: string -> string)

  /** An `apply_async` of `send_sms` / `send_email`; the encryption and timestamp are not modelled. */
  datatype QueuedTask = QueuedTask(
    task: string,
    serviceId: string,
    notificationId: string,
    notification: map<string, Json>,
    apiKeyId: string,
    keyType: string,
    queue: string)

  datatype SendRun = SendRun(reply: Reply, queued: Option<QueuedTask>, metric: Option<string>)

  /** The team's recipients: each user's mobile number, then email address, user by user. */
  function TeamRecipients(users: seq<User>): (r: seq<string>)
    ensures |r| == 2 * |users|
    ensures forall i :: 0 <= i < |users| ==> r[2 * i] == users[i].mobileNumber && r[2 * i + 1] == users[i].emailAddress
  {
    if users == [] then []
    else
      var rest := TeamRecipients(users[1..]);
      assert forall i :: 1 <= i < |users| ==> rest[2 * (i - 1)] == users[i].mobileNumber;
      [users[0].mobileNumber, users[0].emailAddress] + rest
  }

  /** `get_notification_return_data`. */
  function NotificationReturnData(notificationId: string, notification: map<string, Json>, template: Rendering): (r: Json)
    requires "template_version" in notification
    ensures r.JObject?
    ensures "subject" in r.fields <==> template.templateType == "email"
    ensures r.fields.Keys == {"body", "template_version", "notification"}
                             + (if template.templateType == "email" then {"subject"} else {})
    ensures r.fields["body"] == JString(template.replaced)
    ensures r.fields["template_version"] == notification["template_version"]
    ensures r.fields["notification"] == JObject(map["id" := JString(notificationId)])
    ensures "subject" in r.fields ==> r.fields["subject"] == JString(template.replacedSubject)
  {
    var output := map[
      "body" := JString(template.replaced),
      "template_version" := notification["template_version"],
      "notification" := JObject(map["id" := JString(notificationId)])
    ];
    if template.templateType == "email" then JObject(output["subject" := JString(template.replacedSubject)])
    else JObject(output)
  }

  function ExceededLimit(limit: int): Json
  {
    JString("Exceeded send limits (" + IntToString(limit) + ") for today")
  }

  function SendReject(status: int, message: Json): SendRun
  {
    SendRun(Rejected(status, message), None, None)
  }

  /** The day's count has reached the limit. */
  predicate OverDailyLimit(service: Service, stats: Option<DailyStats>)
  {
    stats.Some? && stats.value.emailsRequested + stats.value.smsRequested >= service.messageLimit
  }

  /** The recipient check applies: a restricted service, or a team key. */
  predicate RecipientChecked(service: Service, user: ApiUser, cfg: Config)
  {
    service.restricted || user.keyType == cfg.keyTypeTeam
  }

  /** The payload loads without errors on a served channel below the daily limit. */
  predicate PayloadAccepted(notificationType: string, body: Json, service: Service, stats: Option<DailyStats>,
                            x: SendCollaborators)
  {
    && notificationType in {"sms", "email"}
    && !OverDailyLimit(service, stats)
    && !Truthy(x.loadPayload(notificationType, body).errors)
  }

  /** The template row the loaded payload names, if it has one and the DAO finds it. */
  function TemplateOf(data: map<string, Json>, user: ApiUser, x: SendCollaborators): Option<TemplateRow>
  {
    if "template" in data then x.templateById(data["template"], user.serviceId) else None
  }

  /** `notification.get('personalisation', {})`. */
  function Personalisation(data: map<string, Json>): Json
  {
    if "personalisation" in data then data["personalisation"] else JObject(map[])
  }

  /** The checks after the template is rendered (lines 249-276), first failure first. */
  function RenderedChecks(notificationType: string, data: map<string, Json>, rendering: Rendering,
                          service: Service, user: ApiUser, cfg: Config, x: SendCollaborators): (r: Option<Reply>)
    ensures rendering.missingData != [] ==>
              r == Some(Rejected(400, FieldError("template", "Missing personalisation: " + Join(rendering.missingData))))
    ensures rendering.missingData == [] && rendering.additionalData != [] ==>
              r == Some(Rejected(400, FieldError("template", "Personalisation not needed for template: "
                                                             + Join(rendering.additionalData))))
    ensures rendering.missingData == [] && rendering.additionalData == []
            && rendering.templateType == "sms" && rendering.replacedContentCount > cfg.smsCharCountLimit ==>
              r == Some(Rejected(400, FieldError("content", "Content has a character count greater than the limit of "
                                                            + IntToString(cfg.smsCharCountLimit))))
    ensures r.None? <==>
              && rendering.missingData == [] && rendering.additionalData == []
              && !(rendering.templateType == "sms" && rendering.replacedContentCount > cfg.smsCharCountLimit)
              && (RecipientChecked(service, user, cfg) ==>
                    "to" in data && x.allowedToSendTo(data["to"], TeamRecipients(service.users)))
    // a restricted service or a team key may send only to the team: a missing `to` raises,
    // a recipient outside the team is refused
    ensures rendering.missingData == [] && rendering.additionalData == []
            && !(rendering.templateType == "sms" && rendering.replacedContentCount > cfg.smsCharCountLimit)
            && RecipientChecked(service, user, cfg) ==>
              r == (if "to" !in data then Some(Unhandled("KeyError"))
                    else if !x.allowedToSendTo(data["to"], TeamRecipients(service.users)) then
                      Some(Rejected(400, FieldError("to", "Invalid " + x.firstColumnHeading(notificationType)
                                                          + " for restricted service")))
                    else None)
    ensures r.Some? && r.value.Rejected? ==> r.value.status == 400
  {
    if rendering.missingData != [] then
      Some(Rejected(400, FieldError("template", "Missing personalisation: " + Join(rendering.missingData))))
    else if rendering.additionalData != [] then
      Some(Rejected(400, FieldError("template", "Personalisation not needed for template: " + Join(rendering.additionalData))))
    else if rendering.templateType == "sms" && rendering.replacedContentCount > cfg.smsCharCountLimit then
      Some(Rejected(400, FieldError("content", "Content has a character count greater than the limit of "
                                               + IntToString(cfg.smsCharCountLimit))))
    else if RecipientChecked(service, user, cfg) then
      if "to" !in data then Some(Unhandled("KeyError"))
      else if !x.allowedToSendTo(data["to"], TeamRecipients(service.users)) then
        Some(Rejected(400, FieldError("to", "Invalid " + x.firstColumnHeading(notificationType)
                                            + " for restricted service")))
      else None
    else None
  }

  /** The task queued for an accepted notification. */
  function Queue(notificationType: string, user: ApiUser, notificationId: string,
                 notification: map<string, Json>): (q: QueuedTask)
    // each channel's task goes to the queue of that channel; any other type takes the email branch
    ensures notificationType in {"sms", "email"} ==> q.queue == notificationType
    ensures notificationType != "sms" ==> q.queue == "email"
    ensures q.task == "send_" + q.queue
    // the task carries the notification and the key that sent it
    ensures q.notificationId == notificationId && q.notification == notification
    ensures q.serviceId == user.serviceId && q.apiKeyId == user.id && q.keyType == user.keyType
  {
    if notificationType == "sms" then
      QueuedTask("send_sms", user.serviceId, notificationId, notification, user.id, user.keyType, "sms")
    else
      QueuedTask("send_email", user.serviceId, notificationId, notification, user.id, user.keyType, "email")
  }

  /** `send_notification`: the checks in order, then the queued task, the counter and the 201 reply. */
  function SendNotification(notificationType: string, body: Json, user: ApiUser, service: Service,
                            stats: Option<DailyStats>, notificationId: string, cfg: Config,
                            x: SendCollaborators): (run: SendRun)
    // only the two channels are served
    ensures notificationType !in {"sms", "email"} ==> run == SendRun(Unhandled("AssertionError"), None, None)
    // the daily limit comes before the payload is even loaded
    ensures notificationType in {"sms", "email"} && OverDailyLimit(service, stats) ==>
              run == SendReject(429, ExceededLimit(service.messageLimit))
    // then the payload's own errors
    ensures notificationType in {"sms", "email"} && !OverDailyLimit(service, stats)
            && Truthy(x.loadPayload(notificationType, body).errors) ==>
              run == SendReject(400, x.loadPayload(notificationType, body).errors)
    // a loaded payload without `template` raises, and so does a template the DAO cannot find
    ensures PayloadAccepted(notificationType, body, service, stats, x) ==>
              var data := x.loadPayload(notificationType, body).data;
              && ("template" !in data ==> run == SendRun(Unhandled("KeyError"), None, None))
              && ("template" in data && x.templateById(data["template"], user.serviceId).None? ==>
                    run == SendRun(Unhandled("NoResultFound"), None, None))
    // an archived template is refused with the schema's errors
    ensures PayloadAccepted(notificationType, body, service, stats, x)
            && TemplateOf(x.loadPayload(notificationType, body).data, user, x).Some?
            && Truthy(x.archivedErrors(TemplateOf(x.loadPayload(notificationType, body).data, user, x).value.archived)) ==>
              run == SendReject(400, x.archivedErrors(TemplateOf(x.loadPayload(notificationType, body).data, user, x)
                                                        .value.archived))
    // past the template checks, the first failing rendered check is the reply; with none, the 201
    ensures PayloadAccepted(notificationType, body, service, stats, x)
            && TemplateOf(x.loadPayload(notificationType, body).data, user, x).Some?
            && !Truthy(x.archivedErrors(TemplateOf(x.loadPayload(notificationType, body).data, user, x).value.archived)) ==>
              var data := x.loadPayload(notificationType, body).data;
              var template := TemplateOf(data, user, x).value;
              var checked := RenderedChecks(notificationType, data, x.render(template, Personalisation(data)),
                                            service, user, cfg, x);
              && (checked.Some? ==> run == SendRun(checked.value, None, None))
              && (checked.None? ==> run.reply.Created?)
    // a task is queued and counted exactly when the reply is 201
    ensures run.queued.Some? <==> run.reply.Created?
    ensures run.metric.Some? <==> run.reply.Created?
    // an accepted notification passed every check and is queued on its channel with the template version
    ensures run.reply.Created? ==>
              var loaded := x.loadPayload(notificationType, body);
              && notificationType in {"sms", "email"}
              && !OverDailyLimit(service, stats)
              && !Truthy(loaded.errors)
              && "template" in loaded.data
              && x.templateById(loaded.data["template"], user.serviceId).Some?
              && var template := x.templateById(loaded.data["template"], user.serviceId).value;
                 var personalisation := Personalisation(loaded.data);
                 var rendering := x.render(template, personalisation);
                 && !Truthy(x.archivedErrors(template.archived))
                 && RenderedChecks(notificationType, loaded.data, rendering, service, user, cfg, x).None?
                 && run.queued == Some(Queue(notificationType, user, notificationId,
                                             loaded.data["template_version" := JInt(template.version)]))
                 && run.queued.value.queue == notificationType
                 && run.metric == Some("notifications.api." + notificationType)
                 && run.reply.data == JObject(map["data" := NotificationReturnData(notificationId,
                                              loaded.data["template_version" := JInt(template.version)], rendering)])
  {
    if notificationType !in ["sms", "email"] then SendRun(Unhandled("AssertionError"), None, None)
    else if OverDailyLimit(service, stats) then SendReject(429, ExceededLimit(service.messageLimit))
    else
      var loaded := x.loadPayload(notificationType, body);
      if Truthy(loaded.errors) then SendReject(400, loaded.errors)
      else if "template" !in loaded.data then SendRun(Unhandled("KeyError"), None, None)
      else
        match x.templateById(loaded.data["template"], user.serviceId)
        case None => SendRun(Unhandled("NoResultFound"), None, None)
        case Some(template) =>
          if Truthy(x.archivedErrors(template.archived)) then SendReject(400, x.archivedErrors(template.archived))
          else
            var personalisation := Personalisation(loaded.data);
            var rendering := x.render(template, personalisation);
            match RenderedChecks(notificationType, loaded.data, rendering, service, user, cfg, x)
            case Some(reply) => SendRun(reply, None, None)
            case None =>
              var notification := loaded.data["template_version" := JInt(template.version)];
              SendRun(Created(JObject(map["data" := NotificationReturnData(notificationId, notification, rendering)])),
                      Some(Queue(notificationType, user, notificationId, notification)),
                      Some("notifications.api." + notificationType))
  }

  /** Once the day's limit is reached, the request body makes no difference. */
  lemma {:induction false} DailyLimitIgnoresPayload(notificationType: string, body1: Json, body2: Json, user: ApiUser,
                                                    service: Service, stats: Option<DailyStats>,
                                                    notificationId: string, cfg: Config, x: SendCollaborators)
    requires OverDailyLimit(service, stats)
    ensures SendNotification(notificationType, body1, user, service, stats, notificationId, cfg, x)
            == SendNotification(notificationType, body2, user, service, stats, notificationId, cfg, x)
  {
  }

  /** The calls `send_notification` makes outside itself. */
  class ApiEffects {
    /** `send_sms` / `send_email` tasks queued, oldest first. */
    var queued: seq<QueuedTask>
    /** `statsd_client.incr` counters, oldest first. */
    var metrics: seq<string>

    constructor ()
      ensures queued == [] && metrics == []
    {
      queued := [];
      metrics := [];
    }

    /** `send_notification`; the loaded notification dict is updated in place before it is queued. */
    method SendNotificationRequest(notificationType: string, body: Json, user: ApiUser, service: Service,
                                   stats: Option<DailyStats>, notificationId: string, cfg: Config,
                                   x: SendCollaborators) returns (reply: Reply)
      modifies this
      ensures var run := SendNotification(notificationType, body, user, service, stats, notificationId, cfg, x);
              && reply == run.reply
              && queued == old(queued) + OptionToSeq(run.queued)
              && metrics == old(metrics) + OptionToSeq(run.metric)
    {
      if notificationType !in ["sms", "email"] {
        return Unhandled("AssertionError");
      }
      if stats.Some? {
        var totalSmsCount := stats.value.smsRequested;
        var totalEmailCount := stats.value.emailsRequested;
        if totalEmailCount + totalSmsCount >= service.messageLimit {
          return Rejected(429, ExceededLimit(service.messageLimit));
        }
      }
      var loaded := x.loadPayload(notificationType, body);
      var notification := loaded.data;
      if Truthy(loaded.errors) {
        return Rejected(400, loaded.errors);
      }
      if "template" !in notification {
        return Unhandled("KeyError");
      }
      var found := x.templateById(notification["template"], user.serviceId);
      if found.None? {
        return Unhandled("NoResultFound");
      }
      var template := found.value;
      var errors := x.archivedErrors(template.archived);
      if Truthy(errors) {
        return Rejected(400, errors);
      }
      var personalisation := Personalisation(notification);
      var templateObject := x.render(template, personalisation);
      var failed := RenderedChecks(notificationType, notification, templateObject, service, user, cfg, x);
      if failed.Some? {
        return failed.value;
      }
      notification := notification["template_version" := JInt(template.version)];
      queued := queued + [Queue(notificationType, user, notificationId, notification)];
      metrics := metrics + ["notifications.api." + notificationType];
      reply := Created(JObject(map["data" := NotificationReturnData(notificationId, notification, templateObject)]));
    }
  }
}
