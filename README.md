# notification-api decision procedures, in Dafny

This project models six pieces of the notification-api service, a Flask and
Celery application that sends SMS and email notifications. Each piece is a
small decision procedure around the delivery pipeline:

- **Celery failure handling** (`error_handling.dfy`). The `handle_exceptions(retry_on, fail_on)`
  wrapper decides for each task run:
  - whether the task is retried on the retry queue;
  - whether the notification is marked `technical-failure` and a terminal fault is raised;
  - or whether the exception propagates unchanged.
- **MPI client** (`mpi.dfy`). The Master Person Index client:
  - formats FHIR identifiers;
  - classifies request failures as retryable or non-retryable;
  - checks response bodies for errors and deceased beneficiaries;
  - extracts the single active VA Profile ID, with the statsd counters it bumps on the way.
- **Notifications blueprint** (`notifications_rest.dfy`):
  - the SES, MMG and Firetext delivery-receipt callbacks;
  - the internal-sender test;
  - the ordered checks of `send_notification`;
  - the shape of its 201 reply.
- **API authentication** (`auth.dfy`):
  - bearer-header parsing with a case-insensitive scheme;
  - choosing the API key that verifies the JWT, with its revoked, expired, no-keys and archived refusals;
  - the admin-client check;
  - the v2 rendering of `AuthError`.
- **Service-callback DAO** (`service_callback_api_dao.dfy`). The callback table is a sequence of rows with unique ids. The model covers:
  - the in-place save, reset, store and delete operations;
  - the lookups by service, by callback type and by delivery status.
- **Service-sender request schemas** (`service_senders_schema.dfy`). The four JSON Schema draft-04
  request schemas run through a small validator. That validator covers `type` (section 5.5.2 of
  draft-fge-json-schema-validation-00), `minimum` (5.1.3), `required` (5.4.3), `properties` and
  `format`. Each schema is characterised field by field.

`common.dfy` holds the shared pieces:

- `Option` and `Result`;
- a JSON value type with Python's truthiness;
- `dict[key]`, which raises `KeyError` on a dict and `TypeError` on anything else;
- `dict.get`;
- `str()` on scalars.

Every call into code outside these files is a parameter of the model. This covers the JWT
library, the DAOs, `json.loads`, `validate_callback_data`, `get_aws_responses`,
`process_sms_client_response`, template rendering, `allowed_to_send_to`, `requests.get` and the
`IdentifierType` enum lookup. The state a view or task changes outside itself is recorded as a
call log in a class:

- queued Celery tasks;
- status updates;
- retry calls;
- statsd counters;
- Flask's `g` and request-context fields.

Each class method is proved equal to a specification function. The properties are proved about
those functions.

## Model

| member | source | states |
|---|---|---|
| ErrorHandling.FaultMessage | app/celery/error_handling.py:22-23 | The fault message contains the task name at position 9 and the notification id right after " failed for notification ". |
| ErrorHandling.InnerEscape | app/celery/error_handling.py:15-19 | The exception leaving the inner `try`: none when the task returns; the task's own exception when it is not retry-class; whatever `retry()` raised when it is. |
| ErrorHandling.Handle | app/celery/error_handling.py:9-25 | A returned task causes no retry, no status write and returns None. Retry happens exactly for retry-class exceptions. The status is written exactly when the technical-failure fault is raised, and the fault message is `FaultMessage`. A task exception that is not retry-class but is fail-class or `MaxRetriesExceededError` fails the notification. An exception in both sets is retried first. After a retry, `retry()` returning ends the run with None and no status write. An exception `retry()` raises fails the notification exactly when it is fail-class or `MaxRetriesExceededError`, and otherwise propagates with no status write. A technical failure happens only for a fail-class exception leaving the inner `try`, and None is returned exactly when the task or `retry()` returned. An exception in neither set propagates unchanged with no side effect. A propagated exception is the task's or `retry()`'s own. |
| ErrorHandling.TaskEffects.Wrapper | app/celery/error_handling.py:11-25 | One run appends exactly one `RETRY` queue call when `Handle` retries, and exactly one `(notification_id, technical-failure)` status update when it fails the notification. It ends as `Handle` says. |
| Mpi.FhirSuffix | app/va/mpi/mpi.py:18-23 | The four mapped identifier types each have a caret-led suffix; an unlisted member has none. |
| Mpi.TransformToFhirFormat | app/va/mpi/mpi.py:32-41 | For a mapped type the result is `(id_value + suffix, type, id_value)`. An unknown type value gives `UnsupportedIdentifier(NoSuchType)` and an unmapped member gives `UnsupportedIdentifier(NoMapping)`, and success happens exactly when neither applies. |
| Mpi.BeforeCaret | app/va/mpi/mpi.py:91 | `split('^')[0]` is the longest caret-free prefix: it contains no `^` and is followed by `^` or the end. |
| Mpi.ActiveVaProfileIds | app/va/mpi/mpi.py:90-92 | The comprehension yields one caret-free id per value ending in `^PI^200VETS^USDVA^A`, each the text before the first caret of such a value. |
| Mpi.GetActiveVaProfileId | app/va/mpi/mpi.py:89-101 | Zero active values give `IdentifierNotFound` and more than one give `MultipleActiveVaProfileIds`, both ways round. Exactly one gives that value's text before its first caret. |
| Mpi.BeforeCaretOfSuffixed | app/va/mpi/mpi.py:91 | A caret-free value followed by a caret-led suffix splits back to the value. |
| Mpi.FhirRoundTrip | app/va/mpi/mpi.py:32-101 | Round trip: for a caret-free VA Profile ID `v`, extracting from `[fhir(v) + "^A"]` returns `v`. |
| Mpi.ClassifyRequestFailure | app/va/mpi/mpi.py:70-80 | A failure is retryable exactly when it is a non-HTTP request exception or its status is in {429, 500, 502, 503, 504}; otherwise it is non-retryable. |
| Mpi.ErrorDetailsFaultIff | app/va/mpi/mpi.py:105-109 | Building the severity message raises nothing exactly when the body has `details.text` and a non-empty `details.coding` list whose first entry has a `code`. |
| Mpi.CheckResponse | app/va/mpi/mpi.py:103-116 | A body that is not a dict fails on `.get` (AttributeError). A truthy `severity` is checked first and gives the non-retryable error, or the `KeyError`, `TypeError` or `IndexError` raised while its message is built. Otherwise a truthy `deceasedDateTime` gives `BeneficiaryDeceased`, and a body with neither passes. |
| Mpi.MakeRequest | app/va/mpi/mpi.py:61-84 | A transport failure gives its classification and its `clients.mpi.error.<status>` or `request_exception` counter. A response gives its body exactly when the body check passes; otherwise it gives that check's error with its counter. A 2xx body that `response.json()` cannot decode raises `JSONDecodeError` in the `else:` block, outside the classification, with no counter. |
| Mpi.IdentifierValues | app/va/mpi/mpi.py:91-92 | Succeeds exactly when every identifier is a dict with a string `value`, and then yields those strings in order. Otherwise it fails with the exception of the first identifier that has none: `KeyError` for a dict without `value`, `TypeError` for a non-dict, `AttributeError` (no `endswith`) for a non-string value. |
| Mpi.ResponseIdentifiers | app/va/mpi/mpi.py:55-92 | `response_json['identifier']` raises as subscripting does. An empty list, dict or string iterates to no values, so the extraction then reports `IdentifierNotFound` with its counter. A list gives the values of its identifiers. A non-empty dict or string (whose keys or characters cannot be subscripted by `'value'`) and a number, boolean or null all give `TypeError`. |
| Mpi.MpiClient.InitApp | app/va/mpi/mpi.py:25-30 | The URL and certificate paths are stored; no counter changes. |
| Mpi.MpiClient.RequestFor | app/va/mpi/mpi.py:64-68 | The request goes to `<base_url>/psim_webservice/fhir/Patient/<fhir>` with sender `200ENTF`. |
| Mpi.MpiClient.GetVaProfileId | app/va/mpi/mpi.py:43-59 | Anything but exactly one recipient identifier fails before any request, with its counter. Otherwise the steps run in order: transform, request, identifier list, extraction. Each step's error is returned with exactly the counters that step bumps, and a returned ID contains no caret. |
| Authentication.AuthError.ToDictV2 | app/authentication/auth.py:18-27 | The v2 body has exactly `status_code` (the code) and `errors`, a single `{"error": "AuthError", "message": short_message}` entry. |
| Authentication.AuthErrorRenderings | app/authentication/auth.py:12-27 | `AuthError(m, c)` stores `{"token": [m]}` and code `c`, and its v2 rendering carries `m`. |
| Authentication.TitleIsBearerIff | app/authentication/auth.py:35-37 | `s.title() == 'Bearer '` exactly when `s` lower-cased is `'bearer '`: the scheme check is case-insensitive. |
| Authentication.GetAuthToken | app/authentication/auth.py:30-40 | A missing or empty header gives the 401 token-required error. The call succeeds exactly when the first 7 characters are `bearer ` in any case, and the header is then those 7 characters followed by the returned token. Any other non-empty header gives the 401 "bearer scheme must be used" error. Every failure is a 401. |
| Authentication.BearerRoundTrip | app/authentication/auth.py:35-40 | Round trip: `Authorization: <any-case Bearer >t` yields `t`. |
| Authentication.GetDecodeErrors | app/authentication/auth.py:125-129 | An expired token is refused with the 403 "expired" error. A decode error passes to the caller, and only a decoded token verifies. |
| Authentication.HandleAdminKey | app/authentication/auth.py:117-122 | The admin key is accepted exactly when the token decodes with the admin secret. A decode failure is the 403 signature error and expiry is the 403 expired error. |
| Authentication.GetTokenIssuer | app/authentication/auth.py:107-114 | The issuer, or the 403 "iss field not provided" error, or the 403 signature error. |
| Authentication.ScanKeys | app/authentication/auth.py:88-104 | The first key that does not fail to decode decides, and every earlier key failed to decode. It is usable when unexpired, revoked when it has an expiry date, and aborts when the token is expired. No match happens exactly when every key fails to decode. |
| Authentication.ServiceForToken | app/authentication/auth.py:72-86 | Header errors come first, then issuer errors, then the service lookup. A service with no keys is refused as such even when archived. A `DataError` gives "not the right data type", `NoResultFound` gives "service not found", and a found service with keys that is not active gives "service is archived", all 403. A found, active service with keys is the result, and a success is always one. |
| Authentication.RequestContext.RequiresAuth | app/authentication/auth.py:71-104 | The result is the `ScanKeys` outcome. A usable key sets `g.service_id` to its service id and sets the request's service and API user. Every refusal leaves the context untouched. |
| Authentication.RequestContext.RequiresAdminAuth | app/authentication/auth.py:60-68 | An issuer other than the admin client gives 401 and changes nothing. The admin client sets `g.service_id` and then answers as `HandleAdminKey` with the admin secret. |
| ServiceCallbackApiDao.GetServiceCallbacks | app/dao/service_callback_api_dao.py:38-39 | Exactly the service's rows. |
| ServiceCallbackApiDao.GetServiceCallback | app/dao/service_callback_api_dao.py:45-46 | The row with that id, or None exactly when there is none. |
| ServiceCallbackApiDao.WithServiceAndId | app/dao/service_callback_api_dao.py:50 | Exactly the rows matching both service and id; at most one when ids are unique. |
| ServiceCallbackApiDao.QueryServiceCallback | app/dao/service_callback_api_dao.py:49-50 | `.one()` gives `NoResultFound` exactly when no row matches both. A returned row matches both, and with unique ids `MultipleResultsFound` never happens. |
| ServiceCallbackApiDao.GetDeliveryStatusCallback | app/dao/service_callback_api_dao.py:53-58 | Either a row of that service, of type delivery-status, whose statuses contain the status, or None exactly when no such row exists. |
| ServiceCallbackApiDao.GetComplaintCallback | app/dao/service_callback_api_dao.py:61-65 | Either a complaint row of the service, or None exactly when none exists. |
| ServiceCallbackApiDao.GetInboundSmsCallback | app/dao/service_callback_api_dao.py:68-72 | Either an inbound-SMS row of the service, or None exactly when none exists. |
| ServiceCallbackApiDao.ComplaintLookupIgnoresStatuses | app/dao/service_callback_api_dao.py:61-65 | Changing a row's notification statuses never changes whether a complaint callback is found. |
| ServiceCallbackApiDao.Reset | app/dao/service_callback_api_dao.py:20-26 | `url` and `bearer_token` change only to a truthy new value; `updated_by_id` and `updated_at` are always set; no other field changes. |
| ServiceCallbackApiDao.ResetIdempotent | app/dao/service_callback_api_dao.py:20-26 | Resetting twice with the same arguments equals resetting once. |
| ServiceCallbackApiDao.ServiceCallbackTable.Save | app/dao/service_callback_api_dao.py:10-15 | The row gets the fresh id and `created_at` and is appended; the ids stay unique, and the row is found by its new id. |
| ServiceCallbackApiDao.ServiceCallbackTable.ResetServiceCallback | app/dao/service_callback_api_dao.py:18-28 | Only the row with that id changes, and it becomes `Reset` of itself; the ids stay unique. |
| ServiceCallbackApiDao.ServiceCallbackTable.Store | app/dao/service_callback_api_dao.py:31-35 | Only that row's `updated_at` changes. |
| ServiceCallbackApiDao.ServiceCallbackTable.Delete | app/dao/service_callback_api_dao.py:75-77 | The row is gone, every other row stays in order and unchanged, and the ids stay unique. |
| ServiceSendersSchema.LeafSchemas | app/service/service_senders_schema.py:36-40 | `is_default` must be a boolean. A rate limit is null or an integer of at least 1: null passes because `minimum` constrains numbers only. `sms_sender_specifics` is an object or null. |
| ServiceSendersSchema.ValidEmailReplyTo | app/service/service_senders_schema.py:3-13 | Valid exactly when the request is an object with a string `email_address` accepted by the `email_address` format and a boolean `is_default`. |
| ServiceSendersSchema.ValidLetterContactBlock | app/service/service_senders_schema.py:16-26 | Valid exactly when the request is an object with a string `contact_block` and a boolean `is_default`. |
| ServiceSendersSchema.AddSmsSenderProperties | app/service/service_senders_schema.py:33-40 | The five listed properties, each checked only when present. |
| ServiceSendersSchema.ValidAddSmsSender | app/service/service_senders_schema.py:29-42 | Valid exactly when the request has a string `sms_sender` and a boolean `is_default`. An `inbound_number_id`, if present, must be a uuid, and `rate_limit` and `rate_limit_interval`, if present, must be null or at least 1. |
| ServiceSendersSchema.UpdateSmsSenderProperties | app/service/service_senders_schema.py:50-57 | The six listed properties of the update schema, each checked only when present: a string sender, an object-or-null `sms_sender_specifics`, a boolean `is_default`, null-or-at-least-1 rate limits and a uuid `inbound_number_id`. |
| ServiceSendersSchema.ValidUpdateSmsSender | app/service/service_senders_schema.py:45-58 | Valid exactly when the request is an object whose present fields have the listed types; no field is required. |
| ServiceSendersSchema.UnlistedKeysAccepted | app/service/service_senders_schema.py:3-58 | Adding a key none of the schemas lists never makes a valid request invalid: there is no `additionalProperties`. |
| ServiceSendersSchema.EmptyUpdateValid | app/service/service_senders_schema.py:45-58 | `{}` is a valid update request. |
| NotificationsRest.IsNotANotification | app/notifications/rest.py:119-128 | True exactly when the source is the verify-code sender or `INVITATION_EMAIL_FROM@NOTIFY_EMAIL_DOMAIN`. |
| NotificationsRest.LookupKey | app/notifications/rest.py:62-67 | A permanent bounce is looked up as `Permanent` and any other bounce as `Temporary`. Every other type is looked up unchanged. A bounce without `bounce.bounceType` raises. |
| NotificationsRest.SesResponse | app/notifications/rest.py:49-116 | Malformed JSON and validation errors give 400 with no update, both for the outer body and for the inner `Message`. Once the status is found, a `mail` without `source`, or an outside sender's `mail` without `messageId`, gives 400 "messageId missing"; a `mail` that is not a dict raises `TypeError` uncaught. A message without `notificationType`, or a bounce without `bounce.bounceType`, raises uncaught with no update. Any update uses the status pair of a response-table entry. A counter is bumped only on a 200 after an update. A 404 follows an update whose result was falsy. A 400 never follows an update. |
| NotificationsRest.StatusNotFoundBeforeSender | app/notifications/rest.py:68-85 | A key missing from the response table gives 400 "status … not found" before the sender is looked at, even for internal senders. |
| NotificationsRest.InternalSenderNotUpdated | app/notifications/rest.py:77-85 | A callback about an internal sender returns 200 with no update and no counter. |
| NotificationsRest.DeliveredRegardlessOfSuccessFlag | app/notifications/rest.py:87-108 | The update is made by `messageId` with the entry's statuses. A truthy result gives 200 and the `notifications.callback.ses.<status>` counter, whatever `success` says; a falsy result gives 404. |
| NotificationsRest.CallbackEffects.ProcessSesResponse | app/notifications/rest.py:49-116 | The handler, step by step, makes exactly the update and the counter of `SesResponse` and returns its reply. |
| NotificationsRest.CallbackEffects.DeliverSes | app/notifications/rest.py:74-112 | The part guarded by `except KeyError` makes exactly the update and counter of its specification. |
| NotificationsRest.SmsReply | app/notifications/rest.py:144-147 | Truthy errors from `process_sms_client_response` give 400 with those errors; otherwise the reply is 200 with its success message. |
| NotificationsRest.MmgResponse | app/notifications/rest.py:132-147 | Malformed JSON is not caught. Validation errors for `status` and `CID` give 400 before any processing. A valid dict is processed, with the string form of `status` and the `CID`, and that call's outcome is the reply; a valid value that is not a dict raises `AttributeError`. No other call is made. |
| NotificationsRest.FiretextCodeMetric | app/notifications/rest.py:159-161 | The counter names the form's `code`, or `None` when the form has none. |
| NotificationsRest.FiretextResponse | app/notifications/rest.py:151-170 | Validation errors for `status` and `reference` give 400 with no counter and no processing. Otherwise the code counter is bumped and the form's status and reference are processed. |
| NotificationsRest.CallbackEffects.ProcessMmgResponse | app/notifications/rest.py:132-147 | Exactly the processing call of `MmgResponse`; no update and no counter. |
| NotificationsRest.CallbackEffects.ProcessFiretextResponse | app/notifications/rest.py:151-170 | Exactly the counter and processing call of `FiretextResponse`. |
| NotificationsRest.TeamRecipients | app/notifications/rest.py:270-272 | The chained recipients are each user's mobile number then email address, in user order, twice as many as the users. |
| NotificationsRest.NotificationReturnData | app/notifications/rest.py:318-328 | `subject` is present exactly when the template is an email. Otherwise the keys are `body`, `template_version` and `notification`, holding the rendered body, the notification's version and `{"id": …}`. |
| NotificationsRest.RenderedChecks | app/notifications/rest.py:249-276 | The checks come first failure first: missing personalisation, then extra personalisation, then SMS over the character limit, then the recipient check for a restricted service or a team key. That check raises `KeyError` when `to` is missing and gives 400 "Invalid <column heading> for restricted service" for a recipient outside the team. All pass exactly when none applies. |
| NotificationsRest.Queue | app/notifications/rest.py:280-307 | An sms or email notification goes to the queue named after its channel, and any other type takes the email branch. The task is `send_` followed by the queue name. The task carries the service id, the notification id, the notification dict, and the key's id and type. |
| NotificationsRest.SendNotification | app/notifications/rest.py:208-315 | A type other than sms or email is refused. The daily limit (`sms + emails >= message_limit`) is checked before the payload, then the payload errors. A payload without `template`, or a template the DAO cannot find, raises. An archived template gives 400 with the schema's errors. After that, the first failing rendered check is the reply, and a request passing them all gets the 201. A task is queued and counted exactly on a 201. An accepted request passed every check and is queued on its channel with the template version added. |
| NotificationsRest.DailyLimitIgnoresPayload | app/notifications/rest.py:220-230 | Once the limit is reached, the request body makes no difference to the outcome. |
| NotificationsRest.ApiEffects.SendNotificationRequest | app/notifications/rest.py:208-315 | The view, with the notification dict updated in place, queues exactly the task and bumps exactly the counter of `SendNotification`, and returns its reply. |

## Left out

- `NotificationTechnicalFailureException` and Celery's `Retry` are exception values: the model
  does not render them.
- Celery's retry budget and how `retry()` decides to raise `MaxRetriesExceededError` are outside
  the shown code. What `retry()` does is an input.
- `update_notification_status_by_id` and `update_notification_status_by_reference` are recorded
  as calls, not as a status store. How the notifications DAO stores a status is not part of
  this model.
- `TaskEffects.Wrapper` records which notification the wrapper marks failed, not the resulting status map.
- The values of the `IdentifierType` enum (`app/va/__init__.py`) are not part of this model. The
  lookup `IdentifierType(value)` is a parameter.
- The `clients.mpi.request-time` timing metric and the logger calls are left out: they are wall-clock and log output.
- The exception messages of the MPI client are not modelled, only their classes.
- `Title` implements `str.title()` for ASCII letters only; Unicode case mapping is not modelled.
- Flask header lookup is case-insensitive; the model reads the `Authorization` key exactly.
- JWT decoding, the issuer lookup and the service fetch are parameters (`notifications_python_client`).
- `requires_no_auth` is left out because it does nothing (`pass`), and `restrict_ip_sms`
  because it only logs.
- `@transactional`, `@version_class` and the SQLAlchemy session are left out: there is no
  rollback and no history table. The timestamps and `create_uuid()` are parameters.
- `.first()` returns the first match in table order. The lookups' contracts promise only some
  matching row or none, because the database does not fix an order.
- The `email_address` format checker and the shared `uuid` definition are parameters
  (`Checkers`). JSON floats are not modelled, so `number` and `integer` coincide.
- The `$schema`, `description` and `title` keywords are annotations and are left out.
- Marshmallow schemas, `Template`, `allowed_to_send_to`, `first_column_heading` and the templates DAO are parameters.
- The value of `KEY_TYPE_TEAM` is defined in `app/models.py`, which is not part of this model. It is a configuration value (`Config.keyTypeTeam`).
- `send_notification` takes `SMS_TYPE` as `"sms"`: the view's own `['sms', 'email']` list and
  `first_column_heading` both use that value.
- The encryption of the queued notification, the `created_at` timestamp passed to the task, and `datetime.today()` for the day's statistics are left out.
- `InvalidRequest` is a rejection with a status code and a message. Its JSON rendering
  (`register_errors`) is not part of this model. The model assumes `InvalidRequest` derives from
  neither `KeyError` nor `ValueError`, so the view's own `except` clauses do not catch it.
- An uncaught exception is reported by its class (`Unhandled`). The HTTP status Flask then sends is not modelled.
- `str()` of a JSON list or object is a fixed placeholder. It appears only in the SES "status … not found" message and in MMG's stringified status.
- `get_notifications`, `get_all_notifications` and `get_notification_statistics_for_day` are
  left out. They pass DAO results through marshmallow schemas and make no decision of their own.
- The `logger.info` calls of the SES and Firetext handlers, including the one logging a false `success` entry, are left out.
