/**
 * The service-callback table: the rows that configure where a service's
 * delivery-status, complaint and inbound-SMS callbacks are sent, the in-place
 * updates the DAO makes to a row, and its lookups.
 *
 * The table is the sequence of rows in storage order; a row is identified by
 * its id. `create_uuid()` and `datetime.utcnow()` are parameters.
 */
module ServiceCallbackApiDao {
  import opened Wrappers

  datatype CallbackType = DeliveryStatus | Complaint | InboundSms

  datatype ServiceCallback = ServiceCallback(
    id: string,
    serviceId: string,
    callbackType: CallbackType,
    url: string,
    bearerToken: string,
    notificationStatuses: seq<string>,
    updatedById: string,
    createdAt: Option<string>,
    updatedAt: Option<string>)

  /** No two rows share an id (the id is the primary key). */
  predicate UniqueIds(rows: seq<ServiceCallback>)
  {
    forall i, j :: 0 <= i < j < |rows| ==> rows[i].id != rows[j].id
  }

  predicate HasId(rows: seq<ServiceCallback>, id: string)
  {
    exists i :: 0 <= i < |rows| && rows[i].id == id
  }

  /** The position of the row with the given id. */
  function IndexOf(rows: seq<ServiceCallback>, id: string): (i: nat)
    requires HasId(rows, id)
    ensures i < |rows| && rows[i].id == id
    ensures forall j :: 0 <= j < i ==> rows[j].id != id
  {
    if rows[0].id == id then 0 else IndexOf(rows[1..], id) + 1
  }

  // ---------------------------------------------------------------------------
  // Lookups

  /** `get_service_callbacks`: the service's rows, in table order. */
  function GetServiceCallbacks(rows: seq<ServiceCallback>, serviceId: string): (r: seq<ServiceCallback>)
    ensures forall c :: c in r <==> c in rows && c.serviceId == serviceId
    ensures |r| <= |rows|
  {
    if rows == [] then []
    else
      var rest := GetServiceCallbacks(rows[1..], serviceId);
      if rows[0].serviceId == serviceId then [rows[0]] + rest else rest
  }

  /** `get_service_callback`: the row with that primary key, if any. */
  function GetServiceCallback(rows: seq<ServiceCallback>, id: string): (r: Option<ServiceCallback>)
    ensures r.None? <==> !HasId(rows, id)
    ensures r.Some? ==> r.value in rows && r.value.id == id
  {
    if HasId(rows, id) then Some(rows[IndexOf(rows, id)]) else None
  }

  /** The rows of a service with a given id. */
  function WithServiceAndId(rows: seq<ServiceCallback>, serviceId: string, id: string): (r: seq<ServiceCallback>)
    ensures forall c :: c in r <==> c in rows && c.serviceId == serviceId && c.id == id
    ensures UniqueIds(rows) ==> |r| <= 1
  {
    if rows == [] then []
    else
      var rest := WithServiceAndId(rows[1..], serviceId, id);
      assert UniqueIds(rows) ==> UniqueIds(rows[1..]);
      if rows[0].serviceId == serviceId && rows[0].id == id then
        assert UniqueIds(rows) ==> forall k :: 1 <= k < |rows| ==> rows[k].id != id;
        assert UniqueIds(rows) ==> forall c :: c in rest ==> false;
        assert |rest| == 0 || rest[0] in rest;
        [rows[0]] + rest
      else rest
  }

  datatype QueryError = NoResultFound | MultipleResultsFound

  /** `query_service_callback`: `.one()` of the rows matching both service and id. */
  function QueryServiceCallback(rows: seq<ServiceCallback>, serviceId: string, id: string)
    : (r: Result<ServiceCallback, QueryError>)
    ensures r == Failure(NoResultFound) <==> !exists c :: c in rows && c.serviceId == serviceId && c.id == id
    ensures r.Success? ==> r.value in rows && r.value.serviceId == serviceId && r.value.id == id
    ensures UniqueIds(rows) ==> r != Failure(MultipleResultsFound)
  {
    var matching := WithServiceAndId(rows, serviceId, id);
    if matching == [] then Failure(NoResultFound)
    else
      assert matching[0] in matching;
      if |matching| > 1 then Failure(MultipleResultsFound)
    else Success(matching[0])
  }

  /** The first row satisfying `p`; the table order stands for the order the database returns. */
  function First(rows: seq<ServiceCallback>, p: ServiceCallback -> bool): (r: Option<ServiceCallback>)
    ensures r.None? <==> forall c :: c in rows ==> !p(c)
    ensures r.Some? ==> r.value in rows && p(r.value)
  {
    if rows == [] then None else if p(rows[0]) then Some(rows[0]) else First(rows[1..], p)
  }

  /** `get_service_delivery_status_callback_api_for_service`. */
  function GetDeliveryStatusCallback(rows: seq<ServiceCallback>, serviceId: string, status: string)
    : (r: Option<ServiceCallback>)
    ensures r.Some? ==>
              && r.value in rows
              && r.value.serviceId == serviceId
              && r.value.callbackType == DeliveryStatus
              && status in r.value.notificationStatuses
    ensures r.None? <==>
              forall c :: c in rows ==>
                !(c.serviceId == serviceId && c.callbackType == DeliveryStatus && status in c.notificationStatuses)
  {
    First(rows, (c: ServiceCallback) => c.serviceId == serviceId && c.callbackType == DeliveryStatus && status in c.notificationStatuses)
  }

  /** `get_service_complaint_callback_api_for_service`. */
  function GetComplaintCallback(rows: seq<ServiceCallback>, serviceId: string): (r: Option<ServiceCallback>)
    ensures r.Some? ==> r.value in rows && r.value.serviceId == serviceId && r.value.callbackType == Complaint
    ensures r.None? <==> forall c :: c in rows ==> !(c.serviceId == serviceId && c.callbackType == Complaint)
  {
    First(rows, (c: ServiceCallback) => c.serviceId == serviceId && c.callbackType == Complaint)
  }

  /** `get_service_inbound_sms_callback_api_for_service`. */
  function GetInboundSmsCallback(rows: seq<ServiceCallback>, serviceId: string): (r: Option<ServiceCallback>)
    ensures r.Some? ==> r.value in rows && r.value.serviceId == serviceId && r.value.callbackType == InboundSms
    ensures r.None? <==> forall c :: c in rows ==> !(c.serviceId == serviceId && c.callbackType == InboundSms)
  {
    First(rows, (c: ServiceCallback) => c.serviceId == serviceId && c.callbackType == InboundSms)
  }

  /** The complaint lookup ignores the notification statuses a row lists. */
  lemma {:induction false} ComplaintLookupIgnoresStatuses(rows: seq<ServiceCallback>, serviceId: string, i: nat,
                                                           statuses: seq<string>)
    requires i < |rows|
    ensures var rows' := rows[i := rows[i].(notificationStatuses := statuses)];
            GetComplaintCallback(rows', serviceId).None? <==> GetComplaintCallback(rows, serviceId).None?
  {
    var rows' := rows[i := rows[i].(notificationStatuses := statuses)];
    var p := (c: ServiceCallback) => c.serviceId == serviceId && c.callbackType == Complaint;
    if GetComplaintCallback(rows, serviceId).Some? {
      var c := GetComplaintCallback(rows, serviceId).value;
      var k :| 0 <= k < |rows| && rows[k] == c;
      assert p(rows'[k]);
      assert rows'[k] in rows';
    }
    if GetComplaintCallback(rows', serviceId).Some? {
      var c := GetComplaintCallback(rows', serviceId).value;
      var k :| 0 <= k < |rows'| && rows'[k] == c;
      assert p(rows[k]);
      assert rows[k] in rows;
    }
  }

  // ---------------------------------------------------------------------------
  // In-place updates

  /** `if value:` on an optional string argument. */
  predicate Given(value: Option<string>)
  {
    value.Some? && value.value != ""
  }

  /** The row `reset_service_callback_api` leaves behind. */
  function Reset(c: ServiceCallback, updatedById: string, url: Option<string>, bearerToken: Option<string>,
                 now: string): (r: ServiceCallback)
    ensures r.url == (if Given(url) then url.value else c.url)
    ensures r.bearerToken == (if Given(bearerToken) then bearerToken.value else c.bearerToken)
    ensures r.updatedById == updatedById && r.updatedAt == Some(now)
    ensures r.(url := c.url, bearerToken := c.bearerToken, updatedById := c.updatedById, updatedAt := c.updatedAt) == c
  {
    var c1 := if Given(url) then c.(url := url.value) else c;
    var c2 := if Given(bearerToken) then c1.(bearerToken := bearerToken.value) else c1;
    c2.(updatedById := updatedById, updatedAt := Some(now))
  }

  /** Resetting twice with the same arguments is the same as resetting once. */
  lemma ResetIdempotent(c: ServiceCallback, updatedById: string, url: Option<string>,
                        bearerToken: Option<string>, now: string)
    ensures var once := Reset(c, updatedById, url, bearerToken, now);
            Reset(once, updatedById, url, bearerToken, now) == once
  {
  }

  /** Removing the row at `i` removes exactly its id and keeps the others unique. */
  lemma {:induction false} RemoveAt(rows: seq<ServiceCallback>, i: nat)
    requires UniqueIds(rows) && i < |rows|
    ensures var rest := rows[..i] + rows[i + 1..];
            && UniqueIds(rest)
            && !HasId(rest, rows[i].id)
            && forall c :: c in rest <==> c in rows && c.id != rows[i].id
  {
    var rest := rows[..i] + rows[i + 1..];
    assert forall k :: 0 <= k < |rest| ==> rest[k] == (if k < i then rows[k] else rows[k + 1]);
    forall c | c in rows && c.id != rows[i].id
      ensures c in rest
    {
      var k :| 0 <= k < |rows| && rows[k] == c;
      if k < i {
        assert rest[k] == c;
      } else {
        assert rest[k - 1] == c;
      }
    }
  }

  /** The table, updated in place by the DAO's save, reset, store and delete. */
  class ServiceCallbackTable {
    var rows: seq<ServiceCallback>

    ghost predicate Valid()
      reads this
    {
      UniqueIds(rows)
    }

    constructor ()
      ensures Valid() && rows == []
    {
      rows := [];
    }

    /** `save_service_callback_api`: a fresh id and creation time, then the row is added. */
    method Save(c: ServiceCallback, newId: string, now: string) returns (saved: ServiceCallback)
      requires Valid()
      requires !HasId(rows, newId)
      modifies this
      ensures Valid()
      ensures saved == c.(id := newId, createdAt := Some(now))
      ensures rows == old(rows) + [saved]
      ensures GetServiceCallback(rows, newId) == Some(saved)
    {
      saved := c.(id := newId, createdAt := Some(now));
      rows := rows + [saved];
      assert rows[|rows| - 1] == saved;
    }

    /** `reset_service_callback_api`: only url, token (when given), updater and update time change. */
    method ResetServiceCallback(id: string, updatedById: string, url: Option<string>,
                                bearerToken: Option<string>, now: string)
      requires Valid()
      requires HasId(rows, id)
      modifies this
      ensures Valid()
      ensures |rows| == |old(rows)|
      ensures rows == old(rows)[IndexOf(old(rows), id) := Reset(old(rows)[IndexOf(old(rows), id)],
                                                                updatedById, url, bearerToken, now)]
    {
      var i := IndexOf(rows, id);
      var c := rows[i];
      if Given(url) {
        c := c.(url := url.value);
      }
      if Given(bearerToken) {
        c := c.(bearerToken := bearerToken.value);
      }
      c := c.(updatedById := updatedById, updatedAt := Some(now));
      rows := rows[i := c];
    }

    /** `store_service_callback_api`: only the update time changes. */
    method Store(id: string, now: string)
      requires Valid()
      requires HasId(rows, id)
      modifies this
      ensures Valid()
      ensures rows == old(rows)[IndexOf(old(rows), id) := old(rows)[IndexOf(old(rows), id)].(updatedAt := Some(now))]
    {
      var i := IndexOf(rows, id);
      rows := rows[i := rows[i].(updatedAt := Some(now))];
    }

    /** `delete_service_callback_api`: the row goes, every other row stays as it was. */
    method Delete(id: string)
      requires Valid()
      requires HasId(rows, id)
      modifies this
      ensures Valid()
      ensures !HasId(rows, id)
      ensures forall c :: c in rows <==> c in old(rows) && c.id != id
      ensures var i := IndexOf(old(rows), id); rows == old(rows)[..i] + old(rows)[i + 1..]
    {
      var i := IndexOf(rows, id);
      RemoveAt(rows, i);
      rows := rows[..i] + rows[i + 1..];
    }
  }
}
