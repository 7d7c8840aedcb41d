/**
 * The retry / technical-failure wrapper that `handle_exceptions(retry_on, fail_on)`
 * puts around a Celery task taking a notification id.
 *
 * The wrapped task and Celery's `task_self.retry` are foreign: what they do is an
 * input (`TaskOutcome`, `RetryOutcome`). What the wrapper itself does to the world
 * is recorded by `TaskEffects`: the `retry` calls it makes and the
 * `update_notification_status_by_id` calls it makes.
 */
module ErrorHandling {
  import opened Wrappers

  type ClassName = string

  /**
   * A raised exception: its class and all classes it inherits from.
   * `except (A, B)` catches it when it is an instance of A or B.
   */
  datatype Exception = Exception(cls: ClassName, bases: set<ClassName>)
  {
    predicate IsInstanceOfAny(classes: set<ClassName>)
    {
      cls in classes || bases * classes != {}
    }
  }

  const MaxRetriesExceededError: ClassName := "MaxRetriesExceededError"
  const NotificationTechnicalFailure: string := "technical-failure"

  /** What the wrapped `task_fn(task_self, notification_id)` did. */
  datatype TaskOutcome = Returned | Raised(e: Exception)

  /**
   * What `task_self.retry(queue=...)` did: Celery raises (its `Retry` signal to
   * reschedule, or `MaxRetriesExceededError` once the budget is spent) or returns.
   */
  datatype RetryOutcome = RetryReturned | RetryRaised(e: Exception)

  /** How the wrapper ends. */
  datatype WrapperOutcome =
    | ReturnedNone
    | Propagated(e: Exception)
    | TechnicalFailure(message: string, cause: Exception)

  /** What the wrapper decides for one run. */
  datatype Handling = Handling(retried: bool, markedFailed: bool, outcome: WrapperOutcome)

  datatype QueueName = RetryQueue

  datatype StatusUpdate = StatusUpdate(notificationId: string, status: string)

  /** `t` occurs in `s` at position `i`. */
  predicate OccursAt(s: string, t: string, i: nat)
  {
    i + |t| <= |s| && s[i..i + |t|] == t
  }

  /** The message of `NotificationTechnicalFailureException`. */
  function FaultMessage(taskName: string, notificationId: string): (m: string)
    ensures OccursAt(m, taskName, 9)
    ensures OccursAt(m, notificationId, 9 + |taskName| + 25)
  {
    var m := "The task " + taskName + " failed for notification " + notificationId
             + ". Notification has been updated to technical-failure";
    assert m[9..9 + |taskName|] == taskName;
    assert m[9 + |taskName| + 25..9 + |taskName| + 25 + |notificationId|] == notificationId;
    m
  }

  /** The exception that leaves the inner `try` (lines 16-19), if any. */
  function InnerEscape(retryOn: set<ClassName>, task: TaskOutcome, retry: RetryOutcome): (r: Option<Exception>)
    ensures task.Returned? ==> r.None?
    ensures task.Raised? && !task.e.IsInstanceOfAny(retryOn) ==> r == Some(task.e)
    ensures task.Raised? && task.e.IsInstanceOfAny(retryOn) ==>
              r == (if retry.RetryRaised? then Some(retry.e) else None)
  {
    match task
    case Returned => None
    case Raised(e) =>
      if e.IsInstanceOfAny(retryOn) then
        (if retry.RetryRaised? then Some(retry.e) else None)
      else Some(e)
  }

  /**
   * The decision of `wrapper` for one run: the inner handler retries, the outer
   * handler turns every fail-class exception (always including
   * `MaxRetriesExceededError`) into a status write plus a technical-failure fault.
   */
  function Handle(retryOn: set<ClassName>, failOn: set<ClassName>, taskName: string,
                  notificationId: string, task: TaskOutcome, retry: RetryOutcome): (h: Handling)
    // a task that returns: nothing is retried, nothing written, None returned
    ensures task.Returned? ==> h == Handling(false, false, ReturnedNone)
    // exactly the retry-class exceptions call retry(), once
    ensures h.retried <==> task.Raised? && task.e.IsInstanceOfAny(retryOn)
    // the status is written exactly when the technical-failure fault is raised
    ensures h.markedFailed <==> h.outcome.TechnicalFailure?
    ensures h.outcome.TechnicalFailure? ==>
              h.outcome.message == FaultMessage(taskName, notificationId)
    // a fail-class exception (or MaxRetriesExceededError) that is not retry-class fails the notification
    ensures task.Raised? && !task.e.IsInstanceOfAny(retryOn)
            && task.e.IsInstanceOfAny(failOn + {MaxRetriesExceededError}) ==>
              h.outcome == TechnicalFailure(FaultMessage(taskName, notificationId), task.e)
    // an exception listed in both sets is retried first
    ensures task.Raised? && task.e.IsInstanceOfAny(retryOn) && task.e.IsInstanceOfAny(failOn) ==>
              h.retried && (retry.RetryReturned? ==> h.outcome == ReturnedNone)
    // retry() reporting exhaustion always ends in a technical failure
    ensures h.retried && retry.RetryRaised? && retry.e.IsInstanceOfAny({MaxRetriesExceededError}) ==>
              h.outcome == TechnicalFailure(FaultMessage(taskName, notificationId), retry.e)
    // an exception in neither set (nor MaxRetriesExceededError) propagates unchanged
    ensures task.Raised? && !task.e.IsInstanceOfAny(retryOn)
            && !task.e.IsInstanceOfAny(failOn + {MaxRetriesExceededError}) ==>
              h == Handling(false, false, Propagated(task.e))
    // the ordinary retry path: retry() returning ends the run quietly, and
    // whatever retry() raises fails the notification exactly when it is fail-class
    ensures h.retried && retry.RetryReturned? ==> h == Handling(true, false, ReturnedNone)
    ensures h.retried && retry.RetryRaised? && !retry.e.IsInstanceOfAny(failOn + {MaxRetriesExceededError}) ==>
              h == Handling(true, false, Propagated(retry.e))
    ensures h.retried && retry.RetryRaised? && retry.e.IsInstanceOfAny(failOn + {MaxRetriesExceededError}) ==>
              h == Handling(true, true, TechnicalFailure(FaultMessage(taskName, notificationId), retry.e))
    // a technical failure happens only for a fail-class exception leaving the inner try
    ensures h.outcome.TechnicalFailure? ==>
              && h.outcome.cause.IsInstanceOfAny(failOn + {MaxRetriesExceededError})
              && InnerEscape(retryOn, task, retry) == Some(h.outcome.cause)
    // the wrapper returns None exactly when the task did, or retry() did after a retry-class exception
    ensures h.outcome == ReturnedNone <==> task.Returned? || (h.retried && retry.RetryReturned?)
    // whatever escapes is either the task's own exception or the one retry() raised
    ensures h.outcome.Propagated? ==>
              (task.Raised? && h.outcome.e == task.e) || (retry.RetryRaised? && h.outcome.e == retry.e)
  {
    var failOnAll := failOn + {MaxRetriesExceededError};
    var retried := task.Raised? && task.e.IsInstanceOfAny(retryOn);
    match InnerEscape(retryOn, task, retry)
    case None => Handling(retried, false, ReturnedNone)
    case Some(e) =>
      if e.IsInstanceOfAny(failOnAll) then
        Handling(retried, true, TechnicalFailure(FaultMessage(taskName, notificationId), e))
      else
        Handling(retried, false, Propagated(e))
  }

  /** The side effects the wrapper has on the world outside the task. */
  class TaskEffects {
    /** `task_self.retry(queue=QueueNames.RETRY)` calls, oldest first. */
    var retryCalls: seq<QueueName>
    /** `update_notification_status_by_id` calls, oldest first. */
    var statusUpdates: seq<StatusUpdate>

    constructor ()
      ensures retryCalls == [] && statusUpdates == []
    {
      retryCalls := [];
      statusUpdates := [];
    }

    /** One run of `wrapper(task_self, notification_id)`. */
    method Wrapper(retryOn: set<ClassName>, failOn: set<ClassName>, taskName: string,
                   notificationId: string, task: TaskOutcome, retry: RetryOutcome)
      returns (outcome: WrapperOutcome)
      modifies this
      ensures var h := Handle(retryOn, failOn, taskName, notificationId, task, retry);
              && outcome == h.outcome
              && retryCalls == old(retryCalls) + (if h.retried then [RetryQueue] else [])
              && statusUpdates == old(statusUpdates)
                   + (if h.markedFailed then [StatusUpdate(notificationId, NotificationTechnicalFailure)] else [])
    {
      var failOnExceptions := failOn + {MaxRetriesExceededError};
      var escaped: Option<Exception> := None;
      match task {
        case Returned =>
        case Raised(e) =>
          if e.IsInstanceOfAny(retryOn) {
            retryCalls := retryCalls + [RetryQueue];
            if retry.RetryRaised? {
              escaped := Some(retry.e);
            }
          } else {
            escaped := Some(e);
          }
      }
      match escaped {
        case None =>
          outcome := ReturnedNone;
        case Some(e) =>
          if e.IsInstanceOfAny(failOnExceptions) {
            var message := FaultMessage(taskName, notificationId);
            statusUpdates := statusUpdates + [StatusUpdate(notificationId, NotificationTechnicalFailure)];
            outcome := TechnicalFailure(message, e);
          } else {
            outcome := Propagated(e);
          }
      }
    }
  }
}
