/** Outbound deliveries and their retry policy. */
module OutboundDelivery {
  import opened Sequences

  datatype Status = Queued | Sent | Failed | RetryScheduled | Cancelled

  datatype Record = Record(
    status: Status, attemptCount: nat, maxAttempts: nat,
    retryAfter: Option<string>, lastError: Option<string>, providerMessageId: Option<string>)

  datatype Policy = Policy(maxAttempts: nat, backoff: seq<string>)

  datatype Update = MarkSent(id: Option<string>) | RecordFailure(error: string) | MarkCancelled(reason: string)

  function QueuedWith(maxAttempts: nat): Record {
    Record(Queued, 0, maxAttempts, None, None, None)
  }

  /** The object, whose methods update its fields. */
  class Delivery {
    var record: Record

    constructor (maxAttempts: nat)
      ensures record == QueuedWith(maxAttempts)
    {
      record := Record(Queued, 0, maxAttempts, None, None, None);
    }

    method MarkSent(id: Option<string>)
      modifies this
      ensures record == After(old(record), Policy(0, []), Update.MarkSent(id))
    {
      record := record.(status := Sent);
      record := record.(attemptCount := record.attemptCount + 1);
      record := record.(retryAfter := None);
      record := record.(lastError := None);
      record := record.(providerMessageId := id);
    }

    method MarkCancelled(reason: string)
      modifies this
      ensures record == After(old(record), Policy(0, []), Update.MarkCancelled(reason))
    {
      record := record.(status := Cancelled);
      record := record.(retryAfter := None);
      record := record.(lastError := Some(reason));
    }

    method RecordFailure(policy: Policy, error: string)
      modifies this
      ensures record == After(old(record), policy, Update.RecordFailure(error))
    {
      record := record.(attemptCount := record.attemptCount + 1);
      record := record.(lastError := Some(error));
      var limit := if record.maxAttempts <= policy.maxAttempts then record.maxAttempts else policy.maxAttempts;
      if record.attemptCount >= limit {
        record := record.(status := Failed);
        record := record.(retryAfter := None);
      } else {
        record := record.(status := RetryScheduled);
        var index := record.attemptCount - 1;
        var entry := None;
        if index < |policy.backoff| {
          entry := Some(policy.backoff[index]);
        } else if policy.backoff != [] {
          entry := Some(policy.backoff[|policy.backoff| - 1]);
        }
        record := record.(retryAfter := entry);
      }
    }
  }

  /** The schedule entry for the given number of attempts: past the end, the last entry repeats. */
  function Backoff(policy: Policy, attempts: nat): Option<string>
    requires attempts >= 1
  {
    if policy.backoff == [] then None else Some(policy.backoff[Min(attempts - 1, |policy.backoff| - 1)])
  }

  function After(r: Record, policy: Policy, u: Update): Record {
    match u
    case MarkSent(id) => Record(Sent, r.attemptCount + 1, r.maxAttempts, None, None, id)
    case MarkCancelled(reason) => r.(status := Cancelled, retryAfter := None, lastError := Some(reason))
    case RecordFailure(error) =>
      var n := r.attemptCount + 1;
      var retry := n < Min(r.maxAttempts, policy.maxAttempts);
      r.(attemptCount := n, lastError := Some(error),
         status := if retry then RetryScheduled else Failed,
         retryAfter := if retry then Backoff(policy, n) else None)
  }

  function AfterAll(r: Record, policy: Policy, updates: seq<Update>): Record {
    if updates == [] then r else After(AfterAll(r, policy, updates[..|updates| - 1]), policy, updates[|updates| - 1])
  }

  function AttemptIn(): Update -> bool {
    (u: Update) => !u.MarkCancelled?
  }

  /** After any sequence of updates of a queued delivery under one policy: the attempt count is the number of
      sends and failures; the status is that of the last update; a failure leaves the delivery scheduled
      exactly while attempts remain under both limits, with the schedule entry for that attempt. */
  lemma {:induction false} RetryMachine(maxAttempts: nat, policy: Policy, updates: seq<Update>)
    ensures var r := AfterAll(QueuedWith(maxAttempts), policy, updates);
            && r.maxAttempts == maxAttempts
            && r.attemptCount == |Keep(updates, AttemptIn())|
            && (r.status == Queued <==> updates == [])
            && (r.status == RetryScheduled ==>
                  && 1 <= r.attemptCount < Min(maxAttempts, policy.maxAttempts)
                  && r.retryAfter ==
                     if policy.backoff == [] then None
                     else if r.attemptCount <= |policy.backoff| then Some(policy.backoff[r.attemptCount - 1])
                     else Some(policy.backoff[|policy.backoff| - 1]))
            && (r.status == Failed ==> r.attemptCount >= Min(maxAttempts, policy.maxAttempts))
            && (r.status != RetryScheduled ==> r.retryAfter == None)
            && (updates == [] ==> r.lastError == None && r.providerMessageId == None)
            && (updates != [] && !updates[|updates| - 1].MarkSent? ==>
                  r.providerMessageId ==
                  AfterAll(QueuedWith(maxAttempts), policy, updates[..|updates| - 1]).providerMessageId)
            && (updates != [] ==>
                  match updates[|updates| - 1]
                  case MarkSent(id) => r.status == Sent && r.providerMessageId == id && r.lastError == None
                  case MarkCancelled(reason) => r.status == Cancelled && r.lastError == Some(reason)
                  case RecordFailure(error) =>
                    && r.lastError == Some(error)
                    && r.status ==
                       if r.attemptCount < Min(maxAttempts, policy.maxAttempts) then RetryScheduled else Failed)
  {
    if updates != [] {
      RetryMachine(maxAttempts, policy, updates[..|updates| - 1]);
    }
  }

  /** No status is final: a cancelled delivery that is attempted again and fails is scheduled again exactly when
      attempts remain. */
  lemma {:induction false} CancelledIsRevivedIff(
      maxAttempts: nat, policy: Policy, before: seq<Update>, reason: string, error: string)
    ensures var updates := before + [MarkCancelled(reason), RecordFailure(error)];
            AfterAll(QueuedWith(maxAttempts), policy, updates).status == RetryScheduled <==>
            |Keep(before, AttemptIn())| + 1 < Min(maxAttempts, policy.maxAttempts)
  {
    var updates := before + [MarkCancelled(reason), RecordFailure(error)];
    assert updates == before + [MarkCancelled(reason)] + [RecordFailure(error)];
    RetryMachine(maxAttempts, policy, updates);
    KeepSnoc(before, MarkCancelled(reason), AttemptIn());
    KeepSnoc(before + [MarkCancelled(reason)], RecordFailure(error), AttemptIn());
  }

  /** A failed delivery stays failed under every further failure, so only a send or a cancellation ends it. */
  lemma {:induction false} FailedStaysFailedIff(maxAttempts: nat, policy: Policy, before: seq<Update>, u: Update)
    requires AfterAll(QueuedWith(maxAttempts), policy, before).status == Failed
    ensures AfterAll(QueuedWith(maxAttempts), policy, before + [u]).status == Failed <==> u.RecordFailure?
  {
    RetryMachine(maxAttempts, policy, before);
    RetryMachine(maxAttempts, policy, before + [u]);
    KeepSnoc(before, u, AttemptIn());
  }
}
