/** When the proxier counts as healthy (healthcheck/proxier_health.go), over every history of updates. */
module Health {

  datatype Family = IPv4 | IPv6

  /** The calls a server receives, with the time of each. */
  datatype Call = Queued(family: Family, at: int) | Updated(family: Family, at: int)

  // ---- Specification, over the history of calls ----

  /** The family has been updated at least once. */
  ghost predicate EverUpdated(calls: seq<Call>, f: Family) {
    exists i :: 0 <= i < |calls| && calls[i].Updated? && calls[i].family == f
  }

  /** A change queued at time `t` is the oldest one no update has followed. */
  ghost predicate OldestPending(calls: seq<Call>, f: Family, i: int) {
    && 0 <= i < |calls| && calls[i] == Queued(f, calls[i].at)
    && (forall j :: i < j < |calls| ==> !(calls[j].Updated? && calls[j].family == f))
    && (forall j :: 0 <= j < i && calls[j] == Queued(f, calls[j].at) ==>
          exists k :: j < k < i && calls[k].Updated? && calls[k].family == f)
  }

  /** Some family that was in service has had a change waiting for at least the timeout. */
  ghost predicate Late(calls: seq<Call>, timeout: int, now: int) {
    exists f, i :: EverUpdated(calls, f) && OldestPending(calls, f, i) && now - calls[i].at >= timeout
  }

  ghost predicate Reflects(last: map<Family, int>, oldest: map<Family, int>, calls: seq<Call>) {
    && (forall f :: f in last <==> EverUpdated(calls, f))
    && (forall f :: f in oldest <==> exists i :: OldestPending(calls, f, i))
    && (forall f, i :: f in oldest && OldestPending(calls, f, i) ==> oldest[f] == calls[i].at)
  }

  lemma EverUpdatedSnoc(calls: seq<Call>, c: Call, f: Family)
    ensures EverUpdated(calls + [c], f) <==> EverUpdated(calls, f) || (c.Updated? && c.family == f)
  {
    var after := calls + [c];
    if i :| 0 <= i < |calls| && calls[i].Updated? && calls[i].family == f {
      assert after[i] == calls[i];
    }
    if c.Updated? && c.family == f {
      assert after[|calls|] == c;
    }
  }

  lemma {:induction false} NonePending(calls: seq<Call>, f: Family, n: nat)
    requires n <= |calls| && forall i :: !OldestPending(calls, f, i)
    requires forall j :: n <= j < |calls| ==>
               !(calls[j].Updated? && calls[j].family == f) && calls[j] != Queued(f, calls[j].at)
    ensures forall j :: 0 <= j < n && calls[j] == Queued(f, calls[j].at) ==>
              exists k :: j < k < n && calls[k].Updated? && calls[k].family == f
  {
    if j :| && 0 <= j < n && calls[j] == Queued(f, calls[j].at)
            && !exists k :: j < k < n && calls[k].Updated? && calls[k].family == f
    {
      FirstPending(calls, f, j);
    }
  }

  /** A queued change that nothing followed leads to an oldest one. */
  lemma {:induction false} FirstPending(calls: seq<Call>, f: Family, j: nat)
    requires j < |calls| && calls[j] == Queued(f, calls[j].at)
    requires forall k :: j < k < |calls| ==> !(calls[k].Updated? && calls[k].family == f)
    ensures exists i :: OldestPending(calls, f, i)
    decreases j
  {
    if !OldestPending(calls, f, j) {
      var i :|
        && 0 <= i < j && calls[i] == Queued(f, calls[i].at)
        && forall k :: i < k < j ==> !(calls[k].Updated? && calls[k].family == f);
      FirstPending(calls, f, i);
    }
  }

  /** An update of the family leaves nothing pending. */
  lemma PendingAfterUpdate(calls: seq<Call>, f: Family, at: int, i: int)
    ensures !OldestPending(calls + [Updated(f, at)], f, i)
  {
    assert (calls + [Updated(f, at)])[|calls|] == Updated(f, at);
  }

  /** Calls for another family, and further queued changes, leave the oldest one as it is. */
  lemma PendingKept(calls: seq<Call>, c: Call, f: Family, i: int)
    requires !(c.Updated? && c.family == f) && 0 <= i < |calls|
    ensures OldestPending(calls + [c], f, i) <==> OldestPending(calls, f, i)
  {
    var after := calls + [c];
    assert forall j :: 0 <= j < |calls| ==> after[j] == calls[j];
    assert after[|calls|] == c;
  }

  /** The new call itself is the oldest pending one exactly if it queues and nothing was pending. */
  lemma PendingNew(calls: seq<Call>, c: Call, f: Family)
    ensures OldestPending(calls + [c], f, |calls|) <==> c == Queued(f, c.at) && forall i :: !OldestPending(calls, f, i)
  {
    var after := calls + [c];
    assert forall j :: 0 <= j < |calls| ==> after[j] == calls[j];
    assert after[|calls|] == c;
    if c == Queued(f, c.at) && forall i :: !OldestPending(calls, f, i) {
      NonePending(calls, f, |calls|);
      forall j | 0 <= j < |calls| && after[j] == Queued(f, after[j].at)
        ensures exists k :: j < k < |calls| && after[k].Updated? && after[k].family == f
      {
        var k :| j < k < |calls| && calls[k].Updated? && calls[k].family == f;
        assert after[k] == calls[k];
      }
    }
    if OldestPending(after, f, |calls|) {
      forall i
        ensures !OldestPending(calls, f, i)
      {
        if 0 <= i < |calls| && calls[i] == Queued(f, calls[i].at) {
          var k :| i < k < |calls| && after[k].Updated? && after[k].family == f;
          assert calls[k] == after[k];
        }
      }
    }
  }

  lemma UpdatedStep(last: map<Family, int>, oldest: map<Family, int>, calls: seq<Call>, f: Family, at: int)
    requires Reflects(last, oldest, calls)
    ensures Reflects(last[f := at], oldest - {f}, calls + [Updated(f, at)])
  {
    var c := Updated(f, at);
    forall g
      ensures g in last[f := at] <==> EverUpdated(calls + [c], g)
    {
      EverUpdatedSnoc(calls, c, g);
    }
    forall g, i
      ensures OldestPending(calls + [c], g, i) <==> g != f && OldestPending(calls, g, i)
    {
      PendingAfterUpdate(calls, f, at, i);
      if g != f {
        PendingNew(calls, c, g);
        if 0 <= i < |calls| {
          PendingKept(calls, c, g, i);
        }
      }
    }
    hide OldestPending, EverUpdated;
    assert forall i :: 0 <= i < |calls| ==> (calls + [c])[i] == calls[i];
    PendingInRange(calls);
  }

  lemma PendingInRange(calls: seq<Call>)
    ensures forall f, i :: OldestPending(calls, f, i) ==> 0 <= i < |calls|
  {
  }

  lemma QueuedStep(last: map<Family, int>, oldest: map<Family, int>, calls: seq<Call>, f: Family, at: int)
    requires Reflects(last, oldest, calls)
    ensures Reflects(last, if f in oldest then oldest else oldest[f := at], calls + [Queued(f, at)])
  {
    var c := Queued(f, at);
    forall g
      ensures g in last <==> EverUpdated(calls + [c], g)
    {
      EverUpdatedSnoc(calls, c, g);
    }
    forall g, i
      ensures OldestPending(calls + [c], g, i) <==>
                OldestPending(calls, g, i) || (i == |calls| && g == f && f !in oldest)
    {
      PendingNew(calls, c, g);
      if 0 <= i < |calls| {
        PendingKept(calls, c, g, i);
      }
    }
    hide OldestPending, EverUpdated;
    assert forall i :: 0 <= i < |calls| ==> (calls + [c])[i] == calls[i];
    assert (calls + [c])[|calls|] == c;
    assert f !in oldest ==> OldestPending(calls + [c], f, |calls|);
    PendingInRange(calls);
  }

  class ProxierHealthServer {
    const timeout: int
    var lastUpdated: map<Family, int>
    var oldestPendingQueued: map<Family, int>
    ghost var calls: seq<Call>

    ghost predicate Valid()
      reads this
    {
      Reflects(lastUpdated, oldestPendingQueued, calls)
    }

    constructor (timeout: int)
      ensures Valid() && calls == [] && this.timeout == timeout
    {
      this.timeout := timeout;
      lastUpdated, oldestPendingQueued, calls := map[], map[], [];
    }

    method Update(f: Family, now: int)
      requires Valid()
      modifies this
      ensures Valid() && calls == old(calls) + [Updated(f, now)]
    {
      hide Reflects;
      UpdatedStep(lastUpdated, oldestPendingQueued, calls, f, now);
      oldestPendingQueued := oldestPendingQueued - {f};
      lastUpdated := lastUpdated[f := now];
      calls := calls + [Updated(f, now)];
    }

    method QueuedUpdate(f: Family, now: int)
      requires Valid()
      modifies this
      ensures Valid() && calls == old(calls) + [Queued(f, now)]
    {
      hide Reflects;
      QueuedStep(lastUpdated, oldestPendingQueued, calls, f, now);
      if f !in oldestPendingQueued {
        oldestPendingQueued := oldestPendingQueued[f := now];
      }
      calls := calls + [Queued(f, now)];
    }

    /** Unhealthy exactly when a family that was once in service is late. */
    method IsHealthy(now: int) returns (healthy: bool)
      requires Valid()
      ensures healthy <==> !Late(calls, timeout, now)
    {
      var rest := lastUpdated.Keys;
      hide OldestPending, EverUpdated;
      while rest != {}
        invariant rest <= lastUpdated.Keys
        invariant forall f :: f in lastUpdated && f !in rest && f in oldestPendingQueued ==>
                    now - oldestPendingQueued[f] < timeout
      {
        var f :| f in rest;
        rest := rest - {f};
        if f in oldestPendingQueued && now - oldestPendingQueued[f] >= timeout {
          ghost var i :| OldestPending(calls, f, i);
          assert EverUpdated(calls, f);
          return false;
        }
      }
      return true;
    }
  }
}
