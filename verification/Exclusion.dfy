/** Mutual exclusion over whole runs: what the log of lock events of any reachable state looks like. */
module Exclusion {
  import opened Text
  import opened Locks
  import opened Protocol

  function Front(log: seq<Event>): seq<Event>
    requires log != []
  {
    log[..|log| - 1]
  }

  function Last(log: seq<Event>): Event
    requires log != []
  {
    log[|log| - 1]
  }

  /** The acquisition that still stands for a slot, expired or not. */
  function Holder(log: seq<Event>, slot: Slot): (r: Option<Event>)
    ensures r.Some? ==> r.value.Locked? && r.value.slot == slot && r.value in log
  {
    if log == [] then None
    else if Last(log).slot != slot then Holder(Front(log), slot)
    else if Last(log).Locked? then Some(Last(log))
    else None
  }

  predicate Issued(log: seq<Event>, token: string) {
    exists k :: 0 <= k < |log| && log[k].Locked? && log[k].token == token
  }

  /** A history of leases: a slot is locked only when nobody stands or the standing lease has run
      out, always with a new token; an unlock names exactly the standing acquisition. */
  predicate LeaseHistory(log: seq<Event>) {
    log == [] ||
    (LeaseHistory(Front(log)) &&
     var before := Holder(Front(log), Last(log).slot);
     match Last(log)
     case Locked(_, token, at, expires) =>
       && at < expires
       && (forall k :: 0 <= k < |Front(log)| && Front(log)[k].Locked? ==> Front(log)[k].at <= at)
       && !Issued(Front(log), token)
       && (before.Some? ==> before.value.expires <= at)
     case Unlocked(_, token) => before.Some? && before.value.token == token
     case Forced(_) => true)
  }

  ghost predicate Standing(s: State, slot: Slot) {
    if slot in s.locks then
      exists at :: Holder(s.log, slot) == Some(Locked(slot, s.locks[slot].token, at, s.locks[slot].expires))
    else Holder(s.log, slot) == None
  }

  ghost predicate LogInv(s: State) {
    && LeaseHistory(s.log)
    && (forall slot :: Standing(s, slot))
    && (forall k :: 0 <= k < |s.log| && s.log[k].Locked? ==> s.log[k].at <= s.now && s.log[k].token in s.home)
  }

  lemma Snoc(log: seq<Event>, e: Event)
    ensures Front(log + [e]) == log && Last(log + [e]) == e
  {
  }

  lemma Appended(s: State, s': State, e: Event)
    requires LogInv(s) && s'.log == s.log + [e] && LeaseHistory(s'.log)
    requires s'.locks - {e.slot} == s.locks - {e.slot}
    requires e.Locked? ==>
               e.slot in s'.locks && s'.locks[e.slot].token == e.token && s'.locks[e.slot].expires == e.expires
    requires !e.Locked? ==> e.slot !in s'.locks
    ensures forall slot :: Standing(s', slot)
  {
    Snoc(s.log, e);
    forall slot
      ensures Standing(s', slot)
    {
      if slot != e.slot {
        assert Standing(s, slot);
        assert slot in s.locks <==> slot in s.locks - {e.slot};
        assert slot in s'.locks <==> slot in s'.locks - {e.slot};
        if slot in s.locks {
          assert (s.locks - {e.slot})[slot] == (s'.locks - {e.slot})[slot];
        }
      }
    }
  }

  lemma BeginLogged(s: State, s': State, ref: Ref, ttl: nat)
    requires LogInv(s) && !Held(s.locks, ref.slot, s.now) && ref.token !in s.home && ttl > 0
    requires s'.locks == s.locks[ref.slot := Lock(ref.scene, ref.token, s.now + ttl)] && s'.now == s.now
    requires s'.home == s.home[ref.token := ref] && s'.log == s.log + [Locked(ref.slot, ref.token, s.now, s.now + ttl)]
    ensures LogInv(s')
  {
    var ev := Locked(ref.slot, ref.token, s.now, s.now + ttl);
    Snoc(s.log, ev);
    assert Standing(s, ref.slot);
    assert !Issued(s.log, ref.token);
    assert s'.locks - {ref.slot} == s.locks - {ref.slot};
    Appended(s, s', ev);
  }

  lemma ReleaseLogged(s: State, ref: Ref, reply: Reply)
    requires LogInv(s)
    ensures LogInv(Release'(s, ref, reply))
  {
    var s' := Release'(s, ref, reply);
    if s'.log != s.log {
      var ev := Unlocked(ref.slot, ref.token);
      Snoc(s.log, ev);
      assert Standing(s, ref.slot);
      Appended(s, s', ev);
    }
  }

  lemma SameLog(s: State, s': State)
    requires LogInv(s) && SameLocks(s, s') && s.now <= s'.now
    ensures LogInv(s')
  {
    forall slot
      ensures Standing(s', slot)
    {
      assert Standing(s, slot);
    }
  }

  lemma BeginLogs(s: State, h: nat, job: Job, ttl: nat, reply: Reply)
    requires LogInv(s) && job.ref.token !in s.home && ttl > 0
    ensures LogInv(Begun(s, h, job, ttl, reply))
  {
    if !reply.Refused? && !Held(s.locks, job.ref.slot, s.now) {
      BeginLogged(s, Begun(s, h, job, ttl, reply), job.ref, ttl);
    }
  }

  lemma UndoLogged(s: State, h: nat, reply: Reply)
    requires LogInv(s) && h in s.handlers
    ensures LogInv(Undone(s, h, reply))
  {
    ReleaseLogged(s, s.handlers[h].job.ref, reply);
    SameLog(Release'(s, s.handlers[h].job.ref, reply), Undone(s, h, reply));
  }

  lemma ReturnLogged(s: State, ref: Ref, reply: Reply)
    requires LogInv(s)
    ensures LogInv(Returned(s, ref, reply))
  {
    ReleaseLogged(s, ref, reply);
  }

  lemma LeaveQuiet(s: State, i: nat, reply: Reply)
    requires i in s.tasks && s.tasks[i].phase.Leaving?
    ensures SameLocks(Returned(s, s.tasks[i].job.ref, reply), Left(s, i, reply))
  {
  }

  lemma LeaveLogged(s: State, i: nat, reply: Reply)
    requires LogInv(s) && i in s.tasks && s.tasks[i].phase.Leaving?
    ensures LogInv(Left(s, i, reply))
  {
    ReturnLogged(s, s.tasks[i].job.ref, reply);
    LeaveQuiet(s, i, reply);
    SameLog(Returned(s, s.tasks[i].job.ref, reply), Left(s, i, reply));
  }

  lemma ForceLogged(s: State, slot: Slot, reply: Reply)
    requires LogInv(s)
    ensures LogInv(Freed(s, slot, reply))
  {
    if !reply.Refused? {
      Snoc(s.log, Forced(slot));
      Appended(s, Freed(s, slot, reply), Forced(slot));
    }
  }

  lemma QuietLogged(s: State, e: Step)
    requires LogInv(s) && Enabled(s, e) && !TouchesLocks(e)
    ensures LogInv(Apply(s, e))
  {
    LocksKept(s, e);
    SameLog(s, Apply(s, e));
  }

  lemma StepLogged(s: State, e: Step)
    requires LogInv(s) && Enabled(s, e)
    ensures LogInv(Apply(s, e))
  {
    match e
    case Begin(h, job, ttl, reply) => BeginLogs(s, h, job, ttl, reply);
    case Undo(h, reply) => UndoLogged(s, h, reply);
    case Leave(i, reply) => LeaveLogged(s, i, reply);
    case Unlock(ref, reply) => ReleaseLogged(s, ref, reply);
    case ForceUnlock(slot, reply) => ForceLogged(s, slot, reply);
    case _ => QuietLogged(s, e);
  }

  lemma {:induction false} RunLogged(s: State, steps: seq<Step>)
    requires LogInv(s) && Legal(s, steps)
    ensures LogInv(Exec(s, steps))
    decreases steps
  {
    if steps != [] {
      StepLogged(s, steps[0]);
      RunLogged(Apply(s, steps[0]), steps[1..]);
    }
  }

  /** In every run, over any bots and users, the log is a history of leases; so an unlock with a
      stale token never removed a later holder's lock. */
  lemma EveryRunLeases(steps: seq<Step>)
    requires Legal(INIT, steps)
    ensures LeaseHistory(Exec(INIT, steps).log)
  {
    RunLogged(INIT, steps);
  }

  // ---------------------------------------------------------------- consequences for two acquisitions

  predicate Ends(e: Event, lock: Event)
    requires lock.Locked?
  {
    e == Unlocked(lock.slot, lock.token) || e == Forced(lock.slot)
  }

  /** An acquisition either still stands, was ended, or was succeeded after it ran out. */
  lemma {:induction false} StandsOrEnded(log: seq<Event>, i: nat)
    requires LeaseHistory(log) && i < |log| && log[i].Locked?
    ensures || Holder(log, log[i].slot) == Some(log[i])
            || (exists k :: i < k < |log| && Ends(log[k], log[i]))
            || (exists k :: i < k < |log| && log[k].Locked? && log[k].slot == log[i].slot
                 && log[i].expires <= log[k].at)
    decreases log
  {
    var front := Front(log);
    if i < |front| {
      StandsOrEnded(front, i);
      assert log[i] == front[i];
      if Holder(front, log[i].slot) == Some(log[i]) {
        var e := Last(log);
        if e.slot == log[i].slot {
          assert log[|log| - 1] == e;
        }
      } else if k :| i < k < |front| && Ends(front[k], log[i]) {
        assert Ends(log[k], log[i]);
      } else {
        var k :| i < k < |front| && front[k].Locked? && front[k].slot == log[i].slot && log[i].expires <= front[k].at;
        assert log[k] == front[k];
      }
    }
  }

  lemma {:induction false} HistoryPrefix(log: seq<Event>, n: nat)
    requires LeaseHistory(log) && n <= |log|
    ensures LeaseHistory(log[..n])
    decreases |log| - n
  {
    if n < |log| {
      HistoryPrefix(Front(log), n);
      assert Front(log)[..n] == log[..n];
    } else {
      assert log[..n] == log;
    }
  }

  /** What an acquisition finds. */
  lemma LockedNext(front: seq<Event>, e: Event)
    requires LeaseHistory(front + [e]) && e.Locked?
    ensures Holder(front, e.slot).Some? ==> Holder(front, e.slot).value.expires <= e.at
    ensures forall k :: 0 <= k < |front| && front[k].Locked? ==> front[k].at <= e.at && front[k].token != e.token
    ensures forall k :: 0 <= k < |front| && front[k].Locked? ==> front[k].at <= e.at
  {
    Snoc(front, e);
  }

  /** Two successful acquisitions by one user on one bot are separated by a release with the first
      one's token, that user's own /clear, or the expiry of the first; their tokens differ. */
  lemma AcquisitionsSeparated(log: seq<Event>, i: nat, j: nat)
    requires LeaseHistory(log) && i < j < |log|
    requires log[i].Locked? && log[j].Locked? && log[i].slot == log[j].slot
    ensures (exists k :: i < k < j && Ends(log[k], log[i])) || log[i].expires <= log[j].at
    ensures log[i].token != log[j].token
  {
    HistoryPrefix(log, j);
    HistoryPrefix(log, j + 1);
    var front := log[..j];
    assert log[..j + 1] == front + [log[j]];
    LockedNext(front, log[j]);
    StandsOrEnded(front, i);
    assert front[i] == log[i] && forall k :: 0 <= k < j ==> front[k] == log[k];
  }
}
