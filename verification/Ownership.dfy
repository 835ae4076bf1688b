/** Who is responsible for a held lock: in every reachable state of the protocol a live token has
    exactly one carrier, unless its enqueue lost its reply or it was orphaned by one of the faults
    the steps name. */
module Ownership {
  import opened Locks
  import opened Protocol

  ghost predicate AtHome(s: State) {
    && (forall slot :: slot in s.locks ==>
          var l := s.locks[slot]; l.token != "" && l.token in s.home && s.home[l.token] == Ref(slot, l.scene, l.token))
    && (forall h :: h in s.handlers && s.handlers[h].job.ref.token != "" ==>
          var r := s.handlers[h].job.ref; r.token in s.home && s.home[r.token] == r)
    && (forall i :: i in s.tasks && s.tasks[i].job.ref.token != "" ==>
          var r := s.tasks[i].job.ref; r.token in s.home && s.home[r.token] == r)
    && (forall t :: t in s.orphans ==> t in s.home)
    && (forall t :: t in s.home ==> t != "")
  }

  ghost predicate OneHandler(s: State) {
    forall g, h ::
      g in s.handlers && h in s.handlers && s.handlers[g].job.ref.token == s.handlers[h].job.ref.token != "" ==>
        g == h
  }

  ghost predicate OneTask(s: State) {
    forall i, j :: i in s.tasks && j in s.tasks && s.tasks[i].job.ref.token == s.tasks[j].job.ref.token != "" ==> i == j
  }

  ghost predicate NotBoth(s: State) {
    forall h, i :: h in s.handlers && i in s.tasks && s.handlers[h].job.ref.token == s.tasks[i].job.ref.token != "" ==>
      s.handlers[h].phase.Undoing? && s.handlers[h].job.ref.token in s.doubled
  }

  ghost predicate OrphansAlone(s: State) {
    && (forall h :: h in s.handlers ==> s.handlers[h].job.ref.token !in s.orphans)
    && (forall i :: i in s.tasks ==> s.tasks[i].job.ref.token !in s.orphans)
  }

  ghost predicate Carried(s: State, t: string) {
    HandlerCarries(s, t) || TaskCarries(s, t)
  }

  ghost predicate Covered(s: State) {
    forall slot :: Held(s.locks, slot, s.now) ==> s.locks[slot].token in s.orphans || Carried(s, s.locks[slot].token)
  }

  ghost predicate Shape(s: State) {
    AtHome(s) && OneHandler(s) && OneTask(s) && NotBoth(s) && OrphansAlone(s)
  }

  ghost predicate Inv(s: State) {
    Shape(s) && Covered(s)
  }

  lemma HandlerWitness(s: State, h: nat)
    requires h in s.handlers
    ensures HandlerCarries(s, s.handlers[h].job.ref.token)
  {
  }

  lemma TaskWitness(s: State, i: nat)
    requires i in s.tasks
    ensures TaskCarries(s, s.tasks[i].job.ref.token)
  {
  }

  // ---------------------------------------------------------------- moves

  predicate Fewer(locks: LockMap, now: nat, locks': LockMap, now': nat) {
    now <= now' && forall slot :: slot in locks' ==> slot in locks && locks'[slot] == locks[slot]
  }

  /** No live lock is without a carrier because of this token. */
  ghost predicate Settled(s: State, t: string) {
    t in s.orphans || Carried(s, t) || forall slot :: Held(s.locks, slot, s.now) ==> s.locks[slot].token != t
  }

  ghost predicate Untouched(s: State, s': State, hs: set<nat>, ts: set<nat>) {
    && (forall h :: h in s.handlers && h !in hs ==> h in s'.handlers && s'.handlers[h] == s.handlers[h])
    && (forall i :: i in s.tasks && i !in ts ==> i in s'.tasks && s'.tasks[i] == s.tasks[i])
  }

  /** Carriers other than the ones a step touches are still there. */
  lemma StillSettled(s: State, s': State, t: string, hs: set<nat>, ts: set<nat>)
    requires Carried(s, t) && Untouched(s, s', hs, ts)
    requires forall h :: h in hs && h in s.handlers ==> Settled(s', s.handlers[h].job.ref.token)
    requires forall i :: i in ts && i in s.tasks ==> Settled(s', s.tasks[i].job.ref.token)
    ensures Settled(s', t)
  {
    if HandlerCarries(s, t) {
      var h :| h in s.handlers && s.handlers[h].job.ref.token == t;
      if h !in hs {
        HandlerWitness(s', h);
      }
    } else {
      var i :| i in s.tasks && s.tasks[i].job.ref.token == t;
      if i !in ts {
        TaskWitness(s', i);
      }
    }
  }

  /** Locks may go and orphans come: what was covered stays so when the tokens of the carriers that a step
      touches are settled. */
  lemma StillCovered(s: State, s': State, hs: set<nat>, ts: set<nat>)
    requires Covered(s) && Fewer(s.locks, s.now, s'.locks, s'.now) && s.orphans <= s'.orphans
    requires Untouched(s, s', hs, ts)
    requires forall h :: h in hs && h in s.handlers ==> Settled(s', s.handlers[h].job.ref.token)
    requires forall i :: i in ts && i in s.tasks ==> Settled(s', s.tasks[i].job.ref.token)
    ensures Covered(s')
  {
    forall slot | Held(s'.locks, slot, s'.now)
      ensures s'.locks[slot].token in s'.orphans || Carried(s', s'.locks[slot].token)
    {
      assert Held(s.locks, slot, s.now);
      if s.locks[slot].token !in s.orphans {
        StillSettled(s, s', s.locks[slot].token, hs, ts);
      }
    }
  }

  /** The carriers of `s'` are among those of `s`, with the same jobs. */
  predicate NoneNew(s: State, s': State) {
    && (forall h :: h in s'.handlers ==>
          && h in s.handlers && s'.handlers[h].job == s.handlers[h].job
          && (s.handlers[h].phase.Undoing? ==> s'.handlers[h].phase.Undoing?))
    && (forall i :: i in s'.tasks ==> i in s.tasks && s'.tasks[i].job == s.tasks[i].job)
  }

  /** No carrier is new, and no new orphan has a carrier. */
  lemma StillShaped(s: State, s': State)
    requires Shape(s) && NoneNew(s, s') && Fewer(s.locks, s.now, s'.locks, s'.now)
    requires s'.home == s.home && s'.doubled == s.doubled
    requires forall t :: t in s'.orphans ==> t in s.orphans || (t in s.home && !Carried(s', t))
    ensures Shape(s')
  {
    assert AtHome(s') && OneHandler(s') && OneTask(s') && NotBoth(s');
    forall h | h in s'.handlers
      ensures s'.handlers[h].job.ref.token !in s'.orphans
    {
      HandlerWitness(s', h);
    }
    forall i | i in s'.tasks
      ensures s'.tasks[i].job.ref.token !in s'.orphans
    {
      TaskWitness(s', i);
    }
  }

  /** No carrier moves; locks may go. */
  lemma Quiet(s: State, s': State)
    requires Inv(s) && Fewer(s.locks, s.now, s'.locks, s'.now)
    requires s' == s.(now := s'.now, locks := s'.locks, flags := s'.flags, log := s'.log)
    ensures Inv(s')
  {
    StillShaped(s, s');
    StillCovered(s, s', {}, {});
  }

  lemma HandlerMoves(s: State, s': State, h: nat, a: Handler)
    requires Inv(s) && h in s.handlers && a.job == s.handlers[h].job && !s.handlers[h].phase.Undoing?
    requires s' == s.(handlers := s.handlers[h := a])
    ensures Inv(s')
  {
    HandlerWitness(s', h);
    StillShaped(s, s');
    StillCovered(s, s', {h}, {});
  }

  lemma TaskMoves(s: State, s': State, i: nat, b: Task)
    requires Inv(s) && i in s.tasks && b.job == s.tasks[i].job && Fewer(s.locks, s.now, s'.locks, s'.now)
    requires s' == s.(tasks := s.tasks[i := b], locks := s'.locks, log := s'.log)
    ensures Inv(s')
  {
    TaskWitness(s', i);
    StillShaped(s, s');
    StillCovered(s, s', {}, {i});
  }

  /** A fresh token, or none, is carried by nobody yet. */
  lemma FreshUncarried(s: State, t: string)
    requires AtHome(s) && (t == "" || t !in s.home)
    ensures t !in s.orphans
    ensures t != "" ==> forall g :: g in s.handlers ==> s.handlers[g].job.ref.token != t
    ensures t != "" ==> forall i :: i in s.tasks ==> s.tasks[i].job.ref.token != t
  {
  }

  /** The new handler is the only carrier of its token. */
  lemma NewHandlerOnce(s: State, s': State, h: nat, a: Handler)
    requires OneHandler(s) && OneTask(s) && NotBoth(s) && h !in s.handlers
    requires a.job.ref.token != "" ==> forall g :: g in s.handlers ==> s.handlers[g].job.ref.token != a.job.ref.token
    requires a.job.ref.token != "" ==> forall i :: i in s.tasks ==> s.tasks[i].job.ref.token != a.job.ref.token
    requires s'.handlers == s.handlers[h := a] && s'.tasks == s.tasks && s'.doubled == s.doubled
    ensures OneHandler(s') && OneTask(s') && NotBoth(s')
  {
    assert OneHandler(s') && OneTask(s');
  }

  lemma NewHandlerShape(s: State, s': State, h: nat, a: Handler)
    requires Shape(s) && AtHome(s') && h !in s.handlers
    requires a.job.ref.token == "" || a.job.ref.token !in s.home
    requires s'.handlers == s.handlers[h := a] && s'.tasks == s.tasks
    requires s'.orphans == s.orphans && s'.doubled == s.doubled
    ensures Shape(s')
  {
    FreshUncarried(s, a.job.ref.token);
    NewHandlerOnce(s, s', h, a);
    assert OrphansAlone(s');
  }

  lemma LockTakenHome(s: State, s': State, h: nat, job: Job, ttl: nat)
    requires AtHome(s) && job.ref.token != "" && job.ref.token !in s.home
    requires s' == s.(locks := s.locks[job.ref.slot := Lock(job.ref.scene, job.ref.token, s.now + ttl)],
                      home := s.home[job.ref.token := job.ref], log := s'.log,
                      handlers := s.handlers[h := Handler(job, Holding)])
    ensures AtHome(s')
  {
  }

  /** One slot gets a lock that is accounted for, and no carrier moves. */
  lemma OneMoreLock(s: State, s': State, slot: Slot, l: Lock)
    requires Covered(s) && s'.locks == s.locks[slot := l] && s'.now == s.now && s.orphans <= s'.orphans
    requires Untouched(s, s', {}, {}) && (l.token in s'.orphans || Carried(s', l.token))
    ensures Covered(s')
  {
    forall other | Held(s'.locks, other, s'.now)
      ensures s'.locks[other].token in s'.orphans || Carried(s', s'.locks[other].token)
    {
      if other != slot {
        assert Held(s.locks, other, s.now);
        if s.locks[other].token !in s.orphans {
          StillSettled(s, s', s.locks[other].token, {}, {});
        }
      }
    }
  }

  /** A fresh token enters with its handler. */
  lemma LockTaken(s: State, s': State, h: nat, job: Job, ttl: nat)
    requires Inv(s) && h !in s.handlers && job.ref.token != "" && job.ref.token !in s.home
    requires s' == s.(locks := s.locks[job.ref.slot := Lock(job.ref.scene, job.ref.token, s.now + ttl)],
                      home := s.home[job.ref.token := job.ref], log := s'.log,
                      handlers := s.handlers[h := Handler(job, Holding)])
    ensures Inv(s')
  {
    LockTakenHome(s, s', h, job, ttl);
    NewHandlerShape(s, s', h, Handler(job, Holding));
    HandlerWitness(s', h);
    OneMoreLock(s, s', job.ref.slot, Lock(job.ref.scene, job.ref.token, s.now + ttl));
  }

  /** A fresh token enters with nobody: the reply was lost. */
  lemma LockLost(s: State, s': State, ref: Ref, ttl: nat)
    requires Inv(s) && ref.token != "" && ref.token !in s.home
    requires s' == s.(locks := s.locks[ref.slot := Lock(ref.scene, ref.token, s.now + ttl)],
                      home := s.home[ref.token := ref], log := s'.log, orphans := s.orphans + {ref.token})
    ensures Inv(s')
  {
    assert Shape(s');
    OneMoreLock(s, s', ref.slot, Lock(ref.scene, ref.token, s.now + ttl));
  }

  lemma FreeHandler(s: State, h: nat, job: Job)
    requires Inv(s) && h !in s.handlers && job.ref.token == ""
    ensures Inv(BegunFree(s, h, job))
  {
    var s' := BegunFree(s, h, job);
    assert AtHome(s');
    NewHandlerShape(s, s', h, Handler(job, Holding));
    StillCovered(s, s', {}, {});
  }

  lemma NoTaskYet(s: State, h: nat, i: nat)
    requires Inv(s) && h in s.handlers && !s.handlers[h].phase.Undoing? && i in s.tasks
    ensures s.handlers[h].job.ref.token == "" || s.tasks[i].job.ref.token != s.handlers[h].job.ref.token
  {
  }

  lemma TaskAddedCovers(s: State, s': State, h: nat, i: nat)
    requires Inv(s) && h in s.handlers && i !in s.tasks && i in s'.tasks && s'.tasks[i].job == s.handlers[h].job
    requires s'.handlers - {h} == s.handlers - {h} && s'.tasks == s.tasks[i := s'.tasks[i]]
    requires s'.locks == s.locks && s'.now == s.now && s'.orphans == s.orphans
    ensures Covered(s')
  {
    TaskWitness(s', i);
    forall g | g in s.handlers && g != h
      ensures g in s'.handlers && s'.handlers[g] == s.handlers[g]
    {
      assert g in s.handlers - {h};
      assert (s'.handlers - {h})[g] == (s.handlers - {h})[g];
    }
    StillCovered(s, s', {h}, {});
  }

  /** A token goes from its only handler to a new task. */
  lemma HandedOverOnce(s: State, s': State, h: nat, i: nat)
    requires OneHandler(s) && OneTask(s) && NotBoth(s)
    requires h in s.handlers && !s.handlers[h].phase.Undoing? && i !in s.tasks
    requires s'.handlers == s.handlers - {h} && i in s'.tasks && s'.tasks == s.tasks[i := s'.tasks[i]]
    requires s'.tasks[i].job == s.handlers[h].job && s'.doubled == s.doubled
    ensures OneHandler(s') && OneTask(s') && NotBoth(s')
  {
    var t := s.handlers[h].job.ref.token;
    forall j | j in s.tasks
      ensures t == "" || s.tasks[j].job.ref.token != t
    {
    }
    assert OneTask(s');
    assert OneHandler(s');
    forall g, j | g in s'.handlers && j in s'.tasks && s'.handlers[g].job.ref.token == s'.tasks[j].job.ref.token != ""
      ensures s'.handlers[g].phase.Undoing? && s'.handlers[g].job.ref.token in s'.doubled
    {
      assert g in s.handlers && g != h;
    }
  }

  lemma HandedOverHome(s: State, s': State, h: nat, i: nat, b: Task)
    requires AtHome(s) && OrphansAlone(s) && h in s.handlers && i !in s.tasks && b.job == s.handlers[h].job
    requires s' == s.(handlers := s.handlers - {h}, tasks := s.tasks[i := b])
    ensures AtHome(s') && OrphansAlone(s')
  {
  }

  /** The job goes from the handler to the queue. */
  lemma HandedOver(s: State, s': State, h: nat, i: nat, b: Task)
    requires Inv(s) && h in s.handlers && !s.handlers[h].phase.Undoing? && i !in s.tasks && b.job == s.handlers[h].job
    requires s' == s.(handlers := s.handlers - {h}, tasks := s.tasks[i := b])
    ensures Inv(s')
  {
    HandedOverHome(s, s', h, i, b);
    HandedOverOnce(s, s', h, i);
    TaskAddedCovers(s, s', h, i);
  }

  lemma DoubleUnique(s: State, s': State, h: nat, i: nat)
    requires Inv(s) && h in s.handlers && !s.handlers[h].phase.Undoing? && i !in s.tasks
    requires h in s'.handlers && i in s'.tasks && s'.handlers[h].phase.Undoing?
    requires s'.handlers[h].job == s'.tasks[i].job == s.handlers[h].job
    requires s'.handlers == s.handlers[h := s'.handlers[h]] && s'.tasks == s.tasks[i := s'.tasks[i]]
    requires s'.doubled == s.doubled + {s.handlers[h].job.ref.token}
    ensures OneHandler(s') && OneTask(s') && NotBoth(s')
  {
    var t := s.handlers[h].job.ref.token;
    forall j | j in s.tasks
      ensures t == "" || s.tasks[j].job.ref.token != t
    {
      NoTaskYet(s, h, j);
    }
    forall g, j | g in s'.handlers && j in s'.tasks && s'.handlers[g].job.ref.token == s'.tasks[j].job.ref.token != ""
      ensures s'.handlers[g].phase.Undoing? && s'.handlers[g].job.ref.token in s'.doubled
    {
      if g != h {
        assert s'.handlers[g] == s.handlers[g];
        assert j != i;
        assert s'.tasks[j] == s.tasks[j];
      }
    }
  }

  /** The queue took the job but its reply was lost: handler and task both carry the token. */
  lemma Doubles(s: State, s': State, h: nat, i: nat, a: Handler, b: Task)
    requires Inv(s) && h in s.handlers && !s.handlers[h].phase.Undoing? && i !in s.tasks
    requires a.phase.Undoing? && a.job == b.job == s.handlers[h].job
    requires s' == s.(handlers := s.handlers[h := a], tasks := s.tasks[i := b], doubled
               := s.doubled + {a.job.ref.token})
    ensures Inv(s')
  {
    TaskAddedCovers(s, s', h, i);
    assert AtHome(s') && OrphansAlone(s');
    DoubleUnique(s, s', h, i);
  }

  /** A live lock with a token issued at home is its reference's own lock. */
  lemma SettledUnheld(s: State, s': State, ref: Ref)
    requires AtHome(s) && Fewer(s.locks, s.now, s'.locks, s'.now) && ref.token in s.home && s.home[ref.token] == ref
    requires !HeldBy(s'.locks, ref, s'.now)
    ensures Settled(s', ref.token)
  {
  }

  /** No lock carries an empty token. */
  lemma SettledEmpty(s: State, s': State)
    requires AtHome(s) && Fewer(s.locks, s.now, s'.locks, s'.now)
    ensures Settled(s', "")
  {
  }

  /** The token of a carrier that leaves: its lock is gone, or someone else carries it, or it is orphaned. */
  lemma LeaverSettled(s: State, s': State, ref: Ref)
    requires AtHome(s) && Fewer(s.locks, s.now, s'.locks, s'.now)
    requires ref.token != "" ==> ref.token in s.home && s.home[ref.token] == ref
    requires ref.token == "" || ref.token in s'.orphans || Carried(s', ref.token) || !HeldBy(s'.locks, ref, s'.now)
    ensures Settled(s', ref.token)
  {
    if ref.token == "" {
      SettledEmpty(s, s');
    } else if ref.token !in s'.orphans && !Carried(s', ref.token) {
      SettledUnheld(s, s', ref);
    }
  }

  lemma HandlerLeaves(s: State, s': State, h: nat)
    requires Inv(s) && h in s.handlers && Fewer(s.locks, s.now, s'.locks, s'.now)
    requires var t := s.handlers[h].job.ref.token;
             && s' == s.(handlers := s.handlers - {h}, locks := s'.locks, log := s'.log, orphans := s'.orphans)
             && (s'.orphans == s.orphans || (t != "" && !TaskCarries(s, t) && s'.orphans == s.orphans + {t}))
             && (t == "" || t in s'.orphans || TaskCarries(s, t) || !HeldBy(s'.locks, s.handlers[h].job.ref, s'.now))
    ensures Inv(s')
  {
    StillShaped(s, s');
    LeaverSettled(s, s', s.handlers[h].job.ref);
    StillCovered(s, s', {h}, {});
  }

  lemma TaskLeaves(s: State, s': State, i: nat)
    requires Inv(s) && i in s.tasks && Fewer(s.locks, s.now, s'.locks, s'.now)
    requires var t := s.tasks[i].job.ref.token;
             && s' == s.(tasks := s.tasks - {i}, locks := s'.locks, log := s'.log, orphans := s'.orphans)
             && (s'.orphans == s.orphans || (t != "" && !HandlerCarries(s, t) && s'.orphans == s.orphans + {t}))
             && (t == "" || t in s'.orphans || HandlerCarries(s, t) || !HeldBy(s'.locks, s.tasks[i].job.ref, s'.now))
    ensures Inv(s')
  {
    StillShaped(s, s');
    LeaverSettled(s, s', s.tasks[i].job.ref);
    StillCovered(s, s', {}, {i});
  }

  // ---------------------------------------------------------------- every step is a move

  lemma ReleaseFewer(s: State, ref: Ref, reply: Reply)
    ensures Fewer(s.locks, s.now, Release'(s, ref, reply).locks, s.now)
    ensures Release'(s, ref, reply) == s.(locks := Release'(s, ref, reply).locks, log := Release'(s, ref, reply).log)
    ensures !reply.Refused? ==> !HeldBy(Release'(s, ref, reply).locks, ref, s.now)
  {
  }

  lemma ReturnFewer(s: State, ref: Ref, reply: Reply)
    ensures var s' := Returned(s, ref, reply);
            && Fewer(s.locks, s.now, s'.locks, s.now) && s' == s.(locks := s'.locks, log := s'.log)
            && (!reply.Refused? && ref.token != "" && ref.scene != "" ==> !HeldBy(s'.locks, ref, s.now))
  {
  }

  lemma BeginKeeps(s: State, h: nat, job: Job, ttl: nat, reply: Reply)
    requires Inv(s) && Enabled(s, Begin(h, job, ttl, reply))
    ensures Inv(Begun(s, h, job, ttl, reply))
  {
    if !reply.Refused? && !Held(s.locks, job.ref.slot, s.now) {
      if reply.Lost? {
        LockLost(s, Begun(s, h, job, ttl, reply), job.ref, ttl);
      } else {
        LockTaken(s, Begun(s, h, job, ttl, reply), h, job, ttl);
      }
    }
  }

  lemma PostKeeps(s: State, h: nat, ok: bool)
    requires Inv(s) && h in s.handlers && s.handlers[h].phase.Holding?
    ensures Inv(Reported(s, h, ok))
  {
    var s' := Reported(s, h, ok);
    if h in s'.handlers {
      HandlerMoves(s, s', h, s'.handlers[h]);
    } else {
      HandlerLeaves(s, s', h);
    }
  }

  lemma UndoKeeps(s: State, h: nat, reply: Reply)
    requires Inv(s) && h in s.handlers
    ensures Inv(Undone(s, h, reply))
  {
    ReleaseFewer(s, s.handlers[h].job.ref, reply);
    HandlerLeaves(s, Undone(s, h, reply), h);
  }

  lemma HandlerLostKeeps(s: State, h: nat)
    requires Inv(s) && h in s.handlers
    ensures Inv(HandlerLost(s, h))
  {
    HandlerLeaves(s, HandlerLost(s, h), h);
  }

  lemma DoublingKeeps(s: State, h: nat, i: nat, reply: Reply)
    requires Inv(s) && h in s.handlers && s.handlers[h].phase.Posted? && i !in s.tasks
    requires h in Enqueued(s, h, i, reply).handlers
    ensures Inv(Enqueued(s, h, i, reply))
  {
    var s' := Enqueued(s, h, i, reply);
    if reply.Lost? {
      Doubles(s, s', h, i, s'.handlers[h], s'.tasks[i]);
    } else {
      HandlerMoves(s, s', h, s'.handlers[h]);
    }
  }

  lemma EnqueueKeeps(s: State, h: nat, i: nat, reply: Reply)
    requires Inv(s) && h in s.handlers && s.handlers[h].phase.Posted? && i !in s.tasks
    ensures Inv(Enqueued(s, h, i, reply))
  {
    var s' := Enqueued(s, h, i, reply);
    if h in s'.handlers {
      DoublingKeeps(s, h, i, reply);
    } else if i in s'.tasks {
      HandedOver(s, s', h, i, s'.tasks[i]);
    } else {
      forall j | j in s.tasks
        ensures s.handlers[h].job.ref.token == "" || s.tasks[j].job.ref.token != s.handlers[h].job.ref.token
      {
        NoTaskYet(s, h, j);
      }
      HandlerLeaves(s, s', h);
    }
  }

  lemma MovedKeeps(s: State, i: nat, phase: TaskPhase)
    requires Inv(s) && i in s.tasks
    ensures Inv(Moved(s, i, phase))
  {
    TaskMoves(s, Moved(s, i, phase), i, s.tasks[i].(phase := phase));
  }

  lemma SentKeeps(s: State, i: nat, ok: bool)
    requires Inv(s) && i in s.tasks && s.tasks[i].phase.Sending?
    ensures Inv(Sent(s, i, ok))
  {
    TaskMoves(s, Sent(s, i, ok), i, Sent(s, i, ok).tasks[i]);
  }

  lemma RetryKeeps(s: State, i: nat, reply: Reply)
    requires Inv(s) && i in s.tasks && s.tasks[i].phase.Leaving?
    requires s.tasks[i].phase.again && s.tasks[i].retries > 0
    ensures Inv(Left(s, i, reply))
  {
    ReturnFewer(s, s.tasks[i].job.ref, reply);
    TaskMoves(s, Left(s, i, reply), i, Left(s, i, reply).tasks[i]);
  }

  lemma DropKeeps(s: State, i: nat, reply: Reply)
    requires Inv(s) && i in s.tasks && s.tasks[i].phase.Leaving?
    requires !s.tasks[i].phase.again || s.tasks[i].retries == 0
    ensures Inv(Left(s, i, reply))
  {
    ReturnFewer(s, s.tasks[i].job.ref, reply);
    TaskLeaves(s, Left(s, i, reply), i);
  }

  lemma TaskLostKeeps(s: State, i: nat)
    requires Inv(s) && i in s.tasks
    ensures Inv(TaskLost(s, i))
  {
    TaskLeaves(s, TaskLost(s, i), i);
  }

  lemma UnlockKeeps(s: State, ref: Ref, reply: Reply)
    requires Inv(s)
    ensures Inv(Release'(s, ref, reply))
  {
    ReleaseFewer(s, ref, reply);
    Quiet(s, Release'(s, ref, reply));
  }

  lemma ForceKeeps(s: State, slot: Slot, reply: Reply)
    requires Inv(s)
    ensures Inv(Freed(s, slot, reply))
  {
    Quiet(s, Freed(s, slot, reply));
  }

  lemma TickKeeps(s: State)
    requires Inv(s)
    ensures Inv(Ticked(s))
  {
    Quiet(s, Ticked(s));
  }

  lemma FlagKeeps(s: State, ref: Ref, reply: Reply)
    requires Inv(s)
    ensures Inv(Raised(s, ref, reply))
  {
    Quiet(s, Raised(s, ref, reply));
  }

  lemma HandlerStepKeeps(s: State, e: Step)
    requires Inv(s) && Enabled(s, e) && HandlerStep(e)
    ensures Inv(Apply(s, e))
  {
    match e
    case Begin(h, job, ttl, reply) => BeginKeeps(s, h, job, ttl, reply);
    case BeginFree(h, job) => FreeHandler(s, h, job);
    case Post(h, ok) => PostKeeps(s, h, ok);
    case Enqueue(h, i, reply) => EnqueueKeeps(s, h, i, reply);
    case Undo(h, reply) => UndoKeeps(s, h, reply);
    case HandlerCrash(h) => HandlerLostKeeps(s, h);
  }

  lemma WorkerStepKeeps(s: State, e: Step)
    requires Inv(s) && Enabled(s, e) && (e.Start? || e.Check? || e.Claim? || e.Send? || e.Finish?)
    ensures Inv(Apply(s, e))
  {
    match e
    case Start(i) => MovedKeeps(s, i, Started);
    case Check(i, reply) => MovedKeeps(s, i, AfterCheck(s, s.tasks[i], reply));
    case Claim(i, won) => MovedKeeps(s, i, if won then Tracks(0) else Leaving(false));
    case Send(i, ok) => SentKeeps(s, i, ok);
    case Finish(i, again) => MovedKeeps(s, i, Leaving(again));
  }

  lemma TaskEndKeeps(s: State, e: Step)
    requires Inv(s) && Enabled(s, e) && (e.Leave? || e.WorkerCrash? || e.Discard?)
    ensures Inv(Apply(s, e))
  {
    match e
    case Leave(i, reply) =>
      if s.tasks[i].phase.again && s.tasks[i].retries > 0 {
        RetryKeeps(s, i, reply);
      } else {
        DropKeeps(s, i, reply);
      }
    case WorkerCrash(i, back) =>
      if back {
        MovedKeeps(s, i, Queued);
      } else {
        TaskLostKeeps(s, i);
      }
    case Discard(i, _, _) => TaskLostKeeps(s, i);
  }

  lemma NobodyStepKeeps(s: State, e: Step)
    requires Inv(s) && Enabled(s, e) && (e.Tick? || e.Flag? || e.Unlock? || e.ForceUnlock?)
    ensures Inv(Apply(s, e))
  {
    match e
    case Tick => TickKeeps(s);
    case Flag(ref, reply) => FlagKeeps(s, ref, reply);
    case Unlock(ref, reply) => UnlockKeeps(s, ref, reply);
    case ForceUnlock(slot, reply) => ForceKeeps(s, slot, reply);
  }

  /** Every step keeps the invariant. */
  lemma StepKeeps(s: State, e: Step)
    requires Inv(s) && Enabled(s, e)
    ensures Inv(Apply(s, e))
  {
    if HandlerStep(e) {
      HandlerStepKeeps(s, e);
    } else if e.Tick? || e.Flag? || e.Unlock? || e.ForceUnlock? {
      NobodyStepKeeps(s, e);
    } else if e.Leave? || e.WorkerCrash? || e.Discard? {
      TaskEndKeeps(s, e);
    } else {
      WorkerStepKeeps(s, e);
    }
  }

  lemma {:induction false} RunKeeps(s: State, steps: seq<Step>)
    requires Inv(s) && Legal(s, steps)
    ensures Inv(Exec(s, steps))
    decreases steps
  {
    if steps != [] {
      StepKeeps(s, steps[0]);
      RunKeeps(Apply(s, steps[0]), steps[1..]);
    }
  }

  lemma Reached(steps: seq<Step>)
    requires Legal(INIT, steps)
    ensures Inv(Exec(INIT, steps))
  {
    RunKeeps(INIT, steps);
  }

  // ---------------------------------------------------------------- what the invariant says

  datatype Carrier = InHandler(h: nat) | InTask(i: nat)

  ghost function Handling(s: State, t: string): set<Carrier> {
    set h | h in s.handlers && s.handlers[h].job.ref.token == t :: InHandler(h)
  }

  ghost function Working(s: State, t: string): set<Carrier> {
    set i | i in s.tasks && s.tasks[i].job.ref.token == t :: InTask(i)
  }

  ghost function Carriers(s: State, t: string): set<Carrier> {
    Handling(s, t) + Working(s, t)
  }

  lemma HandlersOne(s: State, t: string)
    requires OneHandler(s) && t != ""
    ensures |Handling(s, t)| == if HandlerCarries(s, t) then 1 else 0
  {
    if HandlerCarries(s, t) {
      var h :| h in s.handlers && s.handlers[h].job.ref.token == t;
      assert Handling(s, t) == {InHandler(h)};
    } else {
      assert Handling(s, t) == {};
    }
  }

  lemma TasksOne(s: State, t: string)
    requires OneTask(s) && t != ""
    ensures |Working(s, t)| == if TaskCarries(s, t) then 1 else 0
  {
    if TaskCarries(s, t) {
      var i :| i in s.tasks && s.tasks[i].job.ref.token == t;
      assert Working(s, t) == {InTask(i)};
    } else {
      assert Working(s, t) == {};
    }
  }

  lemma CarriersCount(s: State, t: string)
    requires Inv(s) && t != ""
    ensures |Carriers(s, t)| == (if HandlerCarries(s, t) then 1 else 0) + (if TaskCarries(s, t) then 1 else 0)
  {
    HandlersOne(s, t);
    TasksOne(s, t);
    assert Handling(s, t) !! Working(s, t);
  }

  lemma CarriersAtHome(s: State, slot: Slot)
    requires Inv(s) && slot in s.locks
    ensures var l := s.locks[slot];
            && (forall h :: InHandler(h) in Carriers(s, l.token)
                 ==> s.handlers[h].job.ref == Ref(slot, l.scene, l.token))
            && (forall i :: InTask(i) in Carriers(s, l.token) ==> s.tasks[i].job.ref == Ref(slot, l.scene, l.token))
            && l.token != ""
  {
  }

  lemma HeldCarried(s: State, slot: Slot)
    requires Inv(s) && Held(s.locks, slot, s.now)
    ensures var t := s.locks[slot].token; Carried(s, t) <==> t !in s.orphans
  {
  }
}
