/** When two workers of one user on one bot run at once: never while every lease lasts as long as its
    carrier, and in each of the five ways in which a lease can end before. */
module Overlap {
  import opened Locks
  import opened Protocol
  import opened Ownership
  import opened Stranding
  import opened Exceptions

  // ---------------------------------------------------------------- leases that end early

  /** The slot's lock, expired or not, is still the one taken for this reference. */
  predicate Stands(s: State, ref: Ref) {
    ref.slot in s.locks && s.locks[ref.slot].token == ref.token
  }

  predicate Hopeful(a: Handler, t: string) {
    a.job.ref.token == t && !a.phase.Undoing?
  }

  /** A handler that has not given up, or a task, still works on the token. */
  ghost predicate Pending(s: State, t: string) {
    TaskCarries(s, t) || exists h :: h in s.handlers && Hopeful(s.handlers[h], t)
  }

  /** What can end the lease of a token that is still pending: the cancel button, /clear, a takeover after it
      ran out, its worker's deferred release before a retry, or its handler's release of a job that the
      queue had taken after all. */
  datatype End = Button | Clearing | Expiry | Retry | Takeback

  ghost predicate Severs(s: State, e: Step, t: string, k: End) {
    match k
    case Button =>
      e.Unlock? && !e.reply.Refused? && e.ref.token == t && HeldBy(s.locks, e.ref, s.now) && Pending(s, t)
    case Clearing =>
      e.ForceUnlock? && !e.reply.Refused? && e.slot in s.locks && s.locks[e.slot].token == t && Pending(s, t)
    case Expiry =>
      && e.Begin? && !e.reply.Refused? && e.job.ref.slot in s.locks && s.locks[e.job.ref.slot].token == t
      && !Held(s.locks, e.job.ref.slot, s.now) && Pending(s, t)
    case Retry =>
      && e.Leave? && !e.reply.Refused? && TaskOf(s, e.i, t) && !Drops(s.tasks[e.i])
      && s.tasks[e.i].job.ref.scene != "" && HeldBy(s.locks, s.tasks[e.i].job.ref, s.now)
    case Takeback =>
      && e.Undo? && !e.reply.Refused? && HandlerOf(s, e.h, t) && HeldBy(s.locks, s.handlers[e.h].job.ref, s.now)
      && TaskCarries(s, t)
  }

  ghost predicate Ends(s: State, e: Step, t: string) {
    exists k :: Severs(s, e, t, k)
  }

  /** Some step of the run ends the token's lease. */
  ghost predicate Severed(s: State, steps: seq<Step>, t: string)
    requires Legal(s, steps)
    decreases steps
  {
    steps != [] && (Ends(s, steps[0], t) || Severed(Apply(s, steps[0]), steps[1..], t))
  }

  // ---------------------------------------------------------------- a pending token stands until then

  /** The token's own lock stands. */
  ghost predicate Standing(s: State, t: string) {
    t in s.home && s.home[t].slot in s.locks && s.locks[s.home[t].slot].token == t
  }

  lemma StandsAt(s: State, slot: Slot)
    requires AtHome(s) && slot in s.locks
    ensures s.locks[slot].token in s.home && s.home[s.locks[slot].token].slot == slot
  {
  }

  lemma SameStanding(s: State, s': State, t: string)
    requires s'.locks == s.locks && s'.home == s.home
    ensures Standing(s', t) <==> Standing(s, t)
  {
  }

  lemma QuietStanding(s: State, e: Step, t: string)
    requires Enabled(s, e) && !TouchesLocks(e)
    ensures Standing(Apply(s, e), t) <==> Standing(s, t)
  {
    LocksKept(s, e);
  }

  lemma ReleasedLocks(s: State, ref: Ref, reply: Reply)
    ensures Release'(s, ref, reply).locks == if !reply.Refused? && HeldBy(s.locks, ref, s.now)
                                             then s.locks - {ref.slot} else s.locks
  {
  }

  lemma ReleasedOwn(s: State, ref: Ref, reply: Reply, t: string)
    requires AtHome(s) && Standing(s, t) && !Standing(Release'(s, ref, reply), t)
    ensures ref.token == t && !reply.Refused? && HeldBy(s.locks, ref, s.now)
  {
    ReleasedLocks(s, ref, reply);
  }

  lemma UndoneLocks(s: State, h: nat, reply: Reply)
    requires h in s.handlers
    ensures Undone(s, h, reply).locks == Release'(s, s.handlers[h].job.ref, reply).locks
  {
  }

  lemma LeftLocks(s: State, i: nat, reply: Reply)
    requires i in s.tasks && s.tasks[i].phase.Leaving?
    ensures Left(s, i, reply).locks == Returned(s, s.tasks[i].job.ref, reply).locks
  {
  }

  lemma HopefulPends(s: State, h: nat, t: string)
    requires h in s.handlers && Hopeful(s.handlers[h], t)
    ensures Pending(s, t)
  {
  }

  lemma TaskPends(s: State, i: nat, t: string)
    requires TaskOf(s, i, t)
    ensures Pending(s, t)
  {
  }

  lemma EnqueuedBefore(s: State, h: nat, i: nat, reply: Reply, t: string)
    requires h in s.handlers && s.handlers[h].phase.Posted? && i !in s.tasks && Pending(Enqueued(s, h, i, reply), t)
    ensures Pending(s, t)
  {
    var s' := Enqueued(s, h, i, reply);
    if j :| j in s'.tasks && s'.tasks[j].job.ref.token == t {
      if j == i {
        HopefulPends(s, h, t);
      } else {
        TaskPends(s, j, t);
      }
    } else {
      var g :| g in s'.handlers && Hopeful(s'.handlers[g], t);
      HopefulPends(s, g, t);
    }
  }

  lemma HandlerPendingBefore(s: State, e: Step, t: string)
    requires Enabled(s, e) && t != "" && (e.BeginFree? || e.Post? || e.Undo? || e.HandlerCrash?)
    requires Pending(Apply(s, e), t)
    ensures Pending(s, t)
  {
    var s' := Apply(s, e);
    if j :| j in s'.tasks && s'.tasks[j].job.ref.token == t {
      TaskPends(s, j, t);
    } else {
      var g :| g in s'.handlers && Hopeful(s'.handlers[g], t);
      HopefulPends(s, g, t);
    }
  }

  lemma TaskPendingBefore(s: State, e: Step, t: string)
    requires Enabled(s, e) && !HandlerStep(e) && Pending(Apply(s, e), t)
    ensures Pending(s, t)
  {
    var s' := Apply(s, e);
    HandlersKept(s, e);
    if j :| j in s'.tasks && s'.tasks[j].job.ref.token == t {
      TasksFrom(s, e, j);
      TaskPends(s, j, t);
    } else {
      var g :| g in s'.handlers && Hopeful(s'.handlers[g], t);
      HopefulPends(s, g, t);
    }
  }

  /** Only a new lock makes a token pending. */
  lemma PendingBefore(s: State, e: Step, t: string)
    requires Enabled(s, e) && t != "" && !e.Begin? && Pending(Apply(s, e), t)
    ensures Pending(s, t)
  {
    if e.Enqueue? {
      EnqueuedBefore(s, e.h, e.i, e.reply, t);
    } else if HandlerStep(e) {
      HandlerPendingBefore(s, e, t);
    } else {
      TaskPendingBefore(s, e, t);
    }
  }

  lemma BegunBacked(s: State, h: nat, job: Job, ttl: nat, reply: Reply, t: string)
    requires Inv(s) && Enabled(s, Begin(h, job, ttl, reply)) && t != "" && (Pending(s, t) ==> Standing(s, t))
    requires Pending(Begun(s, h, job, ttl, reply), t) && !Standing(Begun(s, h, job, ttl, reply), t)
    ensures Severs(s, Begin(h, job, ttl, reply), t, Expiry)
  {
    var s' := Begun(s, h, job, ttl, reply);
    if t != job.ref.token {
      if j :| j in s'.tasks && s'.tasks[j].job.ref.token == t {
        TaskPends(s, j, t);
      } else {
        var g :| g in s'.handlers && Hopeful(s'.handlers[g], t);
        HopefulPends(s, g, t);
      }
    }
  }

  /** A handler that gave up and let its lock go leaves the token pending only in a task. */
  lemma UndonePending(s: State, h: nat, reply: Reply, t: string)
    requires Inv(s) && h in s.handlers && HandlerOf(s, h, t) && t != "" && Pending(Undone(s, h, reply), t)
    ensures TaskCarries(s, t)
  {
    var s' := Undone(s, h, reply);
    forall g | g in s'.handlers
      ensures !Hopeful(s'.handlers[g], t)
    {
      OnlyHandler(s, h, t);
      assert HandlerOf(s, g, t) ==> g == h;
    }
  }

  lemma UndoneBacked(s: State, h: nat, reply: Reply, t: string)
    requires Inv(s) && Enabled(s, Undo(h, reply)) && t != "" && Standing(s, t)
    requires Pending(Undone(s, h, reply), t) && !Standing(Undone(s, h, reply), t)
    ensures Severs(s, Undo(h, reply), t, Takeback)
  {
    var ref := s.handlers[h].job.ref;
    UndoneLocks(s, h, reply);
    SameStanding(Release'(s, ref, reply), Undone(s, h, reply), t);
    ReleasedOwn(s, ref, reply, t);
    UndonePending(s, h, reply, t);
  }

  /** Once a worker has dropped its task, the token is not pending. */
  lemma DroppedPending(s: State, i: nat, reply: Reply, t: string)
    requires Inv(s) && i in s.tasks && s.tasks[i].phase.Leaving? && TaskOf(s, i, t) && t != ""
    requires Pending(Left(s, i, reply), t)
    ensures !Drops(s.tasks[i])
  {
    var s' := Left(s, i, reply);
    OnlyTask(s, i, t);
    forall g | g in s.handlers
      ensures !Hopeful(s.handlers[g], t)
    {
      assert s.handlers[g].phase.Undoing? || s.handlers[g].job.ref.token != t;
    }
    if Drops(s.tasks[i]) {
      assert forall j :: j in s'.tasks ==> j in s.tasks && j != i && !TaskOf(s, j, t);
    }
  }

  lemma LeftBacked(s: State, i: nat, reply: Reply, t: string)
    requires Inv(s) && Enabled(s, Leave(i, reply)) && t != "" && Standing(s, t)
    requires Pending(Left(s, i, reply), t) && !Standing(Left(s, i, reply), t)
    ensures Severs(s, Leave(i, reply), t, Retry)
  {
    var ref := s.tasks[i].job.ref;
    LeftLocks(s, i, reply);
    SameStanding(Returned(s, ref, reply), Left(s, i, reply), t);
    ReleasedOwn(s, ref, reply, t);
    DroppedPending(s, i, reply, t);
  }

  lemma UnlockBacked(s: State, ref: Ref, reply: Reply, t: string)
    requires AtHome(s) && Standing(s, t) && Pending(s, t) && !Standing(Release'(s, ref, reply), t)
    ensures Ends(s, Unlock(ref, reply), t)
  {
    ReleasedOwn(s, ref, reply, t);
    assert Severs(s, Unlock(ref, reply), t, Button);
  }

  lemma FreedBacked(s: State, slot: Slot, reply: Reply, t: string)
    requires AtHome(s) && Standing(s, t) && Pending(s, t) && !Standing(Freed(s, slot, reply), t)
    ensures Ends(s, ForceUnlock(slot, reply), t)
  {
    assert Severs(s, ForceUnlock(slot, reply), t, Clearing);
  }

  lemma GivenUpBacked(s: State, e: Step, t: string)
    requires Inv(s) && Enabled(s, e) && t != "" && Standing(s, t) && (e.Undo? || e.Leave?)
    requires Pending(Apply(s, e), t) && !Standing(Apply(s, e), t)
    ensures Ends(s, e, t)
  {
    if e.Undo? {
      UndoneBacked(s, e.h, e.reply, t);
    } else {
      LeftBacked(s, e.i, e.reply, t);
    }
  }

  lemma RemovedBacked(s: State, e: Step, t: string)
    requires AtHome(s) && Standing(s, t) && Pending(s, t) && (e.Unlock? || e.ForceUnlock?)
    requires !Standing(Apply(s, e), t)
    ensures Ends(s, e, t)
  {
    match e
    case Unlock(ref, reply) => UnlockBacked(s, ref, reply, t);
    case ForceUnlock(slot, reply) => FreedBacked(s, slot, reply, t);
  }

  lemma LostBacked(s: State, e: Step, t: string)
    requires Inv(s) && Enabled(s, e) && t != "" && Pending(s, t) && Standing(s, t) && !e.Begin?
    requires Pending(Apply(s, e), t) && !Standing(Apply(s, e), t)
    ensures Ends(s, e, t)
  {
    if e.Unlock? || e.ForceUnlock? {
      RemovedBacked(s, e, t);
    } else if TouchesLocks(e) {
      GivenUpBacked(s, e, t);
    } else {
      QuietStanding(s, e, t);
    }
  }

  /** While a token is pending its lock stands, unless the step ends its lease. */
  lemma StepBacked(s: State, e: Step, t: string)
    requires Inv(s) && Enabled(s, e) && t != "" && (Pending(s, t) ==> Standing(s, t))
    ensures Ends(s, e, t) || (Pending(Apply(s, e), t) ==> Standing(Apply(s, e), t))
  {
    var s' := Apply(s, e);
    if Pending(s', t) && !Standing(s', t) {
      if e.Begin? {
        BegunBacked(s, e.h, e.job, e.ttl, e.reply, t);
      } else {
        PendingBefore(s, e, t);
        LostBacked(s, e, t);
      }
    }
  }

  lemma {:induction false} RunBacked(s: State, steps: seq<Step>, t: string)
    requires Inv(s) && Legal(s, steps) && t != "" && (Pending(s, t) ==> Standing(s, t)) && !Severed(s, steps, t)
    ensures Pending(Exec(s, steps), t) ==> Standing(Exec(s, steps), t)
    decreases steps
  {
    if steps != [] {
      StepBacked(s, steps[0], t);
      StepKeeps(s, steps[0]);
      RunBacked(Apply(s, steps[0]), steps[1..], t);
    }
  }

  // ---------------------------------------------------------------- and never again after

  lemma FewerGone(s: State, s': State, t: string)
    requires s'.home == s.home && Fewer(s.locks, s.now, s'.locks, s'.now) && !Standing(s, t)
    ensures !Standing(s', t)
  {
  }

  lemma BegunGone(s: State, h: nat, job: Job, ttl: nat, reply: Reply, t: string)
    requires Enabled(s, Begin(h, job, ttl, reply)) && t in s.home && !Standing(s, t)
    ensures var s' := Begun(s, h, job, ttl, reply); t in s'.home && !Standing(s', t)
  {
  }

  lemma FreedFewer(s: State, slot: Slot, reply: Reply)
    ensures Fewer(s.locks, s.now, Freed(s, slot, reply).locks, s.now)
  {
  }

  lemma GoneStays(s: State, e: Step, t: string)
    requires Enabled(s, e) && t in s.home && !Standing(s, t)
    ensures t in Apply(s, e).home && !Standing(Apply(s, e), t)
  {
    if !TouchesLocks(e) {
      QuietStanding(s, e, t);
    } else {
      match e
      case Begin(h, job, ttl, reply) => BegunGone(s, h, job, ttl, reply, t);
      case Undo(h, reply) =>
        UndoneLocks(s, h, reply);
        ReleaseFewer(s, s.handlers[h].job.ref, reply);
        FewerGone(s, Undone(s, h, reply), t);
      case Leave(i, reply) =>
        LeftLocks(s, i, reply);
        ReturnFewer(s, s.tasks[i].job.ref, reply);
        FewerGone(s, Left(s, i, reply), t);
      case Unlock(ref, reply) =>
        ReleaseFewer(s, ref, reply);
        FewerGone(s, Release'(s, ref, reply), t);
      case ForceUnlock(slot, reply) =>
        FreedFewer(s, slot, reply);
        FewerGone(s, Freed(s, slot, reply), t);
    }
  }

  lemma ReleasedGone(s: State, ref: Ref, reply: Reply)
    requires AtHome(s) && !reply.Refused? && HeldBy(s.locks, ref, s.now)
    ensures ref.token in s.home && !Standing(Release'(s, ref, reply), ref.token)
  {
    StandsAt(s, ref.slot);
    ReleasedLocks(s, ref, reply);
  }

  lemma TakenOverGone(s: State, h: nat, job: Job, ttl: nat, reply: Reply, t: string)
    requires AtHome(s) && Enabled(s, Begin(h, job, ttl, reply)) && Severs(s, Begin(h, job, ttl, reply), t, Expiry)
    ensures var s' := Begun(s, h, job, ttl, reply); t in s'.home && !Standing(s', t)
  {
    StandsAt(s, job.ref.slot);
  }

  lemma EndsGone(s: State, e: Step, t: string, k: End)
    requires AtHome(s) && Enabled(s, e) && Severs(s, e, t, k)
    ensures t in Apply(s, e).home && !Standing(Apply(s, e), t)
  {
    match e
    case Begin(h, job, ttl, reply) => TakenOverGone(s, h, job, ttl, reply, t);
    case Undo(h, reply) =>
      UndoneLocks(s, h, reply);
      ReleasedGone(s, s.handlers[h].job.ref, reply);
      SameStanding(Release'(s, s.handlers[h].job.ref, reply), Undone(s, h, reply), t);
    case Leave(i, reply) =>
      LeftLocks(s, i, reply);
      ReleasedGone(s, s.tasks[i].job.ref, reply);
      SameStanding(Returned(s, s.tasks[i].job.ref, reply), Left(s, i, reply), t);
    case Unlock(ref, reply) => ReleasedGone(s, ref, reply);
    case ForceUnlock(slot, reply) => StandsAt(s, slot);
  }

  lemma {:induction false} RunGone(s: State, steps: seq<Step>, t: string)
    requires Inv(s) && Legal(s, steps) && t in s.home && !Standing(s, t)
    ensures !Standing(Exec(s, steps), t)
    decreases steps
  {
    if steps != [] {
      GoneStays(s, steps[0], t);
      StepKeeps(s, steps[0]);
      RunGone(Apply(s, steps[0]), steps[1..], t);
    }
  }

  lemma {:induction false} SeveredGone(s: State, steps: seq<Step>, t: string)
    requires Inv(s) && Legal(s, steps) && t != "" && Severed(s, steps, t)
    ensures !Standing(Exec(s, steps), t)
    decreases steps
  {
    StepKeeps(s, steps[0]);
    if Ends(s, steps[0], t) {
      var k :| Severs(s, steps[0], t, k);
      EndsGone(s, steps[0], t, k);
      RunGone(Apply(s, steps[0]), steps[1..], t);
    } else {
      SeveredGone(Apply(s, steps[0]), steps[1..], t);
    }
  }

  lemma TaskStands(s: State, i: nat)
    requires AtHome(s) && i in s.tasks && s.tasks[i].job.ref.token != ""
    ensures Pending(s, s.tasks[i].job.ref.token)
    ensures Standing(s, s.tasks[i].job.ref.token) <==> Stands(s, s.tasks[i].job.ref)
  {
    TaskPends(s, i, s.tasks[i].job.ref.token);
  }

  /** In every run a task still has its slot's lock, expired or not, exactly when no step has ended its
      lease. */
  lemma StandsUnlessSevered(steps: seq<Step>, i: nat)
    requires Legal(INIT, steps) && i in Exec(INIT, steps).tasks
    requires Exec(INIT, steps).tasks[i].job.ref.token != ""
    ensures var s := Exec(INIT, steps); var ref := s.tasks[i].job.ref;
            Stands(s, ref) <==> !Severed(INIT, steps, ref.token)
  {
    var s := Exec(INIT, steps);
    var t := s.tasks[i].job.ref.token;
    Reached(steps);
    TaskStands(s, i);
    if Severed(INIT, steps, t) {
      SeveredGone(INIT, steps, t);
    } else {
      RunBacked(INIT, steps, t);
    }
  }

  /** Two tasks of one slot at once: the lease of at least one has been ended, and their tokens differ. */
  lemma OverlapSevered(steps: seq<Step>, i: nat, j: nat)
    requires Legal(INIT, steps) && i in Exec(INIT, steps).tasks && j in Exec(INIT, steps).tasks && i != j
    requires var s := Exec(INIT, steps); var (a, b) := (s.tasks[i].job.ref, s.tasks[j].job.ref);
             a.slot == b.slot && a.token != "" && b.token != ""
    ensures var s := Exec(INIT, steps); var (a, b) := (s.tasks[i].job.ref, s.tasks[j].job.ref);
            a.token != b.token && (Severed(INIT, steps, a.token) || Severed(INIT, steps, b.token))
  {
    Reached(steps);
    StandsUnlessSevered(steps, i);
    StandsUnlessSevered(steps, j);
  }

  // ---------------------------------------------------------------- workers at the same time

  predicate Running(b: Task) {
    b.phase.Body? || b.phase.Tracks? || b.phase.Sending?
  }

  predicate Rivals(a: Task, b: Task) {
    && Running(a) && Running(b) && a.job.ref.slot == b.job.ref.slot
    && a.job.ref.token != "" && b.job.ref.token != ""
  }

  /** No two workers run under a lock of one user on one bot. */
  ghost predicate OneAtATime(s: State) {
    forall i, j :: i in s.tasks && j in s.tasks && Rivals(s.tasks[i], s.tasks[j]) ==> i == j
  }

  ghost predicate Only(s: State, e: Step, ends: set<End>) {
    forall t, k :: Severs(s, e, t, k) ==> k in ends
  }

  /** No step of the run ends a lease in any other way. */
  ghost predicate OnlyEnds(s: State, steps: seq<Step>, ends: set<End>)
    requires Legal(s, steps)
    decreases steps
  {
    steps == [] || (Only(s, steps[0], ends) && OnlyEnds(Apply(s, steps[0]), steps[1..], ends))
  }

  lemma {:induction false} NoneSevered(s: State, steps: seq<Step>, t: string)
    requires Legal(s, steps) && OnlyEnds(s, steps, {})
    ensures !Severed(s, steps, t)
    decreases steps
  {
    if steps != [] {
      NoneSevered(Apply(s, steps[0]), steps[1..], t);
    }
  }

  lemma {:induction false} OnlyChain(s: State, a: seq<Step>, b: seq<Step>, ends: set<End>)
    requires Legal(s, a) && Legal(Exec(s, a), b) && OnlyEnds(s, a, ends) && OnlyEnds(Exec(s, a), b, ends)
    ensures Legal(s, a + b) && OnlyEnds(s, a + b, ends)
    decreases a
  {
    Chain(s, a, b);
    if a == [] {
      assert a + b == b;
    } else {
      OnlyChain(Apply(s, a[0]), a[1..], b, ends);
      assert (a + b)[0] == a[0] && (a + b)[1..] == a[1..] + b;
    }
  }

  lemma {:induction false} OnlyQuiet(s: State, steps: seq<Step>, ends: set<End>)
    requires Legal(s, steps) && forall k :: 0 <= k < |steps| ==> !TouchesLocks(steps[k])
    ensures OnlyEnds(s, steps, ends)
    decreases steps
  {
    if steps != [] {
      assert !TouchesLocks(steps[0]);
      OnlyQuiet(Apply(s, steps[0]), steps[1..], ends);
    }
  }

  lemma OnlyOne(s: State, e: Step, ends: set<End>)
    requires Enabled(s, e) && Only(s, e, ends)
    ensures Legal(s, [e]) && OnlyEnds(s, [e], ends)
  {
    Run1(s, e);
    assert [e][1..] == [];
  }

  /** A first job is being worked on, and its lock does not stand in the way. */
  ghost predicate Alone(s: State, a: Job, k: End) {
    && s.handlers == map[] && s.home == map[a.ref.token := a.ref] && s.flags.Keys <= {a.ref}
    && 0 in s.tasks && s.tasks == map[0 := s.tasks[0]] && s.tasks[0].job == a && s.tasks[0].phase == Body
    && !Held(s.locks, a.ref.slot, s.now) && (k != Expiry ==> s.locks == map[])
  }

  predicate Two(a: Job, b: Job) {
    && a.kind.Fetch? && b.kind.Fetch? && a.ref.slot == b.ref.slot && WellQueued(a) && WellQueued(b)
    && a.ref.token != b.ref.token && a.ref.token != "" && b.ref.token != "" && a.ref.scene != ""
  }

  function Ticks(n: nat): seq<Step> {
    if n == 0 then [] else [Tick] + Ticks(n - 1)
  }

  const RUN_FIRST: seq<Step> := [Start(0), Check(0, Delivered)]

  /** How the first job comes to be worked on without its lease. */
  function Opening(a: Job, k: End): seq<Step> {
    match k
    case Button => QueuedRun(a, Delivered) + RUN_FIRST + [Flag(a.ref, Delivered)] + [Unlock(a.ref, Delivered)]
    case Clearing => QueuedRun(a, Delivered) + RUN_FIRST + [ForceUnlock(a.ref.slot, Delivered)]
    case Expiry => QueuedRun(a, Delivered) + RUN_FIRST + Ticks(10)
    case Retry => QueuedRun(a, Delivered) + RUN_FIRST + [Finish(0, true)] + [Leave(0, Delivered)] + RUN_FIRST
    case Takeback => QueuedRun(a, Lost) + [Undo(0, Delivered)] + RUN_FIRST
  }

  lemma {:induction false} TicksState(s: State, n: nat)
    ensures Legal(s, Ticks(n)) && Exec(s, Ticks(n)) == s.(now := s.now + n)
    ensures forall k :: 0 <= k < |Ticks(n)| ==> !TouchesLocks(Ticks(n)[k])
    decreases n
  {
    if n > 0 {
      TicksState(Ticked(s), n - 1);
      assert Ticks(n)[1..] == Ticks(n - 1);
    }
  }

  lemma QueuedOnly(a: Job, reply: Reply, ends: set<End>)
    requires a.ref.token != "" && WellQueued(a) && a.kind.Fetch? && !reply.Refused?
    ensures Legal(INIT, QueuedRun(a, reply)) && OnlyEnds(INIT, QueuedRun(a, reply), ends)
  {
    QueuedState(a, reply);
    var rest := [Post(0, true), Enqueue(0, 0, reply)];
    assert QueuedRun(a, reply)[1..] == rest;
    OnlyQuiet(Apply(INIT, Take(0, a)), rest, ends);
  }

  /** The first job in its body, its lock still there. */
  lemma FirstState(a: Job, ends: set<End>)
    requires a.ref.token != "" && WellQueued(a) && a.kind.Fetch?
    ensures var run := QueuedRun(a, Delivered) + RUN_FIRST;
            && Legal(INIT, run) && OnlyEnds(INIT, run, ends)
            && var s := Exec(INIT, run);
               && s.handlers == map[] && s.home == map[a.ref.token := a.ref] && s.flags == map[] && s.now == 0
               && s.tasks == map[0 := Task(a, 1, Body, 0)]
               && s.locks == map[a.ref.slot := Lock(a.ref.scene, a.ref.token, 10)]
  {
    QueuedState(a, Delivered);
    QueuedOnly(a, Delivered, ends);
    var s := Exec(INIT, QueuedRun(a, Delivered));
    BodyState(s, Task(a, 1, Queued, 0));
    OnlyQuiet(s, RUN_FIRST, ends);
    OnlyChain(INIT, QueuedRun(a, Delivered), RUN_FIRST, ends);
    Chain(INIT, QueuedRun(a, Delivered), RUN_FIRST);
  }

  /** One more step of an opening. */
  lemma OneMore(run: seq<Step>, e: Step, ends: set<End>)
    requires Legal(INIT, run) && OnlyEnds(INIT, run, ends)
    requires Enabled(Exec(INIT, run), e) && Only(Exec(INIT, run), e, ends)
    ensures Legal(INIT, run + [e]) && OnlyEnds(INIT, run + [e], ends)
    ensures Exec(INIT, run + [e]) == Apply(Exec(INIT, run), e)
  {
    OnlyOne(Exec(INIT, run), e, ends);
    OnlyChain(INIT, run, [e], ends);
    Extend(INIT, run, e);
  }

  /** A worker takes up the first job. */
  lemma RestartFirst(run: seq<Step>, a: Job, retries: nat, ends: set<End>)
    requires Legal(INIT, run) && OnlyEnds(INIT, run, ends) && a.kind.Fetch?
    requires var s := Exec(INIT, run);
             && s.tasks == map[0 := Task(a, retries, Queued, 0)] && s.flags == map[] && s.handlers == map[]
             && s.home == map[a.ref.token := a.ref] && s.locks == map[]
    ensures Legal(INIT, run + RUN_FIRST) && OnlyEnds(INIT, run + RUN_FIRST, ends)
    ensures forall k :: Alone(Exec(INIT, run + RUN_FIRST), a, k)
  {
    var s := Exec(INIT, run);
    BodyState(s, Task(a, retries, Queued, 0));
    OnlyQuiet(s, RUN_FIRST, ends);
    OnlyChain(INIT, run, RUN_FIRST, ends);
    Chain(INIT, run, RUN_FIRST);
  }

  lemma ButtonOpens(a: Job)
    requires a.ref.token != "" && WellQueued(a) && a.kind.Fetch?
    ensures Legal(INIT, Opening(a, Button)) && OnlyEnds(INIT, Opening(a, Button), {Button})
    ensures Alone(Exec(INIT, Opening(a, Button)), a, Button)
  {
    var run := QueuedRun(a, Delivered) + RUN_FIRST;
    FirstState(a, {Button});
    OneMore(run, Flag(a.ref, Delivered), {Button});
    OneMore(run + [Flag(a.ref, Delivered)], Unlock(a.ref, Delivered), {Button});
  }

  lemma ClearingOpens(a: Job)
    requires a.ref.token != "" && WellQueued(a) && a.kind.Fetch?
    ensures Legal(INIT, Opening(a, Clearing)) && OnlyEnds(INIT, Opening(a, Clearing), {Clearing})
    ensures Alone(Exec(INIT, Opening(a, Clearing)), a, Clearing)
  {
    FirstState(a, {Clearing});
    OneMore(QueuedRun(a, Delivered) + RUN_FIRST, ForceUnlock(a.ref.slot, Delivered), {Clearing});
  }

  lemma ExpiryOpens(a: Job)
    requires a.ref.token != "" && WellQueued(a) && a.kind.Fetch?
    ensures Legal(INIT, Opening(a, Expiry)) && OnlyEnds(INIT, Opening(a, Expiry), {Expiry})
    ensures Alone(Exec(INIT, Opening(a, Expiry)), a, Expiry)
  {
    var run := QueuedRun(a, Delivered) + RUN_FIRST;
    FirstState(a, {Expiry});
    var s := Exec(INIT, run);
    TicksState(s, 10);
    OnlyQuiet(s, Ticks(10), {Expiry});
    OnlyChain(INIT, run, Ticks(10), {Expiry});
    Chain(INIT, run, Ticks(10));
  }

  lemma RetryOpens(a: Job)
    requires a.ref.token != "" && a.ref.scene != "" && WellQueued(a) && a.kind.Fetch?
    ensures Legal(INIT, Opening(a, Retry)) && OnlyEnds(INIT, Opening(a, Retry), {Retry})
    ensures Alone(Exec(INIT, Opening(a, Retry)), a, Retry)
  {
    var run := QueuedRun(a, Delivered) + RUN_FIRST;
    FirstState(a, {Retry});
    OneMore(run, Finish(0, true), {Retry});
    var s := Exec(INIT, run + [Finish(0, true)]);
    assert s.tasks == map[0 := Task(a, 1, Leaving(true), 0)];
    var run' := run + [Finish(0, true)] + [Leave(0, Delivered)];
    OneMore(run + [Finish(0, true)], Leave(0, Delivered), {Retry});
    RestartFirst(run', a, 0, {Retry});
  }

  lemma TakebackOpens(a: Job)
    requires a.ref.token != "" && WellQueued(a) && a.kind.Fetch?
    ensures Legal(INIT, Opening(a, Takeback)) && OnlyEnds(INIT, Opening(a, Takeback), {Takeback})
    ensures Alone(Exec(INIT, Opening(a, Takeback)), a, Takeback)
  {
    QueuedState(a, Lost);
    QueuedOnly(a, Lost, {Takeback});
    OneMore(QueuedRun(a, Lost), Undo(0, Delivered), {Takeback});
    RestartFirst(QueuedRun(a, Lost) + [Undo(0, Delivered)], a, 1, {Takeback});
  }

  lemma Opens(a: Job, k: End)
    requires a.ref.token != "" && a.ref.scene != "" && WellQueued(a) && a.kind.Fetch?
    ensures Legal(INIT, Opening(a, k)) && OnlyEnds(INIT, Opening(a, k), {k})
    ensures Alone(Exec(INIT, Opening(a, k)), a, k)
  {
    match k
    case Button => ButtonOpens(a);
    case Clearing => ClearingOpens(a);
    case Expiry => ExpiryOpens(a);
    case Retry => RetryOpens(a);
    case Takeback => TakebackOpens(a);
  }

  const POST_SECOND: seq<Step> := [Post(1, true), Enqueue(1, 1, Delivered)]
  const RUN_SECOND: seq<Step> := [Start(1), Check(1, Delivered)]

  /** The user starts a second job, and a worker takes it up. */
  function SecondJob(b: Job): seq<Step> {
    [Take(1, b)] + (POST_SECOND + RUN_SECOND)
  }

  lemma SecondQueued(s: State, b: Job)
    requires s.handlers == map[1 := Handler(b, Holding)] && 1 !in s.tasks && b.kind.Fetch?
    ensures Legal(s, POST_SECOND)
    ensures var s' := Exec(s, POST_SECOND);
            s'.tasks == s.tasks[1 := Task(b, 1, Queued, 0)] && s'.flags == s.flags
  {
    Run2(s, Post(1, true), Enqueue(1, 1, Delivered));
  }

  lemma SecondWorked(s: State, b: Job)
    requires 1 in s.tasks && s.tasks[1] == Task(b, 1, Queued, 0) && b.kind.Fetch? && b.ref !in s.flags
    ensures Legal(s, RUN_SECOND)
    ensures Exec(s, RUN_SECOND).tasks == s.tasks[1 := Task(b, 1, Body, 0)]
  {
    Run2(s, Start(1), Check(1, Delivered));
    assert s.tasks[1 := Task(b, 1, Started, 0)][1 := Task(b, 1, Body, 0)] == s.tasks[1 := Task(b, 1, Body, 0)];
  }

  lemma SecondTakes(s: State, a: Job, b: Job, k: End)
    requires Alone(s, a, k) && Two(a, b)
    ensures Enabled(s, Take(1, b)) && Only(s, Take(1, b), {k})
    ensures var s1 := Apply(s, Take(1, b));
            s1.handlers == map[1 := Handler(b, Holding)] && s1.tasks == s.tasks && s1.flags == s.flags
  {
  }

  lemma SecondEnds(s: State, a: Job, b: Job)
    requires 0 in s.tasks && s.tasks[0].job == a && s.tasks[0].phase == Body && Two(a, b)
    requires 1 in s.tasks && s.tasks[1] == Task(b, 1, Body, 0)
    ensures !OneAtATime(s)
  {
    assert Rivals(s.tasks[0], s.tasks[1]);
  }

  lemma SecondQuiet(s: State, steps: seq<Step>, ends: set<End>)
    requires Legal(s, steps) && (steps == POST_SECOND || steps == RUN_SECOND)
    ensures OnlyEnds(s, steps, ends)
  {
    OnlyQuiet(s, steps, ends);
  }

  /** The steps after the second job's lock. */
  lemma SecondGoesOn(s: State, b: Job, ends: set<End>)
    requires s.handlers == map[1 := Handler(b, Holding)] && 1 !in s.tasks && b.kind.Fetch? && b.ref !in s.flags
    ensures var steps := POST_SECOND + RUN_SECOND;
            && Legal(s, steps) && OnlyEnds(s, steps, ends)
            && Exec(s, steps).tasks == s.tasks[1 := Task(b, 1, Body, 0)]
  {
    SecondQueued(s, b);
    var s' := Exec(s, POST_SECOND);
    SecondWorked(s', b);
    SecondQuiet(s, POST_SECOND, ends);
    SecondQuiet(s', RUN_SECOND, ends);
    Chain(s, POST_SECOND, RUN_SECOND);
    OnlyChain(s, POST_SECOND, RUN_SECOND, ends);
    assert s'.tasks[1 := Task(b, 1, Body, 0)] == s.tasks[1 := Task(b, 1, Body, 0)];
  }

  lemma SecondRuns(s: State, a: Job, b: Job, k: End)
    requires Alone(s, a, k) && Two(a, b)
    ensures Legal(s, SecondJob(b)) && OnlyEnds(s, SecondJob(b), {k}) && !OneAtATime(Exec(s, SecondJob(b)))
  {
    var steps := POST_SECOND + RUN_SECOND;
    SecondTakes(s, a, b, k);
    var s1 := Apply(s, Take(1, b));
    OnlyOne(s, Take(1, b), {k});
    Run1(s, Take(1, b));
    SecondGoesOn(s1, b, {k});
    SecondEnds(Exec(s1, steps), a, b);
    Chain(s, [Take(1, b)], steps);
    OnlyChain(s, [Take(1, b)], steps, {k});
  }

  /** For each end there is a run in which it is the only one, and two workers run at once. */
  lemma EveryEndOverlaps(a: Job, b: Job, k: End)
    requires Two(a, b)
    ensures var run := Opening(a, k) + SecondJob(b);
            Legal(INIT, run) && OnlyEnds(INIT, run, {k}) && !OneAtATime(Exec(INIT, run))
  {
    Opens(a, k);
    SecondRuns(Exec(INIT, Opening(a, k)), a, b, k);
    Chain(INIT, Opening(a, k), SecondJob(b));
    OnlyChain(INIT, Opening(a, k), SecondJob(b), {k});
  }

  lemma {:induction false} OnlyMore(s: State, steps: seq<Step>, ends: set<End>, more: set<End>)
    requires Legal(s, steps) && OnlyEnds(s, steps, ends) && ends <= more
    ensures OnlyEnds(s, steps, more)
    decreases steps
  {
    if steps != [] {
      OnlyMore(Apply(s, steps[0]), steps[1..], ends, more);
    }
  }

  lemma NoEndOneAtATime(steps: seq<Step>)
    requires Legal(INIT, steps) && OnlyEnds(INIT, steps, {})
    ensures OneAtATime(Exec(INIT, steps))
  {
    var s := Exec(INIT, steps);
    forall i, j | i in s.tasks && j in s.tasks && Rivals(s.tasks[i], s.tasks[j])
      ensures i == j
    {
      NoneSevered(INIT, steps, s.tasks[i].job.ref.token);
      NoneSevered(INIT, steps, s.tasks[j].job.ref.token);
      if i != j {
        OverlapSevered(steps, i, j);
      }
    }
  }

  /** Over all runs in which leases end early in these ways only: no two workers of one user on one bot
      ever run at once if and only if there is no such way. */
  lemma OneAtATimeIff(ends: set<End>)
    ensures (forall steps :: Legal(INIT, steps) && OnlyEnds(INIT, steps, ends) ==> OneAtATime(Exec(INIT, steps)))
       <==> ends == {}
  {
    if ends == {} {
      forall steps | Legal(INIT, steps) && OnlyEnds(INIT, steps, ends)
        ensures OneAtATime(Exec(INIT, steps))
      {
        NoEndOneAtATime(steps);
      }
    } else {
      var k :| k in ends;
      var (a, b) := (MainJob(1, "a", Fetch), MainJob(1, "b", Fetch));
      EveryEndOverlaps(a, b, k);
      OnlyMore(INIT, Opening(a, k) + SecondJob(b), {k}, ends);
    }
  }
}
