/** When a live lock has no carrier, one, or two, told from the steps of the run alone: which step lost
    the last carrier of a token, and which put it on the queue behind its handler's back. */
module Stranding {
  import opened Locks
  import opened Protocol
  import opened Ownership

  // ---------------------------------------------------------------- steps that matter

  predicate HandlerOf(s: State, h: nat, t: string) {
    h in s.handlers && s.handlers[h].job.ref.token == t
  }

  predicate TaskOf(s: State, i: nat, t: string) {
    i in s.tasks && s.tasks[i].job.ref.token == t
  }

  /** The deferred release is the last thing that happens to the task. */
  predicate Drops(task: Task) {
    !(task.phase.Leaving? && task.phase.again && task.retries > 0)
  }

  /** The step leaves the token to nobody and does not see its lock released: an acquisition or a
      refused carousel, a refused release, a crash or a deletion, with no other carrier. */
  ghost predicate Strands(s: State, e: Step, t: string) {
    match e
    case Begin(_, job, _, reply) => reply.Lost? && job.ref.token == t && !Held(s.locks, job.ref.slot, s.now)
    case Enqueue(h, _, reply) => reply.Refused? && HandlerOf(s, h, t) && s.handlers[h].job.kind.Carousel?
    case Undo(h, reply) => reply.Refused? && HandlerOf(s, h, t) && !TaskCarries(s, t)
    case HandlerCrash(h) => HandlerOf(s, h, t) && !TaskCarries(s, t)
    case Leave(i, reply) =>
      && TaskOf(s, i, t) && Drops(s.tasks[i]) && (reply.Refused? || s.tasks[i].job.ref.scene == "")
      && !HandlerCarries(s, t)
    case WorkerCrash(i, back) => !back && TaskOf(s, i, t) && !HandlerCarries(s, t)
    case Discard(i, _, _) => TaskOf(s, i, t) && !HandlerCarries(s, t)
    case _ => false
  }

  /** The queue took the job and its reply was lost: the handler still carries the token. */
  predicate Splits(s: State, e: Step, t: string) {
    e.Enqueue? && e.reply.Lost? && HandlerOf(s, e.h, t) && !s.handlers[e.h].job.kind.Carousel?
  }

  /** A carrier of the token goes. */
  predicate Departs(s: State, e: Step, t: string) {
    match e
    case Undo(h, _) => HandlerOf(s, h, t)
    case HandlerCrash(h) => HandlerOf(s, h, t)
    case Leave(i, _) => TaskOf(s, i, t) && Drops(s.tasks[i])
    case WorkerCrash(i, back) => !back && TaskOf(s, i, t)
    case Discard(i, _, _) => TaskOf(s, i, t)
    case _ => false
  }

  // ---------------------------------------------------------------- runs

  /** Some step of the run strands the token. */
  ghost predicate Stranded(s: State, steps: seq<Step>, t: string)
    requires Legal(s, steps)
    decreases steps
  {
    steps != [] && (Strands(s, steps[0], t) || Stranded(Apply(s, steps[0]), steps[1..], t))
  }

  /** No carrier of the token goes in the run. */
  ghost predicate Stays(s: State, steps: seq<Step>, t: string)
    requires Legal(s, steps)
    decreases steps
  {
    steps == [] || (!Departs(s, steps[0], t) && Stays(Apply(s, steps[0]), steps[1..], t))
  }

  /** Some step of the run splits the token, and no carrier went since. */
  ghost predicate Doubled(s: State, steps: seq<Step>, t: string)
    requires Legal(s, steps)
    decreases steps
  {
    && steps != []
    && var s' := Apply(s, steps[0]);
       (Splits(s, steps[0], t) && Stays(s', steps[1..], t)) || Doubled(s', steps[1..], t)
  }

  // ---------------------------------------------------------------- stranded tokens

  lemma HandlerStrands(s: State, e: Step, t: string)
    requires Enabled(s, e) && t != "" && (e.Begin? || e.Enqueue? || e.Undo? || e.HandlerCrash?)
    ensures t in Apply(s, e).orphans <==> t in s.orphans || Strands(s, e, t)
  {
    match e
    case Begin(_, _, _, _) =>
    case Enqueue(_, _, _) =>
    case Undo(_, _) =>
    case HandlerCrash(_) =>
  }

  lemma TaskStrands(s: State, e: Step, t: string)
    requires Enabled(s, e) && t != "" && (e.Leave? || e.WorkerCrash? || e.Discard?)
    ensures t in Apply(s, e).orphans <==> t in s.orphans || Strands(s, e, t)
  {
    match e
    case Leave(_, _) =>
    case WorkerCrash(_, _) =>
    case Discard(_, _, _) =>
  }

  lemma OthersStrandNothing(s: State, e: Step)
    requires Enabled(s, e)
    requires !(e.Begin? || e.Enqueue? || e.Undo? || e.HandlerCrash? || e.Leave? || e.WorkerCrash? || e.Discard?)
    ensures Apply(s, e).orphans == s.orphans
  {
  }

  lemma StepStrands(s: State, e: Step, t: string)
    requires Enabled(s, e) && t != ""
    ensures t in Apply(s, e).orphans <==> t in s.orphans || Strands(s, e, t)
  {
    if e.Begin? || e.Enqueue? || e.Undo? || e.HandlerCrash? {
      HandlerStrands(s, e, t);
    } else if e.Leave? || e.WorkerCrash? || e.Discard? {
      TaskStrands(s, e, t);
    } else {
      OthersStrandNothing(s, e);
    }
  }

  lemma {:induction false} RunStrands(s: State, steps: seq<Step>, t: string)
    requires Legal(s, steps) && t != ""
    ensures t in Exec(s, steps).orphans <==> t in s.orphans || Stranded(s, steps, t)
    decreases steps
  {
    if steps != [] {
      StepStrands(s, steps[0], t);
      RunStrands(Apply(s, steps[0]), steps[1..], t);
    }
  }

  // ---------------------------------------------------------------- doubled tokens

  ghost predicate Both(s: State, t: string) {
    HandlerCarries(s, t) && TaskCarries(s, t)
  }

  lemma CarriesMeans(s: State, t: string)
    ensures HandlerCarries(s, t) <==> exists h: nat :: HandlerOf(s, h, t)
    ensures TaskCarries(s, t) <==> exists i: nat :: TaskOf(s, i, t)
  {
    if HandlerCarries(s, t) {
      var h :| h in s.handlers && s.handlers[h].job.ref.token == t;
      assert HandlerOf(s, h, t);
    }
    if TaskCarries(s, t) {
      var i :| i in s.tasks && s.tasks[i].job.ref.token == t;
      assert TaskOf(s, i, t);
    }
  }

  /** Handlers and tasks keep their jobs. */
  ghost predicate SameCarriers(s: State, s': State) {
    && s'.handlers.Keys == s.handlers.Keys && s'.tasks.Keys == s.tasks.Keys
    && (forall h :: h in s.handlers ==> s'.handlers[h].job == s.handlers[h].job)
    && (forall i :: i in s.tasks ==> s'.tasks[i].job == s.tasks[i].job)
  }

  lemma SameBoth(s: State, s': State, t: string)
    requires SameCarriers(s, s')
    ensures Both(s', t) <==> Both(s, t)
  {
    forall h
      ensures HandlerOf(s', h, t) <==> HandlerOf(s, h, t)
    {
    }
    forall i
      ensures TaskOf(s', i, t) <==> TaskOf(s, i, t)
    {
    }
    CarriesMeans(s, t);
    CarriesMeans(s', t);
  }

  /** A handler that is not undoing shares its token with no task. */
  lemma Alone(s: State, h: nat, t: string)
    requires Inv(s) && t != "" && HandlerOf(s, h, t) && !s.handlers[h].phase.Undoing?
    ensures !TaskCarries(s, t)
  {
    forall i | i in s.tasks
      ensures s.tasks[i].job.ref.token != t
    {
      NoTaskYet(s, h, i);
    }
  }

  lemma OnlyHandler(s: State, h: nat, t: string)
    requires Inv(s) && t != "" && HandlerOf(s, h, t)
    ensures forall g :: HandlerOf(s, g, t) ==> g == h
  {
  }

  lemma OnlyTask(s: State, i: nat, t: string)
    requires Inv(s) && t != "" && TaskOf(s, i, t)
    ensures forall j :: TaskOf(s, j, t) ==> j == i
  {
  }

  /** A handler leaves, the tasks stay. */
  lemma HandlerGone(s: State, s': State, h: nat, t: string)
    requires Inv(s) && t != "" && h in s.handlers && s'.handlers == s.handlers - {h} && s'.tasks == s.tasks
    ensures Both(s', t) <==> Both(s, t) && !HandlerOf(s, h, t)
  {
    if HandlerOf(s, h, t) {
      OnlyHandler(s, h, t);
    }
    if g :| g in s.handlers && s.handlers[g].job.ref.token == t && g != h {
      HandlerWitness(s', g);
    }
  }

  lemma TaskGone(s: State, s': State, i: nat, t: string)
    requires Inv(s) && t != "" && i in s.tasks && s'.tasks == s.tasks - {i} && s'.handlers == s.handlers
    ensures Both(s', t) <==> Both(s, t) && !TaskOf(s, i, t)
  {
    if TaskOf(s, i, t) {
      OnlyTask(s, i, t);
    }
    if j :| j in s.tasks && s.tasks[j].job.ref.token == t && j != i {
      TaskWitness(s', j);
    }
  }

  lemma HandlerJoins(s: State, s': State, h: nat, a: Handler, t: string)
    requires Inv(s) && t != "" && h !in s.handlers && s'.handlers == s.handlers[h := a] && s'.tasks == s.tasks
    requires a.job.ref.token == "" || a.job.ref.token !in s.home
    ensures Both(s', t) <==> Both(s, t)
  {
    assert TaskCarries(s, t) ==> t in s.home;
    if g :| g in s.handlers && s.handlers[g].job.ref.token == t {
      HandlerWitness(s', g);
    }
  }

  lemma EnqueueOthers(s: State, h: nat, i: nat, reply: Reply, t: string)
    requires h in s.handlers && i !in s.tasks && !HandlerOf(s, h, t)
    ensures var s' := Enqueued(s, h, i, reply);
            (HandlerCarries(s', t) <==> HandlerCarries(s, t)) && (TaskCarries(s', t) <==> TaskCarries(s, t))
  {
    var s' := Enqueued(s, h, i, reply);
    forall g
      ensures HandlerOf(s', g, t) <==> HandlerOf(s, g, t)
    {
    }
    forall j
      ensures TaskOf(s', j, t) <==> TaskOf(s, j, t)
    {
    }
    CarriesMeans(s, t);
    CarriesMeans(s', t);
  }

  /** The queue answers: the job moves, is doubled, or stays with the handler, which gives up. */
  lemma EnqueueBoth(s: State, h: nat, i: nat, reply: Reply, t: string)
    requires Inv(s) && h in s.handlers && s.handlers[h].phase.Posted? && i !in s.tasks && t != ""
    ensures Both(Enqueued(s, h, i, reply), t) <==> Splits(s, Enqueue(h, i, reply), t) || Both(s, t)
  {
    var s' := Enqueued(s, h, i, reply);
    if HandlerOf(s, h, t) {
      Alone(s, h, t);
      OnlyHandler(s, h, t);
      if Splits(s, Enqueue(h, i, reply), t) {
        HandlerWitness(s', h);
        TaskWitness(s', i);
      }
    } else {
      EnqueueOthers(s, h, i, reply, t);
    }
  }

  lemma BegunBoth(s: State, h: nat, job: Job, ttl: nat, reply: Reply, t: string)
    requires Inv(s) && Enabled(s, Begin(h, job, ttl, reply)) && t != ""
    ensures Both(Begun(s, h, job, ttl, reply), t) <==> Both(s, t)
  {
    var s' := Begun(s, h, job, ttl, reply);
    if s'.handlers == s.handlers {
      SameBoth(s, s', t);
    } else {
      HandlerJoins(s, s', h, Handler(job, Holding), t);
    }
  }

  lemma PostBoth(s: State, h: nat, ok: bool, t: string)
    requires Inv(s) && h in s.handlers && t != ""
    ensures Both(Reported(s, h, ok), t) <==> Both(s, t)
  {
    var s' := Reported(s, h, ok);
    if h in s'.handlers {
      SameBoth(s, s', t);
    } else {
      HandlerGone(s, s', h, t);
    }
  }

  lemma UndoBoth(s: State, h: nat, reply: Reply, t: string)
    requires Inv(s) && h in s.handlers && t != ""
    ensures Both(Undone(s, h, reply), t) <==> Both(s, t) && !HandlerOf(s, h, t)
  {
    HandlerGone(s, Undone(s, h, reply), h, t);
  }

  lemma HandlerLostBoth(s: State, h: nat, t: string)
    requires Inv(s) && h in s.handlers && t != ""
    ensures Both(HandlerLost(s, h), t) <==> Both(s, t) && !HandlerOf(s, h, t)
  {
    HandlerGone(s, HandlerLost(s, h), h, t);
  }

  lemma RetryBoth(s: State, i: nat, reply: Reply, t: string)
    requires i in s.tasks && s.tasks[i].phase.Leaving? && !Drops(s.tasks[i])
    ensures Both(Left(s, i, reply), t) <==> Both(s, t)
  {
    SameBoth(s, Left(s, i, reply), t);
  }

  lemma DropBoth(s: State, i: nat, reply: Reply, t: string)
    requires Inv(s) && i in s.tasks && s.tasks[i].phase.Leaving? && Drops(s.tasks[i]) && t != ""
    ensures Both(Left(s, i, reply), t) <==> Both(s, t) && !TaskOf(s, i, t)
  {
    TaskGone(s, Left(s, i, reply), i, t);
  }

  lemma TaskLostBoth(s: State, i: nat, t: string)
    requires Inv(s) && i in s.tasks && t != ""
    ensures Both(TaskLost(s, i), t) <==> Both(s, t) && !TaskOf(s, i, t)
  {
    TaskGone(s, TaskLost(s, i), i, t);
  }

  lemma MovedBoth(s: State, i: nat, phase: TaskPhase, t: string)
    requires i in s.tasks
    ensures Both(Moved(s, i, phase), t) <==> Both(s, t)
  {
    SameBoth(s, Moved(s, i, phase), t);
  }

  lemma HandlerStepBoth(s: State, e: Step, t: string)
    requires Inv(s) && Enabled(s, e) && t != "" && (e.Begin? || e.BeginFree? || e.Post? || e.Enqueue?)
    ensures Both(Apply(s, e), t) <==> Splits(s, e, t) || Both(s, t)
  {
    match e
    case Begin(h, job, ttl, reply) => BegunBoth(s, h, job, ttl, reply, t);
    case BeginFree(h, job) => HandlerJoins(s, BegunFree(s, h, job), h, Handler(job, Holding), t);
    case Post(h, ok) => PostBoth(s, h, ok, t);
    case Enqueue(h, i, reply) => EnqueueBoth(s, h, i, reply, t);
  }

  lemma WorkerStepBoth(s: State, e: Step, t: string)
    requires Enabled(s, e) && (e.Start? || e.Check? || e.Claim? || e.Send? || e.Finish?)
    ensures Both(Apply(s, e), t) <==> Both(s, t)
  {
    match e
    case Start(i) => MovedBoth(s, i, Started, t);
    case Check(i, reply) => MovedBoth(s, i, AfterCheck(s, s.tasks[i], reply), t);
    case Claim(i, won) => MovedBoth(s, i, if won then Tracks(0) else Leaving(false), t);
    case Send(i, ok) => SameBoth(s, Sent(s, i, ok), t);
    case Finish(i, again) => MovedBoth(s, i, Leaving(again), t);
  }

  lemma NobodyStepBoth(s: State, e: Step, t: string)
    requires Enabled(s, e) && (e.Tick? || e.Flag? || e.Unlock? || e.ForceUnlock?)
    ensures Both(Apply(s, e), t) <==> Both(s, t)
  {
    SameBoth(s, Apply(s, e), t);
  }

  lemma HandlerEndBoth(s: State, e: Step, t: string)
    requires Inv(s) && Enabled(s, e) && t != "" && (e.Undo? || e.HandlerCrash?)
    ensures Both(Apply(s, e), t) <==> Both(s, t) && !Departs(s, e, t)
  {
    match e
    case Undo(h, reply) => UndoBoth(s, h, reply, t);
    case HandlerCrash(h) => HandlerLostBoth(s, h, t);
  }

  lemma TaskEndBoth(s: State, e: Step, t: string)
    requires Inv(s) && Enabled(s, e) && t != "" && (e.Leave? || e.WorkerCrash? || e.Discard?)
    ensures Both(Apply(s, e), t) <==> Both(s, t) && !Departs(s, e, t)
  {
    match e
    case Leave(i, reply) =>
      if Drops(s.tasks[i]) {
        DropBoth(s, i, reply, t);
      } else {
        RetryBoth(s, i, reply, t);
      }
    case WorkerCrash(i, back) =>
      if back {
        MovedBoth(s, i, Queued, t);
      } else {
        TaskLostBoth(s, i, t);
      }
    case Discard(i, _, _) => TaskLostBoth(s, i, t);
  }

  lemma StepBoth(s: State, e: Step, t: string)
    requires Inv(s) && Enabled(s, e) && t != ""
    ensures Both(Apply(s, e), t) <==> Splits(s, e, t) || (Both(s, t) && !Departs(s, e, t))
  {
    if e.Undo? || e.HandlerCrash? {
      HandlerEndBoth(s, e, t);
    } else if e.Leave? || e.WorkerCrash? || e.Discard? {
      TaskEndBoth(s, e, t);
    } else if e.Begin? || e.BeginFree? || e.Post? || e.Enqueue? {
      HandlerStepBoth(s, e, t);
    } else if e.Tick? || e.Flag? || e.Unlock? || e.ForceUnlock? {
      NobodyStepBoth(s, e, t);
    } else {
      WorkerStepBoth(s, e, t);
    }
  }

  lemma {:induction false} RunBoth(s: State, steps: seq<Step>, t: string)
    requires Inv(s) && Legal(s, steps) && t != ""
    ensures Both(Exec(s, steps), t) <==> Doubled(s, steps, t) || (Both(s, t) && Stays(s, steps, t))
    decreases steps
  {
    if steps != [] {
      StepBoth(s, steps[0], t);
      StepKeeps(s, steps[0]);
      RunBoth(Apply(s, steps[0]), steps[1..], t);
    }
  }

  // ---------------------------------------------------------------- the carriers of a live lock

  lemma BothCounts(s: State, t: string)
    requires Inv(s) && t != ""
    ensures |Carriers(s, t)| == if Both(s, t) then 2 else if Carried(s, t) then 1 else 0
  {
    CarriersCount(s, t);
  }

  /** In every run, whatever Redis, Telegram and the queue answer: the token of a live lock is carried by
      nobody exactly when some step of the run stranded it, by two exactly when its enqueue lost its reply and
      neither the handler nor the task has gone since, and otherwise by exactly one handler, waiting task or
      running task; and what carries it was made for this lock. */
  lemma LiveLockOwned(steps: seq<Step>, slot: Slot)
    requires Legal(INIT, steps) && Held(Exec(INIT, steps).locks, slot, Exec(INIT, steps).now)
    ensures var s := Exec(INIT, steps); var t := s.locks[slot].token;
            |Carriers(s, t)| == if Stranded(INIT, steps, t) then 0 else if Doubled(INIT, steps, t) then 2 else 1
    ensures var s := Exec(INIT, steps); var l := s.locks[slot];
            && (forall h :: InHandler(h) in Carriers(s, l.token)
                 ==> s.handlers[h].job.ref == Ref(slot, l.scene, l.token))
            && (forall i :: InTask(i) in Carriers(s, l.token) ==> s.tasks[i].job.ref == Ref(slot, l.scene, l.token))
  {
    var s := Exec(INIT, steps);
    var t := s.locks[slot].token;
    Reached(steps);
    CarriersAtHome(s, slot);
    HeldCarried(s, slot);
    RunStrands(INIT, steps, t);
    RunBoth(INIT, steps, t);
    BothCounts(s, t);
  }

  // ---------------------------------------------------------------- faults

  /** The steps that can strand or double a token, told without looking at who else carries it: a lost
      acquisition, a lost enqueue or a refused carousel, a refused release, a crash, a deletion. */
  predicate Fault(s: State, e: Step)
    requires Enabled(s, e)
  {
    match e
    case Begin(_, _, _, reply) => reply.Lost?
    case Enqueue(h, _, reply) => if s.handlers[h].job.kind.Carousel? then reply.Refused? else reply.Lost?
    case Undo(_, reply) => reply.Refused?
    case HandlerCrash(_) => true
    case Leave(i, reply) => reply.Refused? || s.tasks[i].job.ref.scene == ""
    case WorkerCrash(_, back) => !back
    case Discard(_, _, _) => true
    case _ => false
  }

  ghost predicate FaultFree(s: State, steps: seq<Step>)
    requires Legal(s, steps)
    decreases steps
  {
    steps == [] || (!Fault(s, steps[0]) && FaultFree(Apply(s, steps[0]), steps[1..]))
  }

  lemma {:induction false} FaultFreeClean(s: State, steps: seq<Step>, t: string)
    requires Legal(s, steps) && FaultFree(s, steps)
    ensures !Stranded(s, steps, t) && !Doubled(s, steps, t)
    decreases steps
  {
    if steps != [] {
      FaultFreeClean(Apply(s, steps[0]), steps[1..], t);
    }
  }

  /** Those faults aside, every live lock has exactly one carrier: refused status messages, enqueues and
      acquisitions, lost releases, cancels and forced releases included. */
  lemma FaultFreeOwned(steps: seq<Step>, slot: Slot)
    requires Legal(INIT, steps) && FaultFree(INIT, steps) && Held(Exec(INIT, steps).locks, slot, Exec(INIT, steps).now)
    ensures |Carriers(Exec(INIT, steps), Exec(INIT, steps).locks[slot].token)| == 1
  {
    LiveLockOwned(steps, slot);
    FaultFreeClean(INIT, steps, Exec(INIT, steps).locks[slot].token);
  }
}
