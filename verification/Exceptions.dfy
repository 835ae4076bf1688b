/** Runs in which a live lock has no carrier or two, one for each ordinary cause, and what /clear can and
    cannot delete. */
module Exceptions {
  import opened Locks
  import opened Protocol
  import opened Ownership

  function MainJob(user: int, token: string, kind: Kind): Job {
    Job(Ref(Slot("", user), "tiktok", token), kind, "download")
  }

  function Take(h: nat, job: Job): Step {
    Begin(h, job, 10, Delivered)
  }

  /** The lock of the slot is live and its token has so many carriers. */
  ghost predicate LiveWith(s: State, slot: Slot, token: string, carriers: nat) {
    Held(s.locks, slot, s.now) && s.locks[slot].token == token && |Carriers(s, token)| == carriers
  }

  /** The state after an acquisition from the start. */
  lemma Taken(job: Job)
    requires job.ref.token != "" && WellQueued(job)
    ensures Enabled(INIT, Take(0, job))
    ensures var s := Apply(INIT, Take(0, job));
            && s.handlers == map[0 := Handler(job, Holding)] && s.tasks == map[] && s.now == 0
            && s.home == map[job.ref.token := job.ref] && s.flags == map[]
            && s.locks == map[job.ref.slot := Lock(job.ref.scene, job.ref.token, 10)]
  {
  }

  lemma NoCarrier(s: State, token: string)
    requires s.handlers == map[] && s.tasks == map[]
    ensures |Carriers(s, token)| == 0
  {
    assert Carriers(s, token) == {};
  }

  // ---------------------------------------------------------------- refused and lost replies

  function CarouselRun(user: int, token: string): seq<Step> {
    [Take(0, MainJob(user, token, Carousel)), Post(0, true), Enqueue(0, 0, Refused)]
  }

  /** The queue refuses a carousel, whose handler does not look: nobody will release its lock. */
  lemma CarouselStrands(user: int, token: string)
    requires token != ""
    ensures Legal(INIT, CarouselRun(user, token))
    ensures LiveWith(Exec(INIT, CarouselRun(user, token)), Slot("", user), token, 0)
  {
    var job := MainJob(user, token, Carousel);
    var a, b, c := Take(0, job), Post(0, true), Enqueue(0, 0, Refused);
    Taken(job);
    var s1 := Apply(INIT, a);
    var s2 := Apply(s1, b);
    assert s2.handlers == map[0 := Handler(job, Posted)] && s2.tasks == map[];
    Run3(INIT, a, b, c);
    assert Apply(s2, c).handlers == map[];
    NoCarrier(Apply(s2, c), token);
  }

  function UndoRun(user: int, token: string): seq<Step> {
    [Take(0, MainJob(user, token, Fetch)), Post(0, false), Undo(0, Refused)]
  }

  /** The status message fails and Redis refuses the release that should follow. */
  lemma RefusedUndoStrands(user: int, token: string)
    requires token != ""
    ensures Legal(INIT, UndoRun(user, token))
    ensures LiveWith(Exec(INIT, UndoRun(user, token)), Slot("", user), token, 0)
  {
    var job := MainJob(user, token, Fetch);
    var a, b, c := Take(0, job), Post(0, false), Undo(0, Refused);
    Taken(job);
    var s1 := Apply(INIT, a);
    var s2 := Apply(s1, b);
    assert s2.handlers == map[0 := Handler(job, Undoing)] && s2.tasks == map[];
    Run3(INIT, a, b, c);
    assert Apply(s2, c).handlers == map[];
    NoCarrier(Apply(s2, c), token);
  }

  function QueuedRun(job: Job, reply: Reply): seq<Step> {
    [Take(0, job), Post(0, true), Enqueue(0, 0, reply)]
  }

  lemma QueuedState(job: Job, reply: Reply)
    requires job.ref.token != "" && WellQueued(job) && job.kind.Fetch? && !reply.Refused?
    ensures Legal(INIT, QueuedRun(job, reply))
    ensures var s := Exec(INIT, QueuedRun(job, reply));
            && s.tasks == map[0 := Task(job, 1, Queued, 0)] && s.now == 0 && s.flags == map[]
            && s.handlers == (if reply.Lost? then map[0 := Handler(job, Undoing)] else map[])
            && s.home == map[job.ref.token := job.ref]
            && s.locks == map[job.ref.slot := Lock(job.ref.scene, job.ref.token, 10)]
  {
    var a, b, c := Take(0, job), Post(0, true), Enqueue(0, 0, reply);
    Taken(job);
    var s1 := Apply(INIT, a);
    var s2 := Apply(s1, b);
    assert s2.handlers == map[0 := Handler(job, Posted)] && s2.tasks == map[];
    Run3(INIT, a, b, c);
    assert Apply(s2, c).tasks == map[0 := Task(job, 1, Queued, 0)];
    assert Apply(s2, c).handlers == if reply.Lost? then map[0 := Handler(job, Undoing)] else map[];
  }

  /** A worker runs the job and its deferred release is refused. */
  const WORK: seq<Step> := [Start(0), Check(0, Delivered), Finish(0, false), Leave(0, Refused)]

  lemma BodyState(s: State, b: Task)
    requires s.tasks == map[0 := b] && b.phase == Queued && b.job.kind.Fetch? && s.flags == map[]
    ensures Legal(s, [Start(0), Check(0, Delivered)])
    ensures Exec(s, [Start(0), Check(0, Delivered)]) == s.(tasks := map[0 := b.(phase := Body)])
  {
    var s1 := Apply(s, Start(0));
    assert s1.tasks == map[0 := b.(phase := Started)];
    assert Apply(s1, Check(0, Delivered)).tasks == map[0 := b.(phase := Body)];
    Run2(s, Start(0), Check(0, Delivered));
  }

  lemma EndState(s: State, b: Task)
    requires s.tasks == map[0 := b] && b.phase == Body && s.handlers == map[]
    ensures Legal(s, [Finish(0, false), Leave(0, Refused)])
    ensures var s' := Exec(s, [Finish(0, false), Leave(0, Refused)]);
            s'.tasks == map[] && s'.handlers == map[] && s'.locks == s.locks && s'.now == s.now
  {
    var s1 := Apply(s, Finish(0, false));
    assert s1.tasks == map[0 := b.(phase := Leaving(false))];
    assert Apply(s1, Leave(0, Refused)).tasks == map[];
    Run2(s, Finish(0, false), Leave(0, Refused));
  }

  lemma WorkState(s: State, job: Job)
    requires job.kind.Fetch? && s.tasks == map[0 := Task(job, 1, Queued, 0)] && s.handlers == map[] && s.flags == map[]
    ensures Legal(s, WORK)
    ensures var s' := Exec(s, WORK); s'.tasks == map[] && s'.handlers == map[] && s'.locks == s.locks && s'.now == s.now
  {
    var b := Task(job, 1, Queued, 0);
    BodyState(s, b);
    EndState(s.(tasks := map[0 := b.(phase := Body)]), b.(phase := Body));
    Chain(s, [Start(0), Check(0, Delivered)], [Finish(0, false), Leave(0, Refused)]);
    assert WORK == [Start(0), Check(0, Delivered)] + [Finish(0, false), Leave(0, Refused)];
  }

  lemma RefusedLeaveStrands(user: int, token: string)
    requires token != ""
    ensures var run := QueuedRun(MainJob(user, token, Fetch), Delivered) + WORK;
            Legal(INIT, run) && LiveWith(Exec(INIT, run), Slot("", user), token, 0)
  {
    var job := MainJob(user, token, Fetch);
    QueuedState(job, Delivered);
    var s := Exec(INIT, QueuedRun(job, Delivered));
    WorkState(s, job);
    Chain(INIT, QueuedRun(job, Delivered), WORK);
    NoCarrier(Exec(s, WORK), token);
  }

  /** The queue takes the job and its reply is lost: handler and task both carry the token. */
  lemma LostEnqueueDoubles(user: int, token: string)
    requires token != ""
    ensures var run := QueuedRun(MainJob(user, token, Fetch), Lost);
            Legal(INIT, run) && LiveWith(Exec(INIT, run), Slot("", user), token, 2)
  {
    var job := MainJob(user, token, Fetch);
    QueuedState(job, Lost);
    assert Carriers(Exec(INIT, QueuedRun(job, Lost)), token) == {InHandler(0), InTask(0)};
  }

  // ---------------------------------------------------------------- what /clear deletes

  ghost predicate QueuedWell(s: State) {
    && (forall h :: h in s.handlers ==> WellQueued(s.handlers[h].job))
    && (forall i :: i in s.tasks ==> WellQueued(s.tasks[i].job))
  }

  lemma StepQueues(s: State, e: Step)
    requires QueuedWell(s) && Enabled(s, e)
    ensures QueuedWell(Apply(s, e))
  {
    var s' := Apply(s, e);
    forall h | h in s'.handlers
      ensures WellQueued(s'.handlers[h].job)
    {
      HandlersFrom(s, e, h);
    }
    forall i | i in s'.tasks
      ensures WellQueued(s'.tasks[i].job)
    {
      TasksFrom(s, e, i);
    }
  }

  /** A step that deletes one of the main bot's jobs is the /clear of a fleet bot that was configured to
      share one of the main bot's queues. */
  predicate Spares(s: State, e: Step)
    requires Enabled(s, e)
  {
    e.Discard? && s.tasks[e.i].job.ref.slot.bot == "" ==> e.clearer.bot != "" && e.queue in MAIN_QUEUES
  }

  ghost predicate AllSpare(s: State, steps: seq<Step>)
    requires Legal(s, steps)
    decreases steps
  {
    steps == [] || (Spares(s, steps[0]) && AllSpare(Apply(s, steps[0]), steps[1..]))
  }

  lemma {:induction false} RunSpares(s: State, steps: seq<Step>)
    requires QueuedWell(s) && Legal(s, steps)
    ensures AllSpare(s, steps)
    decreases steps
  {
    if steps != [] {
      StepQueues(s, steps[0]);
      RunSpares(Apply(s, steps[0]), steps[1..]);
    }
  }

  /** Which queue a clear looks through, and which ones jobs wait on. */
  lemma QueuesApart(user: int, bot: string, queue: string, job: Job)
    ensures Scans(Slot("", user), queue) <==> queue == "default"
    ensures bot != "" ==> Scans(Slot(bot, user), queue)
    ensures job.ref.slot.bot == "" ==> (WellQueued(job) <==> job.queue == "download" || job.queue == "transcode")
    ensures job.ref.slot.bot != "" ==> WellQueued(job)
  {
  }

  /** In every run the main bot's /clear deletes none of the main bot's jobs: it looks through the default
      queue, where they never wait. */
  lemma MainClearSpares(steps: seq<Step>)
    requires Legal(INIT, steps)
    ensures AllSpare(INIT, steps)
  {
    RunSpares(INIT, steps);
  }

  function FleetJob(slot: Slot, token: string, queue: string): Job {
    Job(Ref(slot, "tiktok", token), Fetch, queue)
  }

  /** A lock is taken and forced away; the user starts again. */
  function RestartSteps(a: Job, b: Job): seq<Step> {
    [Take(0, a), ForceUnlock(a.ref.slot, Delivered), Take(1, b)]
  }

  /** The new job is queued before /clear gets to deleting the user's tasks. */
  function LateDeletion(job: Job): seq<Step> {
    [Post(1, true), Enqueue(1, 0, Delivered), Discard(0, job.ref.slot, job.queue)]
  }

  lemma Restarted(a: Job, b: Job)
    requires a.ref.token != "" && b.ref.token != "" && a.ref.token != b.ref.token
    requires a.ref.slot == b.ref.slot && WellQueued(a) && WellQueued(b)
    ensures Legal(INIT, RestartSteps(a, b))
    ensures var s := Exec(INIT, RestartSteps(a, b));
            && s.handlers == map[0 := Handler(a, Holding), 1 := Handler(b, Holding)]
            && s.tasks == map[] && s.now == 0 && s.locks == map[b.ref.slot := Lock(b.ref.scene, b.ref.token, 10)]
  {
    Taken(a);
    var s1 := Apply(INIT, Take(0, a));
    var s2 := Apply(s1, ForceUnlock(a.ref.slot, Delivered));
    assert s2.locks == map[];
    Run3(INIT, Take(0, a), ForceUnlock(a.ref.slot, Delivered), Take(1, b));
  }

  lemma Deleted(s: State, a: Job, b: Job)
    requires s.handlers == map[0 := Handler(a, Holding), 1 := Handler(b, Holding)] && s.tasks == map[]
    requires b.kind.Fetch? && b.ref.token != "" && a.ref.token != b.ref.token && Scans(b.ref.slot, b.queue)
    ensures Legal(s, LateDeletion(b))
    ensures var t := Exec(s, LateDeletion(b));
            t.locks == s.locks && t.now == s.now && t.tasks == map[] && t.handlers == map[0 := Handler(a, Holding)]
  {
    var s1 := Apply(s, Post(1, true));
    var s2 := Apply(s1, Enqueue(1, 0, Delivered));
    assert s2.tasks == map[0 := Task(b, 1, Queued, 0)];
    assert s2.handlers == map[0 := Handler(a, Holding)];
    Run3(s, Post(1, true), Enqueue(1, 0, Delivered), Discard(0, b.ref.slot, b.queue));
  }

  /** A fleet bot's /clear, which looks through the bot's own queue, can delete a job started after its
      forced release; the new lock then has no carrier although nothing failed. */
  lemma FleetClearStrands(slot: Slot, queue: string, t: string, u: string)
    requires slot.bot != "" && t != "" && u != "" && t != u
    ensures var b := FleetJob(slot, u, queue);
            var run := RestartSteps(FleetJob(slot, t, queue), b) + LateDeletion(b);
            Legal(INIT, run) && LiveWith(Exec(INIT, run), slot, u, 0)
  {
    var a, b := FleetJob(slot, t, queue), FleetJob(slot, u, queue);
    Restarted(a, b);
    var mid := Exec(INIT, RestartSteps(a, b));
    Deleted(mid, a, b);
    Chain(INIT, RestartSteps(a, b), LateDeletion(b));
    assert Carriers(Exec(mid, LateDeletion(b)), u) == {};
  }
}
