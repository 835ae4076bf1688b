/** The lock, cancel and queue protocol as interleaved steps: handlers that take a lock, post a
    status and enqueue a job, workers that run, retry, cancel and release it, the cancel button,
    /clear, crashes and the clock.  Any number of bots, users, handlers and workers; every command
    may be delivered, refused or lose its reply.

    Sources: go/internal/handler/bot.go, handler/music.go, handler/tiktok_carousel.go,
    handler/cancel.go, handler/clear.go, botkit/clear.go, queue/client.go, worker/download.go,
    worker/music.go. */
module Protocol {
  import opened Locks

  /** What a worker does with a job: a fetch checks the cancel flag once, the TikTok carousel never,
      a music release before every track. */
  datatype Kind = Fetch | Carousel | Music(tracks: nat)

  /** The lock fields every payload carries, an empty token meaning "no lock taken", and the queue
      the job is put on. */
  datatype Job = Job(ref: Ref, kind: Kind, queue: string)

  /** The main bot's jobs wait on one of two queues; a fleet bot has a queue of its own choosing. */
  const MAIN_QUEUES := {"download", "transcode"}
  const DEFAULT_QUEUE := "default"

  predicate WellQueued(job: Job) {
    job.ref.slot.bot == "" ==> job.queue in MAIN_QUEUES
  }

  /** The queue /clear looks through: the main bot names none and gets the library's default. */
  predicate Scans(clearer: Slot, queue: string) {
    clearer.bot == "" ==> queue == DEFAULT_QUEUE
  }

  datatype HandlerPhase = Holding | Posted | Undoing
  datatype Handler = Handler(job: Job, phase: HandlerPhase)

  datatype TaskPhase =
    | Queued
    | Started
    | Body                  // the download body of a fetch or carousel
    | Tracks(next: nat)     // a music worker about to look at the flag before track `next`
    | Sending(track: nat)
    | Leaving(again: bool)  // the deferred release; `again` when the handler returned an error
  datatype Task = Task(job: Job, retries: nat, phase: TaskPhase, sent: nat)

  /** What happened to locks, oldest first. */
  datatype Event = Locked(slot: Slot, token: string, at: nat, expires: nat) | Unlocked(slot: Slot,
    token: string) | Forced(slot: Slot)

  /** `home` records what each issued token was issued for; `orphans` the tokens whose last carrier
      went away without a confirmed release; `doubled` the tokens whose enqueue lost its reply. */
  datatype State = State(
    now: nat, locks: LockMap, flags: FlagMap,
    handlers: map<nat, Handler>, tasks: map<nat, Task>,
    home: map<string, Ref>, orphans: set<string>, doubled: set<string>, log: seq<Event>)

  const FLAG_TTL := 2 * 3600

  datatype Step =
    | Tick
    | Begin(h: nat, job: Job, ttl: nat, reply: Reply)  // SETNX with the fresh token job.ref.token
    | BeginFree(h: nat, job: Job)                      // admin or batch: no lock
    | Post(h: nat, ok: bool)                           // checks, card and status message
    | Enqueue(h: nat, i: nat, reply: Reply)
    | Undo(h: nat, reply: Reply)                       // release on a failed exit
    | HandlerCrash(h: nat)
    | Start(i: nat)
    | Check(i: nat, reply: Reply)                      // reads the cancel flag
    | Claim(i: nat, won: bool)                         // the music release lock
    | Send(i: nat, ok: bool)
    | Finish(i: nat, again: bool)                      // end of the body, or of the music run
    | Leave(i: nat, reply: Reply)                      // deferred release, then retry or drop
    | WorkerCrash(i: nat, back: bool)                  // killed; `back` when the queue recovers the task
    | Discard(i: nat, clearer: Slot, queue: string)    // /clear deletes a waiting task of its user
    | Flag(ref: Ref, reply: Reply)                     // cancel button or /clear
    | Unlock(ref: Ref, reply: Reply)                   // cancel button
    | ForceUnlock(slot: Slot, reply: Reply)            // /clear

  /** A step of one handler. */
  predicate HandlerStep(e: Step) {
    e.Begin? || e.BeginFree? || e.Post? || e.Enqueue? || e.Undo? || e.HandlerCrash?
  }

  function Retries(kind: Kind): nat {
    if kind.Music? then 0 else 1
  }

  // ---------------------------------------------------------------- carriers

  ghost predicate HandlerCarries(s: State, t: string) {
    exists h :: h in s.handlers && s.handlers[h].job.ref.token == t
  }

  ghost predicate TaskCarries(s: State, t: string) {
    exists i :: i in s.tasks && s.tasks[i].job.ref.token == t
  }

  // ---------------------------------------------------------------- steps

  predicate Enabled(s: State, e: Step) {
    match e
    case Tick => true
    case Begin(h, job, ttl, _) => h !in s.handlers && job.ref.token != "" && job.ref.token !in s.home && ttl > 0
                                    && WellQueued(job)
    case BeginFree(h, job) => h !in s.handlers && job.ref.token == "" && WellQueued(job)
    case Post(h, ok) => h in s.handlers && s.handlers[h].phase.Holding? && (s.handlers[h].job.kind.Carousel? ==> ok)
    case Enqueue(h, i, _) => h in s.handlers && s.handlers[h].phase.Posted? && i !in s.tasks
    case Undo(h, _) => h in s.handlers && s.handlers[h].phase.Undoing?
    case HandlerCrash(h) => h in s.handlers
    case Start(i) => i in s.tasks && s.tasks[i].phase.Queued?
    case Check(i, _) =>
      && i in s.tasks
      && var a := s.tasks[i];
         if a.job.kind.Music? then a.phase.Tracks? && a.phase.next < a.job.kind.tracks else a.phase.Started?
    case Claim(i, _) => i in s.tasks && s.tasks[i].phase.Started? && s.tasks[i].job.kind.Music?
    case Send(i, _) => i in s.tasks && s.tasks[i].phase.Sending?
    case Finish(i, again) => i in s.tasks && (s.tasks[i].phase.Body? || (s.tasks[i].phase.Tracks? && !again))
    case Leave(i, _) => i in s.tasks && s.tasks[i].phase.Leaving?
    case WorkerCrash(i, _) => i in s.tasks && !s.tasks[i].phase.Queued?
    case Discard(i, clearer, queue) =>
      && i in s.tasks && s.tasks[i].phase.Queued? && Scans(clearer, queue)
      && s.tasks[i].job.queue == queue && s.tasks[i].job.ref.slot.user == clearer.user
    case Flag(_, _) => true
    case Unlock(_, _) => true
    case ForceUnlock(_, _) => true
  }

  /** Whether a worker that looks at the flag now stops: the read must succeed. */
  predicate Stops(s: State, job: Job, reply: Reply) {
    reply.Delivered? && Flagged(s.flags, job.ref, s.now)
  }

  function AfterCheck(s: State, task: Task, reply: Reply): TaskPhase {
    if task.phase.Tracks? then
      if Stops(s, task.job, reply) then Leaving(false) else Sending(task.phase.next)
    else if task.job.kind.Carousel? || task.job.ref.token == "" || task.job.ref.scene == "" then Body
    else if Stops(s, task.job, reply) then Leaving(false)
    else Body
  }

  predicate SameClock(s: State, s': State) {
    s'.now == s.now && s'.flags == s.flags
  }

  predicate SameLocks(s: State, s': State) {
    s'.locks == s.locks && s'.log == s.log && s'.home == s.home
  }

  function Release'(s: State, ref: Ref, reply: Reply): (s': State)
    ensures SameClock(s, s') && s'.handlers == s.handlers && s'.tasks == s.tasks && s'.home == s.home
  {
    if !reply.Refused? && HeldBy(s.locks, ref, s.now)
    then s.(locks := Release(s.locks, ref, s.now), log := s.log + [Unlocked(ref.slot, ref.token)])
    else s
  }

  function Orphaned(t: string): set<string> {
    if t == "" then {} else {t}
  }

  function Ticked(s: State): State {
    s.(now := s.now + 1)
  }

  function BegunFree(s: State, h: nat, job: Job): (s': State)
    ensures SameClock(s, s') && SameLocks(s, s') && s'.tasks == s.tasks
  {
    s.(handlers := s.handlers[h := Handler(job, Holding)])
  }

  /** A fresh token enters: with its handler, or with nobody when the reply was lost. */
  function Begun(s: State, h: nat, job: Job, ttl: nat, reply: Reply): (s': State)
    requires ttl > 0
    ensures SameClock(s, s') && s'.tasks == s.tasks
  {
    var ref := job.ref;
    if reply.Refused? || Held(s.locks, ref.slot, s.now) then s
    else
      var r := s.(
        locks := Acquire(s.locks, ref.slot, Lock(ref.scene, ref.token, s.now + ttl), s.now),
        home := s.home[ref.token := ref],
        log := s.log + [Locked(ref.slot, ref.token, s.now, s.now + ttl)]);
      if reply.Delivered? then r.(handlers := s.handlers[h := Handler(job, Holding)])
      else r.(orphans := s.orphans + {ref.token})
  }

  function Reported(s: State, h: nat, ok: bool): (s': State)
    requires h in s.handlers
    ensures SameClock(s, s') && SameLocks(s, s') && s'.tasks == s.tasks
  {
    var a := s.handlers[h];
    if ok then s.(handlers := s.handlers[h := a.(phase := Posted)])
    else if a.job.ref.token == "" then s.(handlers := s.handlers - {h})
    else s.(handlers := s.handlers[h := a.(phase := Undoing)])
  }

  /** The carousel ignores the queue's error; other handlers with a lock go on to release it. */
  function Enqueued(s: State, h: nat, i: nat, reply: Reply): (s': State)
    requires h in s.handlers
    ensures SameClock(s, s') && SameLocks(s, s')
  {
    var a := s.handlers[h];
    var t := a.job.ref.token;
    var added := s.tasks[i := Task(a.job, Retries(a.job.kind), Queued, 0)];
    var gone := s.handlers - {h};
    if reply.Delivered? then s.(tasks := added, handlers := gone)
    else if a.job.kind.Carousel? then
      if reply.Lost? then s.(tasks := added, handlers := gone)
      else s.(handlers := gone, orphans := s.orphans + Orphaned(t))
    else if t == "" then
      if reply.Lost? then s.(tasks := added, handlers := gone) else s.(handlers := gone)
    else
      var undoing := s.handlers[h := a.(phase := Undoing)];
      if reply.Lost? then s.(tasks := added, handlers := undoing, doubled := s.doubled + {t})
      else s.(handlers := undoing)
  }

  ghost function Undone(s: State, h: nat, reply: Reply): (s': State)
    requires h in s.handlers
    ensures SameClock(s, s') && s'.tasks == s.tasks && s'.home == s.home
  {
    var ref := s.handlers[h].job.ref;
    var r := Release'(s, ref, reply).(handlers := s.handlers - {h});
    if reply.Refused? && !TaskCarries(s, ref.token) then r.(orphans := s.orphans + Orphaned(ref.token)) else r
  }

  ghost function HandlerLost(s: State, h: nat): (s': State)
    requires h in s.handlers
    ensures SameClock(s, s') && SameLocks(s, s') && s'.tasks == s.tasks
  {
    var t := s.handlers[h].job.ref.token;
    var r := s.(handlers := s.handlers - {h});
    if TaskCarries(s, t) then r else r.(orphans := s.orphans + Orphaned(t))
  }

  function Moved(s: State, i: nat, phase: TaskPhase): (s': State)
    requires i in s.tasks
    ensures SameClock(s, s') && SameLocks(s, s') && s'.handlers == s.handlers
  {
    s.(tasks := s.tasks[i := s.tasks[i].(phase := phase)])
  }

  function Sent(s: State, i: nat, ok: bool): (s': State)
    requires i in s.tasks && s.tasks[i].phase.Sending?
    ensures SameClock(s, s') && SameLocks(s, s') && s'.handlers == s.handlers
  {
    var a := s.tasks[i];
    s.(tasks := s.tasks[i := a.(phase := Tracks(a.phase.track + 1), sent := if ok then a.sent + 1 else a.sent)])
  }

  /** A payload without token or scene is not released. */
  function Returned(s: State, ref: Ref, reply: Reply): (s': State)
    ensures SameClock(s, s') && s'.handlers == s.handlers && s'.tasks == s.tasks && s'.home == s.home
  {
    if ref.token == "" || ref.scene == "" then s else Release'(s, ref, reply)
  }

  ghost function Left(s: State, i: nat, reply: Reply): (s': State)
    requires i in s.tasks && s.tasks[i].phase.Leaving?
    ensures SameClock(s, s') && s'.handlers == s.handlers && s'.home == s.home
  {
    var a := s.tasks[i];
    var t := a.job.ref.token;
    var r := Returned(s, a.job.ref, reply);
    if a.phase.again && a.retries > 0 then r.(tasks := s.tasks[i := a.(phase := Queued, retries := a.retries - 1)])
    else
      var r' := r.(tasks := s.tasks - {i});
      if (reply.Refused? || a.job.ref.scene == "") && !HandlerCarries(s, t)
        then r'.(orphans := s.orphans + Orphaned(t)) else r'
  }

  ghost function TaskLost(s: State, i: nat): (s': State)
    requires i in s.tasks
    ensures SameClock(s, s') && SameLocks(s, s') && s'.handlers == s.handlers
  {
    var t := s.tasks[i].job.ref.token;
    if HandlerCarries(s, t) then s.(tasks := s.tasks - {i})
    else s.(tasks := s.tasks - {i}, orphans := s.orphans + Orphaned(t))
  }

  function Raised(s: State, ref: Ref, reply: Reply): (s': State)
    ensures s'.now == s.now && SameLocks(s, s') && s'.handlers == s.handlers && s'.tasks == s.tasks
  {
    if reply.Refused? then s else s.(flags := s.flags[ref := s.now + FLAG_TTL])
  }

  function Freed(s: State, slot: Slot, reply: Reply): (s': State)
    ensures SameClock(s, s') && s'.handlers == s.handlers && s'.tasks == s.tasks && s'.home == s.home
  {
    if reply.Refused? then s else s.(locks := Force(s.locks, slot), log := s.log + [Forced(slot)])
  }

  ghost function Apply(s: State, e: Step): State
    requires Enabled(s, e)
  {
    match e
    case Tick => Ticked(s)
    case Begin(h, job, ttl, reply) => Begun(s, h, job, ttl, reply)
    case BeginFree(h, job) => BegunFree(s, h, job)
    case Post(h, ok) => Reported(s, h, ok)
    case Enqueue(h, i, reply) => Enqueued(s, h, i, reply)
    case Undo(h, reply) => Undone(s, h, reply)
    case HandlerCrash(h) => HandlerLost(s, h)
    case Start(i) => Moved(s, i, Started)
    case Check(i, reply) => Moved(s, i, AfterCheck(s, s.tasks[i], reply))
    case Claim(i, won) => Moved(s, i, if won then Tracks(0) else Leaving(false))
    case Send(i, ok) => Sent(s, i, ok)
    case Finish(i, again) => Moved(s, i, Leaving(again))
    case Leave(i, reply) => Left(s, i, reply)
    case WorkerCrash(i, back) => if back then Moved(s, i, Queued) else TaskLost(s, i)
    case Discard(i, _, _) => TaskLost(s, i)
    case Flag(ref, reply) => Raised(s, ref, reply)
    case Unlock(ref, reply) => Release'(s, ref, reply)
    case ForceUnlock(slot, reply) => Freed(s, slot, reply)
  }

  // ---------------------------------------------------------------- what steps leave alone

  predicate TouchesLocks(e: Step) {
    e.Begin? || e.Undo? || e.Leave? || e.Unlock? || e.ForceUnlock?
  }

  lemma LocksKept(s: State, e: Step)
    requires Enabled(s, e) && !TouchesLocks(e)
    ensures SameLocks(s, Apply(s, e)) && s.now <= Apply(s, e).now
  {
  }

  lemma ClockKept(s: State, e: Step)
    requires Enabled(s, e) && !e.Tick? && !e.Flag?
    ensures SameClock(s, Apply(s, e))
  {
  }

  lemma LogGrows(s: State, e: Step)
    requires Enabled(s, e)
    ensures s.log <= Apply(s, e).log
  {
    if !TouchesLocks(e) {
      LocksKept(s, e);
    }
  }

  lemma HandlersKept(s: State, e: Step)
    requires Enabled(s, e) && !HandlerStep(e)
    ensures Apply(s, e).handlers == s.handlers
  {
  }

  lemma TasksKept(s: State, e: Step)
    requires Enabled(s, e) && HandlerStep(e) && !e.Enqueue?
    ensures Apply(s, e).tasks == s.tasks
  {
  }

  /** A handler after a step was there before with its job, or has just begun. */
  lemma HandlersFrom(s: State, e: Step, h: nat)
    requires Enabled(s, e) && h in Apply(s, e).handlers
    ensures var job := Apply(s, e).handlers[h].job;
            || (h in s.handlers && s.handlers[h].job == job)
            || ((e.Begin? || e.BeginFree?) && e.h == h && e.job == job)
  {
    if !HandlerStep(e) {
      HandlersKept(s, e);
    }
  }

  /** A task after a step was there before with its job, or has just been enqueued. */
  lemma TasksFrom(s: State, e: Step, i: nat)
    requires Enabled(s, e) && i in Apply(s, e).tasks
    ensures var job := Apply(s, e).tasks[i].job;
            || (i in s.tasks && s.tasks[i].job == job)
            || (e.Enqueue? && e.i == i && s.handlers[e.h].job == job)
  {
    if HandlerStep(e) && !e.Enqueue? {
      TasksKept(s, e);
    }
  }

  // ---------------------------------------------------------------- runs

  const INIT := State(0, map[], map[], map[], map[], map[], {}, {}, [])

  ghost predicate Legal(s: State, steps: seq<Step>)
    decreases steps
  {
    steps == [] || (Enabled(s, steps[0]) && Legal(Apply(s, steps[0]), steps[1..]))
  }

  ghost function Exec(s: State, steps: seq<Step>): State
    requires Legal(s, steps)
    decreases steps
  {
    if steps == [] then s else Exec(Apply(s, steps[0]), steps[1..])
  }

  lemma Run1(s: State, a: Step)
    requires Enabled(s, a)
    ensures Legal(s, [a]) && Exec(s, [a]) == Apply(s, a)
  {
    assert [a][1..] == [];
  }

  lemma Run2(s: State, a: Step, b: Step)
    requires Enabled(s, a) && Enabled(Apply(s, a), b)
    ensures Legal(s, [a, b]) && Exec(s, [a, b]) == Apply(Apply(s, a), b)
  {
    assert [a, b][1..] == [b];
    Run1(Apply(s, a), b);
  }

  lemma Run3(s: State, a: Step, b: Step, c: Step)
    requires Enabled(s, a) && Enabled(Apply(s, a), b) && Enabled(Apply(Apply(s, a), b), c)
    ensures Legal(s, [a, b, c]) && Exec(s, [a, b, c]) == Apply(Apply(Apply(s, a), b), c)
  {
    assert [a, b, c][1..] == [b, c];
    Run2(Apply(s, a), b, c);
  }

  lemma {:induction false} Chain(s: State, a: seq<Step>, b: seq<Step>)
    requires Legal(s, a) && Legal(Exec(s, a), b)
    ensures Legal(s, a + b) && Exec(s, a + b) == Exec(Exec(s, a), b)
    decreases a
  {
    if a == [] {
      assert a + b == b;
    } else {
      Chain(Apply(s, a[0]), a[1..], b);
      assert (a + b)[0] == a[0] && (a + b)[1..] == a[1..] + b;
    }
  }

  lemma {:induction false} RunLogGrows(s: State, steps: seq<Step>)
    requires Legal(s, steps)
    ensures s.log <= Exec(s, steps).log
    decreases steps
  {
    if steps != [] {
      LogGrows(s, steps[0]);
      RunLogGrows(Apply(s, steps[0]), steps[1..]);
    }
  }

  lemma Compose(s: State, a: seq<Step>, s': State, b: seq<Step>, s'': State, all: seq<Step>)
    requires Legal(s, a) && Exec(s, a) == s' && Legal(s', b) && Exec(s', b) == s'' && all == a + b
    ensures Legal(s, all) && Exec(s, all) == s''
  {
    Chain(s, a, b);
  }

  /** One more step at the end of a run. */
  lemma Extend(s: State, steps: seq<Step>, e: Step)
    requires Legal(s, steps) && Enabled(Exec(s, steps), e)
    ensures Legal(s, steps + [e]) && Exec(s, steps + [e]) == Apply(Exec(s, steps), e)
  {
    Run1(Exec(s, steps), e);
    Chain(s, steps, [e]);
  }
}
