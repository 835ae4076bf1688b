/** The handlers and workers on the real Redis keys and the real queue, one protocol step per method: a
    handler's and a worker's program counter is kept in the backend, so any interleaving of these methods is a
    run of the protocol. */
module Service {
  import opened Text
  import opened Locks
  import opened Protocol
  import opened RedisClient
  import opened Interleaving
  import opened Undisturbed

  // ---------------------------------------------------------------- what each step changes

  /** The parts of a state that exist outside the model. */
  ghost predicate Is(s: State, locks: LockMap, flags: FlagMap, handlers: map<nat, Handler>, tasks: map<nat, Task>,
                     home: map<string, Ref>) {
    s.locks == locks && s.flags == flags && s.handlers == handlers && s.tasks == tasks && s.home == home
  }

  lemma BeginParts(s: State, h: nat, job: Job, ttl: nat, reply: Reply)
    requires Enabled(s, Begin(h, job, ttl, reply))
    ensures var s' := Apply(s, Begin(h, job, ttl, reply));
            var taken := !reply.Refused? && !Held(s.locks, job.ref.slot, s.now);
            s'.now == s.now && Is(s',
              if reply.Refused? then s.locks
              else Acquire(s.locks, job.ref.slot, Lock(job.ref.scene, job.ref.token, s.now + ttl), s.now), s.flags,
              if taken && reply.Delivered? then s.handlers[h := Handler(job, Holding)] else s.handlers, s.tasks,
              if taken then s.home[job.ref.token := job.ref] else s.home)
  {
  }

  lemma PostParts(s: State, h: nat, ok: bool)
    requires Enabled(s, Post(h, ok))
    ensures var s' := Apply(s, Post(h, ok)); var a := s.handlers[h];
            s'.now == s.now && Is(s', s.locks, s.flags,
              if ok then s.handlers[h := a.(phase := Posted)]
              else if a.job.ref.token == "" then s.handlers - {h} else s.handlers[h := a.(phase := Undoing)],
              s.tasks, s.home)
  {
  }

  lemma EnqueueParts(s: State, h: nat, i: nat, reply: Reply)
    requires Enabled(s, Enqueue(h, i, reply))
    ensures var s' := Apply(s, Enqueue(h, i, reply)); var a := s.handlers[h];
            s'.now == s.now && Is(s', s.locks, s.flags,
              if reply.Delivered? || a.job.kind.Carousel? || a.job.ref.token == "" then s.handlers - {h}
              else s.handlers[h := a.(phase := Undoing)],
              if reply.Refused? then s.tasks else s.tasks[i := Task(a.job, Retries(a.job.kind), Queued, 0)], s.home)
  {
  }

  lemma UndoParts(s: State, h: nat, reply: Reply)
    requires Enabled(s, Undo(h, reply))
    ensures var s' := Apply(s, Undo(h, reply)); var ref := s.handlers[h].job.ref;
            s'.now == s.now && Is(s', if reply.Refused? then s.locks else Release(s.locks, ref, s.now), s.flags,
              s.handlers - {h}, s.tasks, s.home)
  {
  }

  lemma LeaveHome(s: State, i: nat, reply: Reply)
    requires Enabled(s, Leave(i, reply))
    ensures Apply(s, Leave(i, reply)).home == s.home
  {
  }

  lemma LeaveParts(s: State, i: nat, reply: Reply)
    requires Enabled(s, Leave(i, reply))
    ensures var s' := Apply(s, Leave(i, reply)); var b := s.tasks[i]; var ref := b.job.ref;
            s'.now == s.now && Is(s',
              if reply.Refused? || ref.token == "" || ref.scene == "" then s.locks else Release(s.locks, ref, s.now),
              s.flags, s.handlers, Requeued(s.tasks, i, b, b.phase.again), s.home)
  {
    LeaveEffect(s, i, s.tasks[i], reply);
    LeaveHome(s, i, reply);
  }

  lemma CrashParts(s: State, i: nat, back: bool)
    requires Enabled(s, WorkerCrash(i, back))
    ensures var s' := Apply(s, WorkerCrash(i, back));
            s'.now == s.now && Is(s', s.locks, s.flags, s.handlers,
              if back then s.tasks[i := s.tasks[i].(phase := Queued)] else s.tasks - {i}, s.home)
  {
  }

  lemma AbandonParts(s: State, h: nat)
    requires Enabled(s, HandlerCrash(h))
    ensures var s' := Apply(s, HandlerCrash(h));
            s'.now == s.now && Is(s', s.locks, s.flags, s.handlers - {h}, s.tasks, s.home)
  {
  }

  lemma DiscardParts(s: State, e: Step)
    requires Enabled(s, e) && e.Discard?
    ensures var s' := Apply(s, e); s'.now == s.now && Is(s', s.locks, s.flags, s.handlers, s.tasks - {e.i}, s.home)
  {
  }

  lemma ButtonParts(s: State, e: Step)
    requires Enabled(s, e) && (e.Flag? || e.Unlock? || e.ForceUnlock?)
    ensures var s' := Apply(s, e);
            s'.now == s.now && Is(s',
              if e.Flag? || e.reply.Refused? then s.locks
              else if e.Unlock? then Release(s.locks, e.ref, s.now) else Force(s.locks, e.slot),
              if e.Flag? && !e.reply.Refused? then s.flags[e.ref := s.now + FLAG_TTL] else s.flags,
              s.handlers, s.tasks, s.home)
  {
  }

  /** The track went out or failed; the next one is up. */
  function Onward(b: Task, ok: bool): (c: Task)
    requires b.phase.Sending?
    ensures c.job == b.job
  {
    b.(phase := Tracks(b.phase.track + 1), sent := if ok then b.sent + 1 else b.sent)
  }

  /** Where a worker's program counter goes. */
  function Worked(s: State, e: Step, b: Task): Task
    requires e.Start? || e.Check? || e.Claim? || (e.Send? && b.phase.Sending?) || e.Finish?
  {
    match e
    case Start(_) => b.(phase := Started)
    case Check(_, reply) => b.(phase := AfterCheck(s, b, reply))
    case Claim(_, won) => b.(phase := if won then Tracks(0) else Leaving(false))
    case Send(_, ok) => Onward(b, ok)
    case Finish(_, again) => b.(phase := Leaving(again))
  }

  lemma SendParts(s: State, i: nat, ok: bool)
    requires Enabled(s, Send(i, ok))
    ensures var s' := Apply(s, Send(i, ok));
            && s'.now == s.now && Is(s', s.locks, s.flags, s.handlers, s.tasks[i := Onward(s.tasks[i], ok)], s.home)
  {
  }

  lemma WorkParts(s: State, e: Step)
    requires Enabled(s, e) && (e.Start? || e.Check? || e.Claim? || e.Send? || e.Finish?)
    ensures var s' := Apply(s, e); var b := s.tasks[e.i];
            s'.now == s.now && Is(s', s.locks, s.flags, s.handlers, s.tasks[e.i := Worked(s, e, b)], s.home)
  {
  }

  // ---------------------------------------------------------------- the backend

  /** Scenes are literals and tokens are UUIDs: neither contains a colon, wherever they are kept. */
  ghost predicate Proper(locks: LockMap, handlers: map<nat, Handler>, tasks: map<nat, Task>) {
    && (forall slot :: slot in locks ==>
          Free(locks[slot].scene, ':') && Free(locks[slot].token, ':') && locks[slot].token != "")
    && (forall h :: h in handlers ==> Clean(handlers[h].job.ref))
    && (forall i :: i in tasks ==> Clean(tasks[i].job.ref))
  }

  lemma ProperMoved(locks: LockMap, handlers: map<nat, Handler>, tasks: map<nat, Task>, i: nat, b: Task)
    requires Proper(locks, handlers, tasks) && i in tasks && b.job == tasks[i].job
    ensures Proper(locks, handlers, tasks[i := b])
  {
  }

  predicate CleanStep(e: Step) {
    match e
    case Begin(_, job, _, _) => Clean(job.ref)
    case BeginFree(_, job) => Clean(job.ref)
    case Flag(ref, _) => Clean(ref)
    case Unlock(ref, _) => Clean(ref)
    case _ => true
  }

  /** Redis, the queue's tasks, the handlers under way, the tokens drawn so far, and the protocol state all of
      them implement. */
  class Backend {
    const redis: Redis
    var handlers: map<nat, Handler>
    var tasks: map<nat, Task>
    var issued: map<string, Ref>
    ghost var sys: State

    constructor (redis: Redis)
      requires redis.Valid() && redis.now == 0 && redis.locks == map[] && redis.flags == map[]
      ensures this.redis == redis && Valid() && sys == INIT
    {
      this.redis, handlers, tasks, issued, sys := redis, map[], map[], map[], INIT;
    }

    ghost predicate Valid()
      reads this, redis
    {
      && redis.Valid() && sys.now == redis.now
      && Is(sys, redis.locks, redis.flags, handlers, tasks, issued)
      && Proper(redis.locks, handlers, tasks)
    }

    /** What deciding whether a step can happen needs to look at. */
    function View(): State
      reads this
    {
      State(0, map[], map[], handlers, tasks, issued, {}, {}, [])
    }

    predicate Can(e: Step)
      reads this
    {
      Enabled(View(), e) && CleanStep(e)
    }

    lemma CanIsEnabled(e: Step)
      requires Valid()
      ensures Can(e) <==> Enabled(sys, e) && CleanStep(e)
    {
    }

    method Tick()
      requires Valid()
      modifies this`sys, redis`now
      ensures Valid() && sys == Apply(old(sys), Step.Tick)
    {
      redis.now := redis.now + 1;
      sys := Apply(sys, Step.Tick);
    }

    method CrashHandler(h: nat)
      requires Valid() && Enabled(sys, HandlerCrash(h))
      modifies this`sys, this`handlers
      ensures Valid() && sys == Apply(old(sys), HandlerCrash(h))
    {
      AbandonParts(sys, h);
      handlers := handlers - {h};
      sys := Apply(sys, HandlerCrash(h));
    }

    method CrashWorker(i: nat, back: bool)
      requires Valid() && Enabled(sys, WorkerCrash(i, back))
      modifies this`sys, this`tasks
      ensures Valid() && sys == Apply(old(sys), WorkerCrash(i, back))
    {
      CrashParts(sys, i, back);
      tasks := if back then tasks[i := tasks[i].(phase := Queued)] else tasks - {i};
      sys := Apply(sys, WorkerCrash(i, back));
    }

    /** The inspector deletes a waiting task. */
    method Delete(i: nat, clearer: Slot, queue: string)
      requires Valid() && Enabled(sys, Discard(i, clearer, queue))
      modifies this`sys, this`tasks
      ensures Valid() && sys == Apply(old(sys), Discard(i, clearer, queue))
    {
      DiscardParts(sys, Discard(i, clearer, queue));
      tasks := tasks - {i};
      sys := Apply(sys, Discard(i, clearer, queue));
    }
  }

  // ---------------------------------------------------------------- one step at a time

  class Bot {
    const backend: Backend
    const client: Client
    const adminID: int

    constructor (backend: Backend, client: Client, adminID: int)
      requires client.rdb == backend.redis
      ensures this.backend == backend && this.client == client && this.adminID == adminID
    {
      this.backend, this.client, this.adminID := backend, client, adminID;
    }

    ghost predicate Valid()
      reads backend, backend.redis
    {
      client.rdb == backend.redis && backend.Valid()
    }

    method TakeLock(h: nat, job: Job, ttl: nat, reply: Reply) returns (got: Acquired)
      requires Valid() && job.ref.slot.bot == client.prefix && Clean(job.ref)
      requires Enabled(backend.sys, Begin(h, job, ttl, reply))
      modifies backend, backend.redis`strings, backend.redis`locks
      ensures Valid() && backend.sys == Apply(old(backend.sys), Begin(h, job, ttl, reply))
      ensures got == if !reply.Delivered? then Failed
                     else if Held(old(backend.sys.locks), job.ref.slot, old(backend.sys.now)) then Busy
                     else Got(job.ref.token)
    {
      BeginParts(backend.sys, h, job, ttl, reply);
      var held := backend.redis.Exists(LockKey(job.ref.slot));
      assert held == Held(backend.redis.locks, job.ref.slot, backend.redis.now);
      backend.sys := Apply(backend.sys, Begin(h, job, ttl, reply));
      got := client.AcquireUserLock(job.ref.slot.user, job.ref.scene, ttl, job.ref.token, reply);
      if !reply.Refused? && !held {
        backend.issued := backend.issued[job.ref.token := job.ref];
      }
      if got.Got? {
        backend.handlers := backend.handlers[h := Handler(job, Holding)];
      }
    }

    method TakeNoLock(h: nat, job: Job)
      requires Valid() && Clean(job.ref) && Enabled(backend.sys, BeginFree(h, job))
      modifies backend
      ensures Valid() && backend.sys == Apply(old(backend.sys), BeginFree(h, job))
    {
      backend.handlers := backend.handlers[h := Handler(job, Holding)];
      backend.sys := Apply(backend.sys, BeginFree(h, job));
    }

    /** Checks, card and status message. */
    method PostStatus(h: nat, ok: bool)
      requires Valid() && Enabled(backend.sys, Post(h, ok))
      modifies backend
      ensures Valid() && backend.sys == Apply(old(backend.sys), Post(h, ok))
    {
      PostParts(backend.sys, h, ok);
      backend.sys := Apply(backend.sys, Post(h, ok));
      var a := backend.handlers[h];
      if ok {
        backend.handlers := backend.handlers[h := a.(phase := Posted)];
      } else if a.job.ref.token == "" {
        backend.handlers := backend.handlers - {h};
      } else {
        backend.handlers := backend.handlers[h := a.(phase := Undoing)];
      }
    }

    method Push(h: nat, i: nat, reply: Reply)
      requires Valid() && Enabled(backend.sys, Step.Enqueue(h, i, reply))
      modifies backend
      ensures Valid() && backend.sys == Apply(old(backend.sys), Step.Enqueue(h, i, reply))
    {
      EnqueueParts(backend.sys, h, i, reply);
      backend.sys := Apply(backend.sys, Step.Enqueue(h, i, reply));
      var a := backend.handlers[h];
      if !reply.Refused? {
        backend.tasks := backend.tasks[i := Task(a.job, Retries(a.job.kind), Queued, 0)];
      }
      if reply.Delivered? || a.job.kind.Carousel? || a.job.ref.token == "" {
        backend.handlers := backend.handlers - {h};
      } else {
        backend.handlers := backend.handlers[h := a.(phase := Undoing)];
      }
    }

    method GiveUp(h: nat, reply: Reply)
      requires Valid() && Enabled(backend.sys, Undo(h, reply))
      requires backend.handlers[h].job.ref.slot.bot == client.prefix
      modifies backend, backend.redis`strings, backend.redis`locks
      ensures Valid() && backend.sys == Apply(old(backend.sys), Undo(h, reply))
    {
      UndoParts(backend.sys, h, reply);
      var ref := backend.handlers[h].job.ref;
      backend.sys := Apply(backend.sys, Undo(h, reply));
      client.ReleaseUserLock(ref.slot.user, ref.scene, ref.token, reply);
      backend.handlers := backend.handlers - {h};
    }

    method RaiseFlag(ref: Ref, reply: Reply)
      requires Valid() && ref.slot.bot == client.prefix && Clean(ref)
      modifies backend`sys, backend.redis`strings, backend.redis`flags
      ensures Valid() && backend.sys == Apply(old(backend.sys), Flag(ref, reply))
    {
      ButtonParts(backend.sys, Flag(ref, reply));
      backend.sys := Apply(backend.sys, Flag(ref, reply));
      client.SetDownloadCancelled(ref.scene, ref.slot.user, ref.token, FLAG_TTL, reply);
    }

    method FreeLock(ref: Ref, reply: Reply)
      requires Valid() && ref.slot.bot == client.prefix && Clean(ref)
      modifies backend`sys, backend.redis`strings, backend.redis`locks
      ensures Valid() && backend.sys == Apply(old(backend.sys), Unlock(ref, reply))
    {
      ButtonParts(backend.sys, Unlock(ref, reply));
      backend.sys := Apply(backend.sys, Unlock(ref, reply));
      client.ReleaseUserLock(ref.slot.user, ref.scene, ref.token, reply);
    }

    method ForceFree(user: int, reply: Reply)
      requires Valid()
      modifies backend`sys, backend.redis`strings, backend.redis`locks
      ensures Valid() && backend.sys == Apply(old(backend.sys), ForceUnlock(Slot(client.prefix, user), reply))
    {
      ButtonParts(backend.sys, ForceUnlock(Slot(client.prefix, user), reply));
      backend.sys := Apply(backend.sys, ForceUnlock(Slot(client.prefix, user), reply));
      client.ForceReleaseUserLock(user, reply);
    }
  }

  class Worker {
    const backend: Backend
    const client: Client

    constructor (backend: Backend, client: Client)
      requires client.rdb == backend.redis
      ensures this.backend == backend && this.client == client
    {
      this.backend, this.client := backend, client;
    }

    ghost predicate Valid()
      reads backend, backend.redis
    {
      client.rdb == backend.redis && backend.Valid()
    }

    method CheckCancelled(job: Job, read: Reply) returns (cancelled: bool)
      requires Valid() && job.ref.slot.bot == client.prefix && Clean(job.ref)
      ensures cancelled <==> job.ref.token != "" && job.ref.scene != "" && Stops(backend.sys, job, read)
    {
      if job.ref.token == "" || job.ref.scene == "" {
        return false;
      }
      cancelled := client.IsDownloadCancelled(job.ref.scene, job.ref.slot.user, job.ref.token, read);
    }

    method ReleaseLock(job: Job, reply: Reply)
      requires Valid() && job.ref.slot.bot == client.prefix && Free(job.ref.token, ':')
      modifies backend.redis`strings, backend.redis`locks
      ensures backend.redis.Valid()
      ensures backend.redis.locks == if reply.Refused? || job.ref.token == "" || job.ref.scene == ""
                then old(backend.redis.locks)
                                     else Release(old(backend.redis.locks), job.ref, backend.redis.now)
    {
      if job.ref.token == "" || job.ref.scene == "" {
        return;
      }
      client.ReleaseUserLock(job.ref.slot.user, job.ref.scene, job.ref.token, reply);
    }

    method Pick(i: nat)
      requires Valid() && Enabled(backend.sys, Start(i))
      modifies backend
      ensures Valid() && backend.sys == Apply(old(backend.sys), Start(i))
    {
      WorkParts(backend.sys, Start(i));
      backend.sys := Apply(backend.sys, Start(i));
      backend.tasks := backend.tasks[i := backend.tasks[i].(phase := Started)];
    }

    /** A fetch looks once, the carousel not at all, a music release before every track. */
    method Look(i: nat, read: Reply) returns (stop: bool)
      requires Valid() && Enabled(backend.sys, Check(i, read))
      requires backend.tasks[i].job.ref.slot.bot == client.prefix
      modifies backend
      ensures Valid() && backend.sys == Apply(old(backend.sys), Check(i, read))
      ensures stop <==> backend.tasks[i].phase == Leaving(false)
      ensures i in backend.tasks
    {
      WorkParts(backend.sys, Check(i, read));
      var b := backend.tasks[i];
      var ref := b.job.ref;
      stop := false;
      if b.phase.Tracks? {
        stop := client.IsDownloadCancelled(ref.scene, ref.slot.user, ref.token, read);
      } else if !b.job.kind.Carousel? {
        stop := CheckCancelled(b.job, read);
      }
      backend.sys := Apply(backend.sys, Check(i, read));
      var phase := if stop then Leaving(false) else if b.phase.Tracks? then Sending(b.phase.next) else Body;
      backend.tasks := backend.tasks[i := b.(phase := phase)];
    }

    method TakeRelease(i: nat, won: bool)
      requires Valid() && Enabled(backend.sys, Step.Claim(i, won))
      modifies backend
      ensures Valid() && backend.sys == Apply(old(backend.sys), Step.Claim(i, won))
    {
      WorkParts(backend.sys, Step.Claim(i, won));
      backend.sys := Apply(backend.sys, Step.Claim(i, won));
      backend.tasks := backend.tasks[i := backend.tasks[i].(phase := if won then Tracks(0) else Leaving(false))];
    }

    method SendTrack(i: nat, ok: bool)
      requires Valid() && Enabled(backend.sys, Send(i, ok))
      modifies backend
      ensures Valid() && backend.sys == Apply(old(backend.sys), Send(i, ok))
    {
      var b := backend.tasks[i];
      var c := Onward(b, ok);
      SendParts(backend.sys, i, ok);
      ProperMoved(backend.redis.locks, backend.handlers, backend.tasks, i, c);
      backend.sys := Apply(backend.sys, Send(i, ok));
      backend.tasks := backend.tasks[i := c];
    }

    method End(i: nat, again: bool)
      requires Valid() && Enabled(backend.sys, Finish(i, again))
      modifies backend
      ensures Valid() && backend.sys == Apply(old(backend.sys), Finish(i, again))
    {
      WorkParts(backend.sys, Finish(i, again));
      backend.sys := Apply(backend.sys, Finish(i, again));
      backend.tasks := backend.tasks[i := backend.tasks[i].(phase := Leaving(again))];
    }

    /** The deferred release, and then the queue's retry or the end of the task. */
    method Return(i: nat, reply: Reply)
      requires Valid() && Enabled(backend.sys, Leave(i, reply))
      requires backend.tasks[i].job.ref.slot.bot == client.prefix
      modifies backend, backend.redis`strings, backend.redis`locks
      ensures Valid() && backend.sys == Apply(old(backend.sys), Leave(i, reply))
    {
      LeaveParts(backend.sys, i, reply);
      var b := backend.tasks[i];
      ReleaseLock(b.job, reply);
      backend.sys := Apply(backend.sys, Leave(i, reply));
      backend.tasks := Requeued(backend.tasks, i, b, b.phase.again);
    }
  }

  // ---------------------------------------------------------------- anybody's step

  predicate OfWorker(e: Step) {
    e.Start? || e.Check? || e.Claim? || e.Send? || e.Finish? || e.Leave?
  }

  predicate OfBot(e: Step) {
    e.Begin? || e.BeginFree? || e.Post? || e.Enqueue? || e.Undo? || e.Flag? || e.Unlock? || e.ForceUnlock?
  }

  method PerformWork(b: Backend, e: Step)
    requires b.Valid() && Enabled(b.sys, e) && OfWorker(e)
    modifies b, b.redis
    ensures b.Valid() && b.sys == Apply(old(b.sys), e)
  {
    var client := new Client(b.redis, b.tasks[e.i].job.ref.slot.bot);
    var worker := new Worker(b, client);
    match e
    case Start(i) => worker.Pick(i);
    case Check(i, reply) => var _ := worker.Look(i, reply);
    case Claim(i, won) => worker.TakeRelease(i, won);
    case Send(i, ok) => worker.SendTrack(i, ok);
    case Finish(i, again) => worker.End(i, again);
    case Leave(i, reply) => worker.Return(i, reply);
  }

  /** The bot a handler's or button's step runs in. */
  function BotOf(b: Backend, e: Step): string
    requires OfBot(e) && (e.Post? || e.Enqueue? || e.Undo? ==> e.h in b.handlers)
    reads b
  {
    match e
    case Begin(_, job, _, _) => job.ref.slot.bot
    case BeginFree(_, job) => job.ref.slot.bot
    case Flag(ref, _) => ref.slot.bot
    case Unlock(ref, _) => ref.slot.bot
    case ForceUnlock(slot, _) => slot.bot
    case _ => b.handlers[e.h].job.ref.slot.bot
  }

  method PerformHandling(b: Backend, e: Step)
    requires b.Valid() && Enabled(b.sys, e) && CleanStep(e) && OfBot(e)
    modifies b, b.redis
    ensures b.Valid() && b.sys == Apply(old(b.sys), e)
  {
    var client := new Client(b.redis, BotOf(b, e));
    var bot := new Bot(b, client, 0);
    match e
    case Begin(h, job, ttl, reply) => var _ := bot.TakeLock(h, job, ttl, reply);
    case BeginFree(h, job) => bot.TakeNoLock(h, job);
    case Post(h, ok) => bot.PostStatus(h, ok);
    case Enqueue(h, i, reply) => bot.Push(h, i, reply);
    case Undo(h, reply) => bot.GiveUp(h, reply);
    case Flag(ref, reply) => bot.RaiseFlag(ref, reply);
    case Unlock(ref, reply) => bot.FreeLock(ref, reply);
    case ForceUnlock(slot, reply) => bot.ForceFree(slot.user, reply);
  }

  /** One step of whoever it belongs to, through the method that makes it. */
  method Perform(b: Backend, e: Step)
    requires b.Valid() && b.Can(e)
    modifies b, b.redis
    ensures b.Valid() && b.sys == Apply(old(b.sys), e)
  {
    b.CanIsEnabled(e);
    if OfWorker(e) {
      PerformWork(b, e);
    } else if OfBot(e) {
      PerformHandling(b, e);
    } else {
      match e
      case Tick => b.Tick();
      case HandlerCrash(h) => b.CrashHandler(h);
      case WorkerCrash(i, back) => b.CrashWorker(i, back);
      case Discard(i, clearer, queue) => b.Delete(i, clearer, queue);
    }
  }

  /** Any run of the protocol, in any interleaving of any number of bots and workers, is what these methods do
      when they are called in that order. */
  method PerformRun(b: Backend, run: seq<Step>)
    requires b.Valid() && Legal(b.sys, run) && forall k :: 0 <= k < |run| ==> CleanStep(run[k])
    modifies b, b.redis
    ensures b.Valid() && b.sys == Exec(old(b.sys), run)
  {
    for k := 0 to |run|
      invariant b.Valid() && Legal(b.sys, run[k..]) && Exec(b.sys, run[k..]) == Exec(old(b.sys), run)
    {
      assert run[k..][0] == run[k] && run[k..][1..] == run[k + 1..];
      b.CanIsEnabled(run[k]);
      Perform(b, run[k]);
    }
  }

  /** Any number of any steps that are not the given party's own. */
  method Elsewhere(b: Backend, p: Party) returns (ghost run: seq<Step>)
    requires b.Valid()
    modifies b, b.redis
    ensures b.Valid() && Ran(old(b.sys), run, b.sys) && Others(run, p)
  {
    run := [];
    var n: int := *;
    while n > 0
      invariant b.Valid() && Ran(old(b.sys), run, b.sys) && Others(run, p)
    {
      n := n - 1;
      var e: Step := *;
      if b.Can(e) && Owner(e) != p {
        b.CanIsEnabled(e);
        RanStep(old(b.sys), run, b.sys, e);
        Perform(b, e);
        run := run + [e];
      }
    }
  }
}
