/** The whole course of one handler or worker when nothing else happens meanwhile: the steps it makes and
    the state it leaves, for every answer it can get. */
module Undisturbed {
  import opened Locks
  import opened Protocol

  // ---------------------------------------------------------------- what a handler does after its lock

  /** What the outside world answers one attempt. */
  datatype Answers = Answers(acquire: Reply, posted: bool, enqueue: Reply, release: Reply)

  function DeliverSteps(job: Job, i: nat, w: Answers, h: nat): seq<Step> {
    if !w.posted then
      if job.ref.token == "" then [Post(h, false)] else [Post(h, false), Undo(h, w.release)]
    else if w.enqueue.Delivered? || job.ref.token == "" then [Post(h, true), Enqueue(h, i, w.enqueue)]
    else [Post(h, true), Enqueue(h, i, w.enqueue), Undo(h, w.release)]
  }

  lemma PostEffect(s: State, h: nat, job: Job, ok: bool)
    requires h in s.handlers && s.handlers[h] == Handler(job, Holding) && !job.kind.Carousel?
    ensures Enabled(s, Post(h, ok))
    ensures var s' := Apply(s, Post(h, ok));
            && SameClock(s, s') && s'.locks == s.locks && s'.tasks == s.tasks
            && s'.handlers == if ok then s.handlers[h := Handler(job, Posted)]
                              else if job.ref.token == "" then s.handlers - {h}
                                     else s.handlers[h := Handler(job, Undoing)]
  {
  }

  lemma EnqueueEffect(s: State, h: nat, job: Job, i: nat, reply: Reply)
    requires h in s.handlers && s.handlers[h] == Handler(job, Posted) && !job.kind.Carousel? && i !in s.tasks
    ensures Enabled(s, Enqueue(h, i, reply))
    ensures var s' := Apply(s, Enqueue(h, i, reply));
            && SameClock(s, s') && s'.locks == s.locks
            && s'.tasks == (if reply.Refused? then s.tasks else s.tasks[i := Task(job, Retries(job.kind), Queued, 0)])
            && s'.handlers == if reply.Delivered? || job.ref.token == "" then s.handlers - {h}
                 else s.handlers[h := Handler(job, Undoing)]
  {
  }

  lemma UndoEffect(s: State, h: nat, job: Job, reply: Reply)
    requires h in s.handlers && s.handlers[h] == Handler(job, Undoing)
    ensures Enabled(s, Undo(h, reply))
    ensures var s' := Apply(s, Undo(h, reply));
            && SameClock(s, s') && s'.tasks == s.tasks && s'.handlers == s.handlers - {h}
            && s'.locks == if reply.Refused? then s.locks else Release(s.locks, job.ref, s.now)
  {
  }

  lemma DeliverEffect(s: State, job: Job, i: nat, w: Answers, h: nat)
    requires h in s.handlers && s.handlers[h] == Handler(job, Holding) && !job.kind.Carousel? && i !in s.tasks
    ensures Legal(s, DeliverSteps(job, i, w, h))
    ensures var s' := Exec(s, DeliverSteps(job, i, w, h));
            && SameClock(s, s') && s'.handlers == s.handlers - {h}
            && s'.tasks == (if w.posted && !w.enqueue.Refused?
                 then s.tasks[i := Task(job, Retries(job.kind), Queued, 0)] else s.tasks)
            && s'.locks == if (w.posted && w.enqueue.Delivered?) || job.ref.token == "" || w.release.Refused?
                 then s.locks
                           else Release(s.locks, job.ref, s.now)
  {
    PostEffect(s, h, job, w.posted);
    var s1 := Apply(s, Post(h, w.posted));
    if !w.posted {
      if job.ref.token == "" {
        Run1(s, Post(h, false));
      } else {
        UndoEffect(s1, h, job, w.release);
        Run2(s, Post(h, false), Undo(h, w.release));
        assert s1.handlers - {h} == s.handlers - {h};
      }
    } else {
      EnqueueEffect(s1, h, job, i, w.enqueue);
      var s2 := Apply(s1, Enqueue(h, i, w.enqueue));
      if w.enqueue.Delivered? || job.ref.token == "" {
        Run2(s, Post(h, true), Enqueue(h, i, w.enqueue));
        assert s1.handlers - {h} == s.handlers - {h};
      } else {
        UndoEffect(s2, h, job, w.release);
        Run3(s, Post(h, true), Enqueue(h, i, w.enqueue), Undo(h, w.release));
        assert s2.handlers - {h} == s.handlers - {h};
      }
    }
  }

  lemma BeginEffect(s: State, h: nat, job: Job, ttl: nat, reply: Reply)
    requires Enabled(s, Begin(h, job, ttl, reply))
    ensures var s' := Apply(s, Begin(h, job, ttl, reply));
            var free := !Held(s.locks, job.ref.slot, s.now);
            && SameClock(s, s') && s'.tasks == s.tasks
            && s'.locks == (if reply.Refused? then s.locks
                 else Acquire(s.locks, job.ref.slot, Lock(job.ref.scene, job.ref.token, s.now + ttl), s.now))
            && s'.handlers == if free && reply.Delivered? then s.handlers[h := Handler(job, Holding)] else s.handlers
  {
  }

  function First(job: Job, ttl: nat, w: Answers, h: nat): Step {
    if job.ref.token == "" then BeginFree(h, job) else Begin(h, job, ttl, w.acquire)
  }

  /** A new handler for a job that may wait on its queue, its token fresh when it has one. */
  predicate Fresh(s: State, h: nat, job: Job) {
    h !in s.handlers && WellQueued(job) && (job.ref.token != "" ==> job.ref.token !in s.home)
  }

  /** The handler goes on after its lock. */
  predicate GoesOn(s: State, job: Job, w: Answers) {
    job.ref.token == "" || (w.acquire.Delivered? && !Held(s.locks, job.ref.slot, s.now))
  }

  lemma FirstEffect(s: State, job: Job, ttl: nat, w: Answers, h: nat)
    requires Enabled(s, First(job, ttl, w, h))
    ensures var s' := Apply(s, First(job, ttl, w, h));
            && SameClock(s, s') && s'.tasks == s.tasks
            && s'.locks == (if job.ref.token == "" || w.acquire.Refused? then s.locks
                            else Acquire(s.locks, job.ref.slot, Lock(job.ref.scene, job.ref.token, s.now + ttl), s.now))
            && s'.handlers == if GoesOn(s, job, w) then s.handlers[h := Handler(job, Holding)] else s.handlers
  {
    if job.ref.token != "" {
      BeginEffect(s, h, job, ttl, w.acquire);
    }
  }

  /** Every step of one handler, from lock to queue or release. */
  function SubmitSteps(s: State, job: Job, ttl: nat, i: nat, w: Answers, h: nat): seq<Step> {
    [First(job, ttl, w, h)] + if GoesOn(s, job, w) then DeliverSteps(job, i, w, h) else []
  }

  lemma TakenThenReleased(locks: LockMap, ref: Ref, ttl: nat, now: nat)
    requires !Held(locks, ref.slot, now) && ttl > 0
    ensures var taken := Acquire(locks, ref.slot, Lock(ref.scene, ref.token, now + ttl), now);
            && taken == locks[ref.slot := Lock(ref.scene, ref.token, now + ttl)]
            && Release(taken, ref, now) == locks - {ref.slot}
  {
  }

  lemma FirstOpens(s: State, job: Job, ttl: nat, w: Answers, h: nat)
    requires Enabled(s, First(job, ttl, w, h)) && GoesOn(s, job, w)
    ensures var first := First(job, ttl, w, h);
            && Legal(s, [first]) && Exec(s, [first]) == Apply(s, first)
            && h !in s.handlers && h in Apply(s, first).handlers && Apply(s, first).handlers[h] == Handler(job, Holding)
  {
    Run1(s, First(job, ttl, w, h));
    FirstEffect(s, job, ttl, w, h);
  }

  /** What the handler does after its lock is legal, and leads where it leads from there. */
  lemma GoesOnLegal(s: State, job: Job, ttl: nat, i: nat, w: Answers, h: nat)
    requires Enabled(s, First(job, ttl, w, h)) && !job.kind.Carousel? && i !in s.tasks && GoesOn(s, job, w)
    ensures var s1 := Apply(s, First(job, ttl, w, h));
            && Legal(s1, DeliverSteps(job, i, w, h)) && Legal(s, SubmitSteps(s, job, ttl, i, w, h))
            && Exec(s, SubmitSteps(s, job, ttl, i, w, h)) == Exec(s1, DeliverSteps(job, i, w, h))
  {
    var s1 := Apply(s, First(job, ttl, w, h));
    FirstEffect(s, job, ttl, w, h);
    FirstOpens(s, job, ttl, w, h);
    DeliverEffect(s1, job, i, w, h);
    Chain(s, [First(job, ttl, w, h)], DeliverSteps(job, i, w, h));
  }

  /** The lock of a handler that goes on, at its end. */
  lemma GoesOnLock(s: State, job: Job, ttl: nat, i: nat, w: Answers, h: nat)
    requires Enabled(s, First(job, ttl, w, h)) && ttl > 0 && GoesOn(s, job, w)
    ensures var s1 := Apply(s, First(job, ttl, w, h));
            var lock := Lock(job.ref.scene, job.ref.token, s.now + ttl);
            && (job.ref.token == "" ==> s1.locks == s.locks)
            && (job.ref.token != "" ==> s1.locks == s.locks[job.ref.slot := lock]
                                        && Release(s1.locks, job.ref, s1.now) == s.locks - {job.ref.slot})
  {
    FirstEffect(s, job, ttl, w, h);
    if job.ref.token != "" {
      TakenThenReleased(s.locks, job.ref, ttl, s.now);
    }
  }

  lemma GoesOnEffect(s: State, job: Job, ttl: nat, i: nat, w: Answers, h: nat)
    requires Enabled(s, First(job, ttl, w, h)) && !job.kind.Carousel? && i !in s.tasks && ttl > 0 && GoesOn(s, job, w)
    ensures Legal(s, SubmitSteps(s, job, ttl, i, w, h))
    ensures var s' := Exec(s, SubmitSteps(s, job, ttl, i, w, h));
            && SameClock(s, s') && s'.handlers == s.handlers
            && s'.tasks == (if w.posted && !w.enqueue.Refused?
                 then s.tasks[i := Task(job, Retries(job.kind), Queued, 0)] else s.tasks)
            && s'.locks == if job.ref.token == "" then s.locks
                           else if w.release.Refused? || (w.posted && w.enqueue.Delivered?)
                           then s.locks[job.ref.slot := Lock(job.ref.scene, job.ref.token, s.now + ttl)]
                           else s.locks - {job.ref.slot}
  {
    var s1 := Apply(s, First(job, ttl, w, h));
    FirstEffect(s, job, ttl, w, h);
    FirstOpens(s, job, ttl, w, h);
    GoesOnLegal(s, job, ttl, i, w, h);
    GoesOnLock(s, job, ttl, i, w, h);
    DeliverEffect(s1, job, i, w, h);
    assert s1.handlers - {h} == s.handlers;
  }

  /** Every exit of a handler: a job in the queue with its lock held, or everything as before, but
      for a lock whose release was refused, a lock whose acquisition lost its reply, or a job whose
      enqueue lost its reply. */
  lemma SubmitEffect(s: State, job: Job, ttl: nat, i: nat, w: Answers, h: nat)
    requires Fresh(s, h, job) && !job.kind.Carousel? && i !in s.tasks && ttl > 0
    ensures Legal(s, SubmitSteps(s, job, ttl, i, w, h))
    ensures var s' := Exec(s, SubmitSteps(s, job, ttl, i, w, h));
            var slot := job.ref.slot;
            var lock := Lock(job.ref.scene, job.ref.token, s.now + ttl);
            && SameClock(s, s') && s'.handlers == s.handlers
            && s'.tasks == (if GoesOn(s, job, w) && w.posted && !w.enqueue.Refused?
                            then s.tasks[i := Task(job, if job.kind.Music? then 0 else 1, Queued, 0)] else s.tasks)
            && s'.locks == if job.ref.token == "" || w.acquire.Refused? || Held(s.locks, slot, s.now) then s.locks
                           else if w.acquire.Lost? || w.release.Refused? || (w.posted && w.enqueue.Delivered?)
                                  then s.locks[slot := lock]
                           else s.locks - {slot}
  {
    if GoesOn(s, job, w) {
      GoesOnEffect(s, job, ttl, i, w, h);
    } else {
      var first := First(job, ttl, w, h);
      FirstEffect(s, job, ttl, w, h);
      Run1(s, first);
      assert SubmitSteps(s, job, ttl, i, w, h) == [first];
    }
  }

  /** The carousel handler: no status message, and the queue's answer is not looked at. */
  function CarouselSteps(s: State, job: Job, ttl: nat, i: nat, w: Answers, h: nat): seq<Step> {
    [First(job, ttl, w, h)] + if GoesOn(s, job, w) then [Post(h, true), Enqueue(h, i, w.enqueue)] else []
  }

  lemma PushCarousel(s: State, job: Job, i: nat, reply: Reply, h: nat)
    requires h in s.handlers && s.handlers[h] == Handler(job, Holding) && job.kind.Carousel? && i !in s.tasks
    ensures Legal(s, [Post(h, true), Enqueue(h, i, reply)])
    ensures var s' := Exec(s, [Post(h, true), Enqueue(h, i, reply)]);
            && SameClock(s, s') && s'.handlers == s.handlers - {h} && s'.locks == s.locks
            && s'.tasks == if reply.Refused? then s.tasks else s.tasks[i := Task(job, 1, Queued, 0)]
  {
    var s1 := Apply(s, Post(h, true));
    assert s1.handlers == s.handlers[h := Handler(job, Posted)] && s1.tasks == s.tasks;
    Run2(s, Post(h, true), Enqueue(h, i, reply));
    assert s1.handlers - {h} == s.handlers - {h};
  }

  /** It never releases: a refused job leaves its lock behind. */
  lemma CarouselEffect(s: State, job: Job, ttl: nat, i: nat, w: Answers, h: nat)
    requires Fresh(s, h, job) && job.kind.Carousel? && i !in s.tasks && ttl > 0
    ensures Legal(s, CarouselSteps(s, job, ttl, i, w, h))
    ensures var s' := Exec(s, CarouselSteps(s, job, ttl, i, w, h));
            && SameClock(s, s') && s'.handlers == s.handlers
            && s'.tasks == (if GoesOn(s, job, w) && !w.enqueue.Refused? then s.tasks[i := Task(job, 1, Queued, 0)]
                 else s.tasks)
            && s'.locks == if job.ref.token == "" || w.acquire.Refused? then s.locks
                           else Acquire(s.locks, job.ref.slot, Lock(job.ref.scene, job.ref.token, s.now + ttl), s.now)
  {
    var first := First(job, ttl, w, h);
    FirstEffect(s, job, ttl, w, h);
    Run1(s, first);
    if GoesOn(s, job, w) {
      var s1 := Apply(s, first);
      PushCarousel(s1, job, i, w.enqueue, h);
      Chain(s, [first], [Post(h, true), Enqueue(h, i, w.enqueue)]);
      assert s1.handlers - {h} == s.handlers;
    } else {
      assert CarouselSteps(s, job, ttl, i, w, h) == [first];
    }
  }

  // ---------------------------------------------------------------- what the buttons and workers do

  function CancelSteps(ref: Ref, flag: Reply, release: Reply): seq<Step> {
    [Flag(ref, flag), Unlock(ref, release)]
  }

  lemma CancelEffect(s: State, ref: Ref, flag: Reply, release: Reply)
    ensures Legal(s, CancelSteps(ref, flag, release))
    ensures var s' := Exec(s, CancelSteps(ref, flag, release));
            && s'.now == s.now && s'.tasks == s.tasks && s'.handlers == s.handlers
            && s'.flags == (if flag.Refused? then s.flags else s.flags[ref := s.now + FLAG_TTL])
            && s'.locks == if release.Refused? then s.locks else Release(s.locks, ref, s.now)
  {
    Run2(s, Flag(ref, flag), Unlock(ref, release));
  }

  function ClearSteps(s: State, slot: Slot, read: Reply, flag: Reply, release: Reply): seq<Step> {
    if read.Delivered? && Held(s.locks, slot, s.now)
    then [Flag(Ref(slot, s.locks[slot].scene, s.locks[slot].token), flag), ForceUnlock(slot, release)]
    else [ForceUnlock(slot, release)]
  }

  lemma ClearEffect(s: State, slot: Slot, read: Reply, flag: Reply, release: Reply)
    ensures Legal(s, ClearSteps(s, slot, read, flag, release))
    ensures var s' := Exec(s, ClearSteps(s, slot, read, flag, release));
            && s'.now == s.now && s'.tasks == s.tasks && s'.handlers == s.handlers
            && s'.locks == (if release.Refused? then s.locks else Force(s.locks, slot))
            && s'.flags == if read.Delivered? && Held(s.locks, slot, s.now) && !flag.Refused?
                           then s.flags[Ref(slot, s.locks[slot].scene, s.locks[slot].token) := s.now + FLAG_TTL]
                                  else s.flags
  {
    if read.Delivered? && Held(s.locks, slot, s.now) {
      Run2(s, Flag(Ref(slot, s.locks[slot].scene, s.locks[slot].token), flag), ForceUnlock(slot, release));
    } else {
      Run1(s, ForceUnlock(slot, release));
    }
  }

  /** What one worker run meets: whether the flag was readable, whether the body asks for a retry,
      and what became of the deferred release. */
  datatype RunAnswers = RunAnswers(read: Reply, again: bool, release: Reply)

  predicate Looks(job: Job) {
    !job.kind.Carousel? && job.ref.token != "" && job.ref.scene != ""
  }

  predicate Runs(s: State, job: Job, w: RunAnswers) {
    !(Looks(job) && Stops(s, job, w.read))
  }

  function WorkSteps(s: State, job: Job, i: nat, w: RunAnswers): seq<Step> {
    [Start(i), Check(i, w.read)] + if Runs(s, job, w) then [Finish(i, w.again), Leave(i, w.release)]
      else [Leave(i, w.release)]
  }

  /** A task that goes back to the queue, or leaves it. */
  function Requeued(tasks: map<nat, Task>, i: nat, b: Task, again: bool): map<nat, Task> {
    if again && b.retries > 0 then tasks[i := b.(phase := Queued, retries := b.retries - 1)] else tasks - {i}
  }

  lemma ReturnLocks(s: State, ref: Ref, reply: Reply)
    ensures Returned(s, ref, reply).locks == if reply.Refused? || ref.token == "" || ref.scene == "" then s.locks
                                             else Release(s.locks, ref, s.now)
  {
  }

  lemma LeaveEffect(s: State, i: nat, b: Task, reply: Reply)
    requires i in s.tasks && s.tasks[i] == b && b.phase.Leaving?
    ensures Enabled(s, Leave(i, reply))
    ensures var s' := Apply(s, Leave(i, reply));
            && SameClock(s, s') && s'.handlers == s.handlers && s'.tasks == Requeued(s.tasks, i, b, b.phase.again)
            && s'.locks == if reply.Refused? || b.job.ref.token == "" || b.job.ref.scene == "" then s.locks
                           else Release(s.locks, b.job.ref, s.now)
  {
    ReturnLocks(s, b.job.ref, reply);
    var left := Left(s, i, reply);
    assert left.locks == Returned(s, b.job.ref, reply).locks;
  }

  lemma CheckEffect(s: State, i: nat, b: Task, read: Reply)
    requires i in s.tasks && s.tasks[i] == b && b.phase == Queued && !b.job.kind.Music?
    ensures Enabled(s, Start(i)) && Enabled(Apply(s, Start(i)), Check(i, read))
    ensures Apply(Apply(s, Start(i)), Check(i, read)) ==
            s.(tasks := s.tasks[i := b.(phase := if Looks(b.job) && Stops(s, b.job, read) then Leaving(false)
              else Body)])
  {
    assert s.tasks[i := b.(phase := Started)][i := b.(phase := Body)] == s.tasks[i := b.(phase := Body)];
    assert s.tasks[i := b.(phase := Started)][i := b.(phase := Leaving(false))]
             == s.tasks[i := b.(phase := Leaving(false))];
  }

  lemma FinishEffect(s: State, i: nat, b: Task, again: bool)
    requires i in s.tasks && s.tasks[i] == b && b.phase.Body?
    ensures Enabled(s, Finish(i, again))
    ensures Apply(s, Finish(i, again)) == s.(tasks := s.tasks[i := b.(phase := Leaving(again))])
  {
  }

  /** From the body or the refused start to the end of the run. */
  lemma TailEffect(s: State, i: nat, b: Task, tail: seq<Step>, w: RunAnswers)
    requires i in s.tasks && s.tasks[i] == b
    requires (b.phase.Body? && tail == [Finish(i, w.again), Leave(i, w.release)]) || (b.phase == Leaving(false)
               && tail == [Leave(i, w.release)])
    ensures Legal(s, tail)
    ensures var s' := Exec(s, tail);
            && SameClock(s, s') && s'.handlers == s.handlers
            && s'.tasks == Requeued(s.tasks, i, b, b.phase.Body? && w.again)
            && s'.locks == if w.release.Refused? || b.job.ref.token == "" || b.job.ref.scene == "" then s.locks
                           else Release(s.locks, b.job.ref, s.now)
  {
    if b.phase.Body? {
      var c := b.(phase := Leaving(w.again));
      FinishEffect(s, i, b, w.again);
      var s1 := s.(tasks := s.tasks[i := c]);
      LeaveEffect(s1, i, c, w.release);
      Run2(s, Finish(i, w.again), Leave(i, w.release));
      assert Requeued(s1.tasks, i, c, w.again) == Requeued(s.tasks, i, b, w.again);
    } else {
      LeaveEffect(s, i, b, w.release);
      Run1(s, Leave(i, w.release));
    }
  }

  /** One run of a fetch or carousel worker: the body is skipped exactly when the flag was read as
      set; the lock is released before the queue sees the result; only a retryable error of the body
      puts the task back, with its old token. */
  lemma WorkEffect(s: State, i: nat, b: Task, w: RunAnswers)
    requires i in s.tasks && s.tasks[i] == b && b.phase == Queued && !b.job.kind.Music?
    ensures Legal(s, WorkSteps(s, b.job, i, w))
    ensures var s' := Exec(s, WorkSteps(s, b.job, i, w));
            && SameClock(s, s') && s'.handlers == s.handlers
            && s'.tasks == (if Runs(s, b.job, w) && w.again && b.retries > 0
                            then s.tasks[i := b.(phase := Queued, retries := b.retries - 1)] else s.tasks - {i})
            && s'.locks == if w.release.Refused? || b.job.ref.token == "" || b.job.ref.scene == "" then s.locks
                           else Release(s.locks, b.job.ref, s.now)
  {
    var head := [Start(i), Check(i, w.read)];
    var tail := if Runs(s, b.job, w) then [Finish(i, w.again), Leave(i, w.release)] else [Leave(i, w.release)];
    var c := b.(phase := if Runs(s, b.job, w) then Body else Leaving(false));
    CheckEffect(s, i, b, w.read);
    Run2(s, Start(i), Check(i, w.read));
    var s2 := s.(tasks := s.tasks[i := c]);
    TailEffect(s2, i, c, tail, w);
    Chain(s, head, tail);
    assert Requeued(s2.tasks, i, c, w.again) == Requeued(s.tasks, i, b, w.again);
    assert Requeued(s2.tasks, i, c, false) == Requeued(s.tasks, i, b, false);
  }

  /** What a music worker meets: whether it won the release lock and could start, then per track
      whether the flag was readable and whether the track went out. */
  datatype MusicAnswers = MusicAnswers(won: bool, ready: bool, looks: seq<Reply>, sends: seq<bool>, release: Reply)

  function TrackSteps(flagged: bool, i: nat, w: MusicAnswers, k: nat): seq<Step>
    requires |w.looks| == |w.sends|
    decreases |w.looks| - k
  {
    if k >= |w.looks| then [Finish(i, false)]
    else if flagged && w.looks[k].Delivered? then [Check(i, w.looks[k])]
    else [Check(i, w.looks[k]), Send(i, w.sends[k])] + TrackSteps(flagged, i, w, k + 1)
  }

  /** How many tracks go out from track `k` on. */
  function TracksSent(flagged: bool, w: MusicAnswers, k: nat): nat
    requires |w.looks| == |w.sends|
    decreases |w.looks| - k
  {
    if k >= |w.looks| || (flagged && w.looks[k].Delivered?) then 0
    else (if w.sends[k] then 1 else 0) + TracksSent(flagged, w, k + 1)
  }

  /** The tracks from `k` to `stop` that went out. */
  function Out(sends: seq<bool>, k: nat, stop: nat): set<nat> {
    set j | 0 <= j < |sends| && sends[j] && k <= j < stop
  }

  lemma OutMore(sends: seq<bool>, k: nat, stop: nat)
    requires k < stop && k < |sends|
    ensures Out(sends, k, stop) == Out(sends, k + 1, stop) + if sends[k] then {k} else {}
  {
  }

  /** How many tracks go out: the successful sends before the first look that stops the loop. */
  lemma {:induction false} TracksSentIs(flagged: bool, w: MusicAnswers, k: nat) returns (stop: nat)
    requires |w.looks| == |w.sends| && k <= |w.looks|
    ensures k <= stop <= |w.looks| && (stop < |w.looks| ==> flagged && w.looks[stop].Delivered?)
    ensures forall j :: k <= j < stop ==> !(flagged && w.looks[j].Delivered?)
    ensures TracksSent(flagged, w, k) == |Out(w.sends, k, stop)|
    decreases |w.looks| - k
  {
    if k == |w.looks| || (flagged && w.looks[k].Delivered?) {
      stop := k;
      assert Out(w.sends, k, k) == {};
    } else {
      stop := TracksSentIs(flagged, w, k + 1);
      OutMore(w.sends, k, stop);
    }
  }

  lemma TrackEffect(s: State, i: nat, b: Task, read: Reply, ok: bool)
    requires i in s.tasks && s.tasks[i] == b && b.phase.Tracks? && b.job.kind.Music? && b.phase.next < b.job.kind.tracks
    ensures Enabled(s, Check(i, read))
    ensures Stops(s, b.job, read) ==> Apply(s, Check(i, read)) == s.(tasks := s.tasks[i := b.(phase := Leaving(false))])
    ensures !Stops(s, b.job, read) ==>
              && Enabled(Apply(s, Check(i, read)), Send(i, ok))
              && Apply(Apply(s, Check(i, read)), Send(i, ok)) ==
                 s.(tasks := s.tasks[i := b.(phase := Tracks(b.phase.next + 1), sent := b.sent + if ok then 1 else 0)])
  {
    var c := b.(phase := Sending(b.phase.next));
    var d := b.(phase := Tracks(b.phase.next + 1), sent := b.sent + if ok then 1 else 0);
    assert s.tasks[i := c][i := d] == s.tasks[i := d];
  }

  function Sending'(b: Task, ok: bool): Task
    requires b.phase.Tracks?
  {
    b.(phase := Tracks(b.phase.next + 1), sent := b.sent + if ok then 1 else 0)
  }

  lemma OneTrack(s: State, i: nat, b: Task, read: Reply, ok: bool)
    requires i in s.tasks && s.tasks[i] == b && b.phase.Tracks? && b.job.kind.Music? && b.phase.next < b.job.kind.tracks
    requires !Stops(s, b.job, read)
    ensures Legal(s, [Check(i, read), Send(i, ok)])
    ensures Exec(s, [Check(i, read), Send(i, ok)]) == s.(tasks := s.tasks[i := Sending'(b, ok)])
  {
    TrackEffect(s, i, b, read, ok);
    Run2(s, Check(i, read), Send(i, ok));
  }

  function Ended(b: Task, sent: nat): Task {
    b.(phase := Leaving(false), sent := b.sent + sent)
  }

  lemma LastTrack(s: State, i: nat, b: Task, w: MusicAnswers, k: nat)
    requires i in s.tasks && s.tasks[i] == b && b.phase == Tracks(k) && b.job.kind == Music(|w.looks|)
    requires |w.looks| == |w.sends| && k <= |w.looks|
    requires k == |w.looks| || Stops(s, b.job, w.looks[k])
    ensures var steps := TrackSteps(Flagged(s.flags, b.job.ref, s.now), i, w, k);
            Legal(s, steps) && Exec(s, steps) == s.(tasks := s.tasks[i := Ended(b, 0)])
  {
    if k == |w.looks| {
      Run1(s, Finish(i, false));
    } else {
      TrackEffect(s, i, b, w.looks[k], true);
      Run1(s, Check(i, w.looks[k]));
    }
  }

  /** One track, and then the run from the next one on. */
  lemma NextTrack(s: State, i: nat, b: Task, w: MusicAnswers, k: nat, flagged: bool, s': State)
    requires i in s.tasks && s.tasks[i] == b && b.phase == Tracks(k) && b.job.kind == Music(|w.looks|)
    requires |w.looks| == |w.sends| && k < |w.looks| && !Stops(s, b.job, w.looks[k])
    requires flagged == Flagged(s.flags, b.job.ref, s.now) && s' == s.(tasks := s.tasks[i := Sending'(b, w.sends[k])])
    requires Legal(s', TrackSteps(flagged, i, w, k + 1))
    ensures Legal(s, TrackSteps(flagged, i, w, k))
    ensures Exec(s, TrackSteps(flagged, i, w, k)) == Exec(s', TrackSteps(flagged, i, w, k + 1))
  {
    OneTrack(s, i, b, w.looks[k], w.sends[k]);
    Chain(s, [Check(i, w.looks[k]), Send(i, w.sends[k])], TrackSteps(flagged, i, w, k + 1));
  }

  lemma {:induction false} TrackRun(s: State, i: nat, b: Task, w: MusicAnswers, k: nat)
    requires i in s.tasks && s.tasks[i] == b && b.phase == Tracks(k) && b.job.kind == Music(|w.looks|)
    requires |w.looks| == |w.sends| && k <= |w.looks|
    ensures var flagged := Flagged(s.flags, b.job.ref, s.now);
            && Legal(s, TrackSteps(flagged, i, w, k))
            && Exec(s, TrackSteps(flagged, i, w, k)) == s.(tasks := s.tasks[i := Ended(b, TracksSent(flagged, w, k))])
    decreases |w.looks| - k
  {
    var flagged := Flagged(s.flags, b.job.ref, s.now);
    if k == |w.looks| || Stops(s, b.job, w.looks[k]) {
      LastTrack(s, i, b, w, k);
    } else {
      var c := Sending'(b, w.sends[k]);
      var s' := s.(tasks := s.tasks[i := c]);
      TrackRun(s', i, c, w, k + 1);
      NextTrack(s, i, b, w, k, flagged, s');
      var d := Ended(b, TracksSent(flagged, w, k));
      assert d == Ended(c, TracksSent(flagged, w, k + 1));
      assert s'.tasks[i := d] == s.tasks[i := d];
    }
  }

  function MiddleSteps(flagged: bool, i: nat, w: MusicAnswers): seq<Step>
    requires |w.looks| == |w.sends|
  {
    if !w.won then [] else if w.ready then TrackSteps(flagged, i, w, 0) else [Finish(i, false)]
  }

  function MusicSteps(flagged: bool, i: nat, w: MusicAnswers): seq<Step>
    requires |w.looks| == |w.sends|
  {
    [Start(i), Claim(i, w.won)] + MiddleSteps(flagged, i, w) + [Leave(i, w.release)]
  }

  function SentInRun(flagged: bool, w: MusicAnswers): nat
    requires |w.looks| == |w.sends|
  {
    if w.won && w.ready then TracksSent(flagged, w, 0) else 0
  }

  lemma TracksEffect(s: State, i: nat, c: Task, w: MusicAnswers)
    requires i in s.tasks && s.tasks[i] == c && c.job.kind == Music(|w.looks|) && |w.looks| == |w.sends|
    requires c.phase == if w.won then Tracks(0) else Leaving(false)
    ensures var flagged := Flagged(s.flags, c.job.ref, s.now);
            && Legal(s, MiddleSteps(flagged, i, w))
            && Exec(s, MiddleSteps(flagged, i, w)) == s.(tasks := s.tasks[i := Ended(c, SentInRun(flagged, w))])
  {
    if w.won && w.ready {
      TrackRun(s, i, c, w, 0);
    } else if w.won {
      Run1(s, Finish(i, false));
    } else {
      assert s.tasks[i := Ended(c, 0)] == s.tasks;
    }
  }

  lemma ClaimEffect(s: State, i: nat, b: Task, won: bool)
    requires i in s.tasks && s.tasks[i] == b && b.phase == Queued && b.job.kind.Music?
    ensures Enabled(s, Start(i)) && Enabled(Apply(s, Start(i)), Claim(i, won))
    ensures Apply(Apply(s, Start(i)), Claim(i, won)) == s.(tasks := s.tasks[i := b.(phase := if won then Tracks(0)
              else Leaving(false))])
  {
    assert s.tasks[i := b.(phase := Started)][i := b.(phase := Tracks(0))] == s.tasks[i := b.(phase := Tracks(0))];
    assert s.tasks[i := b.(phase := Started)][i := b.(phase := Leaving(false))]
             == s.tasks[i := b.(phase := Leaving(false))];
  }

  lemma MiddleEffect(s: State, i: nat, b: Task, w: MusicAnswers)
    requires i in s.tasks && s.tasks[i] == b && b.phase == Queued && b.job.kind == Music(|w.looks|)
    requires |w.looks| == |w.sends|
    ensures var flagged := Flagged(s.flags, b.job.ref, s.now);
            var steps := [Start(i), Claim(i, w.won)] + MiddleSteps(flagged, i, w);
            && Legal(s, steps)
            && Exec(s, steps) == s.(tasks := s.tasks[i := Ended(b, SentInRun(flagged, w))])
  {
    var flagged := Flagged(s.flags, b.job.ref, s.now);
    var head := [Start(i), Claim(i, w.won)];
    var c := b.(phase := if w.won then Tracks(0) else Leaving(false));
    ClaimEffect(s, i, b, w.won);
    Run2(s, Start(i), Claim(i, w.won));
    var s2 := s.(tasks := s.tasks[i := c]);
    var d := Ended(b, SentInRun(flagged, w));
    assert s2.tasks[i := d] == s.tasks[i := d];
    TracksEffect(s2, i, c, w);
    Compose(s, head, s2, MiddleSteps(flagged, i, w), s.(tasks := s.tasks[i := d]), head + MiddleSteps(flagged, i, w));
  }

  /** One music run: it never asks for a retry, and releases its lock on every path. */
  lemma MusicEffect(s: State, i: nat, b: Task, w: MusicAnswers)
    requires i in s.tasks && s.tasks[i] == b && b.phase == Queued && b.job.kind == Music(|w.looks|)
    requires |w.looks| == |w.sends|
    ensures var steps := MusicSteps(Flagged(s.flags, b.job.ref, s.now), i, w);
            && Legal(s, steps)
            && var s' := Exec(s, steps);
               && SameClock(s, s') && s'.handlers == s.handlers && s'.tasks == s.tasks - {i}
               && s'.locks == if w.release.Refused? || b.job.ref.token == "" || b.job.ref.scene == "" then s.locks
                              else Release(s.locks, b.job.ref, s.now)
  {
    var flagged := Flagged(s.flags, b.job.ref, s.now);
    var d := Ended(b, SentInRun(flagged, w));
    var s3 := s.(tasks := s.tasks[i := d]);
    MiddleEffect(s, i, b, w);
    LeaveEffect(s3, i, d, w.release);
    Run1(s3, Leave(i, w.release));
    Chain(s, [Start(i), Claim(i, w.won)] + MiddleSteps(flagged, i, w), [Leave(i, w.release)]);
    assert s3.tasks - {i} == s.tasks - {i};
  }
}
