/** The handlers and workers as the code has them, each a sequence of the step methods of Service with any
    number of steps by anybody else between two of its own: whatever the others do, the party's own steps are
    the ones of its program, and all of them together are a run of the protocol. */
module Courses {
  import opened Text
  import opened Locks
  import opened Protocol
  import opened RedisClient
  import opened Interleaving
  import opened Undisturbed
  import opened Service
  import CancelButton

  // ---------------------------------------------------------------- others meanwhile

  /** The run so far and the party's own steps in it. */
  ghost predicate Course(from: State, run: seq<Step>, p: Party, own: seq<Step>, s: State) {
    Ran(from, run, s) && Own(run, p) == own
  }

  lemma Joined(own: seq<Step>, a: Step, b: Step)
    ensures own + [a] + [b] == own + [a, b]
  {
  }

  /** Others go on; the party's own steps so far and its program counter stay. */
  method Meanwhile(b: Backend, ghost from: State, ghost run: seq<Step>, p: Party) returns (ghost longer: seq<Step>)
    requires b.Valid() && Ran(from, run, b.sys)
    modifies b, b.redis
    ensures b.Valid() && Ran(from, longer, b.sys) && Own(longer, p) == Own(run, p) && run <= longer
    ensures p.TheHandler? && p.h in old(b.handlers) ==> p.h in b.handlers && b.handlers[p.h] == old(b.handlers[p.h])
    ensures p.TheTask? && p.i in old(b.tasks) ==> p.i in b.tasks && b.tasks[p.i] == old(b.tasks[p.i])
  {
    ghost var s := b.sys;
    ghost var more := Elsewhere(b, p);
    RanMore(from, run, s, more, b.sys);
    OwnOthers(run, more, p);
    if p.TheHandler? && p.h in s.handlers {
      HandlerUntouched(s, more, p.h);
    }
    if p.TheTask? && p.i in s.tasks {
      TaskUntouched(s, more, p.i);
    }
    longer := run + more;
  }

  /** The queue names a new task. */
  method NewTask(b: Backend) returns (i: nat)
    ensures i !in b.tasks
  {
    i := 0;
    var left := b.tasks.Keys;
    while left != {}
      invariant left <= b.tasks.Keys
      invariant forall k :: k in b.tasks ==> k in left || k < i
      decreases left
    {
      var k: nat :| k in left;
      left := left - {k};
      if k >= i {
        i := k + 1;
      }
    }
  }

  lemma Run0(s: State, p: Party)
    ensures Course(s, [], p, [], s)
  {
  }

  // ---------------------------------------------------------------- a worker's own steps

  function WorkTrace(i: nat, w: RunAnswers, ran: bool): seq<Step> {
    [Start(i), Check(i, w.read)] + if ran then [Finish(i, w.again), Leave(i, w.release)] else [Leave(i, w.release)]
  }

  function Looked(i: nat, w: MusicAnswers, k: nat): seq<Step>
    requires |w.looks| == |w.sends| && k <= |w.looks|
  {
    if k == 0 then [] else Looked(i, w, k - 1) + [Check(i, w.looks[k - 1]), Send(i, w.sends[k - 1])]
  }

  function LoopTrace(i: nat, w: MusicAnswers, k: nat, stopped: bool): seq<Step>
    requires |w.looks| == |w.sends| && k <= |w.looks| && (stopped ==> k < |w.looks|)
  {
    Looked(i, w, k) + if stopped then [Check(i, w.looks[k])] else [Finish(i, false)]
  }

  function MusicTrace(i: nat, w: MusicAnswers, k: nat, stopped: bool): seq<Step>
    requires |w.looks| == |w.sends| && k <= |w.looks| && (stopped ==> k < |w.looks|)
  {
    [Start(i), Claim(i, w.won)]
    + (if !w.won then [] else if w.ready then LoopTrace(i, w, k, stopped) else [Finish(i, false)])
    + [Leave(i, w.release)]
  }

  lemma TraceGrows(i: nat, w: MusicAnswers, k: nat, own: seq<Step>)
    requires |w.looks| == |w.sends| && k < |w.looks|
    ensures own + Looked(i, w, k) + [Check(i, w.looks[k])] == own + LoopTrace(i, w, k, true)
    ensures own + LoopTrace(i, w, k, true) + [Send(i, w.sends[k])] == own + Looked(i, w, k + 1)
  {
  }

  /** How many of the first `k` tracks went out. */
  function SentBefore(w: MusicAnswers, k: nat): nat
    requires k <= |w.sends|
  {
    if k == 0 then 0 else SentBefore(w, k - 1) + if w.sends[k - 1] then 1 else 0
  }

  lemma OutLater(sends: seq<bool>, k: nat)
    requires k < |sends|
    ensures Out(sends, 0, k + 1) == Out(sends, 0, k) + if sends[k] then {k} else {}
  {
  }

  lemma {:induction false} SentBeforeIs(w: MusicAnswers, k: nat)
    requires k <= |w.sends|
    ensures SentBefore(w, k) == |Out(w.sends, 0, k)|
  {
    if k == 0 {
      assert Out(w.sends, 0, 0) == {};
    } else {
      SentBeforeIs(w, k - 1);
      OutLater(w.sends, k - 1);
    }
  }

  // ---------------------------------------------------------------- whole handlers, others in between

  /** What the user gets: an accepted job, a busy notice, or a generic error. */
  datatype Outcome = Accepted | BusyReply | ErrorReply | Nothing

  class Handlers {
    const bot: Bot

    constructor (bot: Bot)
      ensures this.bot == bot
    {
      this.bot := bot;
    }

    ghost predicate Valid()
      reads bot.backend, bot.backend.redis
    {
      bot.Valid()
    }

    /** `shouldAcquireUserLock`, and `isAdmin` for the handlers without batches. */
    predicate TakesLock(user: int, batch: bool) {
      !batch && !(bot.adminID != 0 && user == bot.adminID)
    }

    /** Where a handler's program counter is. */
    predicate At(h: nat, job: Job, phase: HandlerPhase)
      reads bot.backend
    {
      h in bot.backend.handlers && bot.backend.handlers[h] == Handler(job, phase)
    }

    /** Others, then the checks and the status message. */
    method PostThen(h: nat, job: Job, ok: bool, ghost from: State, ghost run: seq<Step>, ghost own: seq<Step>)
      returns (ghost longer: seq<Step>)
      requires Valid() && Course(from, run, TheHandler(h), own, bot.backend.sys) && At(h, job, Holding)
      requires (job.kind.Carousel? ==> ok)
      modifies bot.backend, bot.backend.redis
      ensures run <= longer
      ensures Valid() && Course(from, longer, TheHandler(h), own + [Post(h, ok)], bot.backend.sys)
      ensures if ok then At(h, job, Posted) else if job.ref.token == "" then h !in bot.backend.handlers
                else At(h, job, Undoing)
    {
      longer := Meanwhile(bot.backend, from, run, TheHandler(h));
      PostParts(bot.backend.sys, h, ok);
      RanStep(from, longer, bot.backend.sys, Post(h, ok));
      OwnStep(longer, Post(h, ok), TheHandler(h));
      bot.PostStatus(h, ok);
      longer := longer + [Post(h, ok)];
    }

    /** Others, then the queue. */
    method PushThen(h: nat, job: Job, reply: Reply, ghost from: State, ghost run: seq<Step>, ghost own: seq<Step>)
      returns (i: nat, ghost longer: seq<Step>)
      requires Valid() && Course(from, run, TheHandler(h), own, bot.backend.sys) && At(h, job, Posted)
      modifies bot.backend, bot.backend.redis
      ensures run <= longer
      ensures Valid() && Course(from, longer, TheHandler(h), own + [Step.Enqueue(h, i, reply)], bot.backend.sys)
      ensures if reply.Delivered? || job.kind.Carousel? || job.ref.token == "" then h !in bot.backend.handlers
              else At(h, job, Undoing)
    {
      longer := Meanwhile(bot.backend, from, run, TheHandler(h));
      i := NewTask(bot.backend);
      EnqueueParts(bot.backend.sys, h, i, reply);
      RanStep(from, longer, bot.backend.sys, Step.Enqueue(h, i, reply));
      OwnStep(longer, Step.Enqueue(h, i, reply), TheHandler(h));
      bot.Push(h, i, reply);
      longer := longer + [Step.Enqueue(h, i, reply)];
    }

    /** Others, then the release of a handler that gives up. */
    method GiveUpThen(h: nat, job: Job, reply: Reply, ghost from: State, ghost run: seq<Step>, ghost own: seq<Step>)
      returns (ghost longer: seq<Step>)
      requires Valid() && Course(from, run, TheHandler(h), own, bot.backend.sys) && At(h, job, Undoing)
      requires job.ref.slot.bot == bot.client.prefix
      modifies bot.backend, bot.backend.redis
      ensures run <= longer
      ensures Valid() && Course(from, longer, TheHandler(h), own + [Undo(h, reply)], bot.backend.sys)
      ensures h !in bot.backend.handlers
    {
      longer := Meanwhile(bot.backend, from, run, TheHandler(h));
      UndoParts(bot.backend.sys, h, reply);
      RanStep(from, longer, bot.backend.sys, Undo(h, reply));
      OwnStep(longer, Undo(h, reply), TheHandler(h));
      bot.GiveUp(h, reply);
      longer := longer + [Undo(h, reply)];
    }

    static function PushSteps(job: Job, i: nat, w: Answers, h: nat): seq<Step> {
      [Step.Enqueue(h, i, w.enqueue)] + if w.enqueue.Delivered? || job.ref.token == "" then [] else [Undo(h, w.release)]
    }

    /** A handler's steps after its lock, put together. */
    static lemma DeliverParts(own: seq<Step>, job: Job, i: nat, w: Answers, h: nat)
      ensures own + [Post(h, w.posted)] + (if w.posted then PushSteps(job, i, w, h)
                else if job.ref.token == "" then [] else [Undo(h, w.release)])
           == own + DeliverSteps(job, i, w, h)
    {
    }

    /** Status message, queue, and on failure the release: a handler after its lock. */
    method Deliver(h: nat, job: Job, w: Answers, ghost from: State, ghost run: seq<Step>, ghost own: seq<Step>)
      returns (r: Outcome, i: nat, ghost longer: seq<Step>)
      requires Valid() && job.ref.slot.bot == bot.client.prefix && !job.kind.Carousel?
      requires Course(from, run, TheHandler(h), own, bot.backend.sys) && At(h, job, Holding)
      modifies bot.backend, bot.backend.redis
      ensures run <= longer
      ensures Valid() && Course(from, longer, TheHandler(h), own + DeliverSteps(job, i, w, h), bot.backend.sys)
      ensures h !in bot.backend.handlers
      ensures r == if w.posted && w.enqueue.Delivered? then Accepted else ErrorReply
    {
      i, r := 0, ErrorReply;
      ghost var post := [Post(h, w.posted)];
      longer := PostThen(h, job, w.posted, from, run, own);
      if w.posted {
        r, i, longer := PushOrGiveUp(h, job, w, from, longer, own + post);
      } else if job.ref.token != "" {
        longer := GiveUpThen(h, job, w.release, from, longer, own + post);
      }
      DeliverParts(own, job, i, w, h);
    }

    method PushOrGiveUp(h: nat, job: Job, w: Answers, ghost from: State, ghost run: seq<Step>, ghost own: seq<Step>)
      returns (r: Outcome, i: nat, ghost longer: seq<Step>)
      requires Valid() && job.ref.slot.bot == bot.client.prefix && !job.kind.Carousel?
      requires Course(from, run, TheHandler(h), own, bot.backend.sys) && At(h, job, Posted)
      modifies bot.backend, bot.backend.redis
      ensures run <= longer
      ensures Valid() && Course(from, longer, TheHandler(h), own + PushSteps(job, i, w, h), bot.backend.sys)
      ensures h !in bot.backend.handlers
      ensures r == if w.enqueue.Delivered? then Accepted else ErrorReply
    {
      r := if w.enqueue.Delivered? then Accepted else ErrorReply;
      i, longer := PushThen(h, job, w.enqueue, from, run, own);
      ghost var push := [Step.Enqueue(h, i, w.enqueue)];
      if !w.enqueue.Delivered? && job.ref.token != "" {
        longer := GiveUpThen(h, job, w.release, from, longer, own + push);
        assert own + push + [Undo(h, w.release)] == own + PushSteps(job, i, w, h);
      } else {
        assert own + push == own + PushSteps(job, i, w, h);
      }
    }

    /** The first entry of the log since `s` is the acquisition of this job's lock. */
    static ghost predicate Took(s: State, s': State, job: Job, ttl: nat) {
      && |s'.log| > |s.log|
      && s'.log[|s.log|] == Locked(job.ref.slot, job.ref.token, s.now, s.now + ttl)
    }

    static lemma FirstLogged(s: State, run: seq<Step>, h: nat, job: Job, ttl: nat, w: Answers)
      requires Legal(s, run) && run != [] && run[0] == First(job, ttl, w, h)
      requires job.ref.token != "" && GoesOn(s, job, w)
      ensures Took(s, Exec(s, run), job, ttl)
    {
      var s1 := Apply(s, run[0]);
      assert s1.log == s.log + [Locked(job.ref.slot, job.ref.token, s.now, s.now + ttl)];
      RunLogGrows(s1, run[1..]);
    }

    /** A handler without a lock touches none. */
    static lemma FreeIdle(s: State, run: seq<Step>, h: nat, job: Job, ttl: nat, i: nat, w: Answers)
      requires Legal(s, run) && job.ref.token == ""
      requires Own(run, TheHandler(h)) == SubmitSteps(s, job, ttl, i, w, h)
            || Own(run, TheHandler(h)) == CarouselSteps(s, job, ttl, i, w, h)
      ensures Idle(s, run, TheHandler(h))
    {
      assert forall e :: e in Own(run, TheHandler(h)) ==> e.BeginFree? || e.Post? || e.Enqueue?;
      OwnIdle(s, run, TheHandler(h));
    }

    /** What a course leaves of its beginning. */
    static lemma Began(s: State, run: seq<Step>, h: nat, job: Job, ttl: nat, i: nat, w: Answers)
      requires Legal(s, run) && run != [] && run[0] == First(job, ttl, w, h)
      requires Own(run, TheHandler(h)) == SubmitSteps(s, job, ttl, i, w, h)
            || Own(run, TheHandler(h)) == CarouselSteps(s, job, ttl, i, w, h)
      ensures job.ref.token == "" ==> Idle(s, run, TheHandler(h))
      ensures job.ref.token != "" && GoesOn(s, job, w) ==> Took(s, Exec(s, run), job, ttl)
    {
      if job.ref.token == "" {
        FreeIdle(s, run, h, job, ttl, i, w);
      } else if GoesOn(s, job, w) {
        FirstLogged(s, run, h, job, ttl, w);
      }
    }

    /** Lock, then deliver: the common course of `enqueue` and the music handlers. */
    method Submit(h: nat, job: Job, ttl: nat, w: Answers) returns (r: Outcome, i: nat, ghost run: seq<Step>)
      requires Valid() && job.ref.slot.bot == bot.client.prefix && Clean(job.ref) && !job.kind.Carousel?
      requires Enabled(bot.backend.sys, First(job, ttl, w, h))
      modifies bot.backend, bot.backend.redis
      ensures Valid() && Ran(old(bot.backend.sys), run, bot.backend.sys)
      ensures Own(run, TheHandler(h)) == SubmitSteps(old(bot.backend.sys), job, ttl, i, w, h)
      ensures h !in bot.backend.handlers
      ensures job.ref.token == "" ==> Idle(old(bot.backend.sys), run, TheHandler(h))
      ensures job.ref.token != "" && r.Accepted? ==> Took(old(bot.backend.sys), bot.backend.sys, job, ttl)
      ensures r == if job.ref.token != "" && !w.acquire.Delivered? then ErrorReply
                   else if !GoesOn(old(bot.backend.sys), job, w) then BusyReply
                   else if w.posted && w.enqueue.Delivered? then Accepted else ErrorReply
    {
      i := 0;
      ghost var from := bot.backend.sys;
      var got := Open(h, job, ttl, w);
      run := [First(job, ttl, w, h)];
      OwnOne(First(job, ttl, w, h), TheHandler(h));
      match got
      case Failed => r := ErrorReply;
      case Busy => r := BusyReply;
      case Got(_) => r, i, run := Deliver(h, job, w, from, run, run);
      Began(from, run, h, job, ttl, i, w);
    }

    /** The lock, for those who take one. */
    method Open(h: nat, job: Job, ttl: nat, w: Answers) returns (got: Acquired)
      requires Valid() && job.ref.slot.bot == bot.client.prefix && Clean(job.ref)
      requires Enabled(bot.backend.sys, First(job, ttl, w, h))
      modifies bot.backend, bot.backend.redis
      ensures Valid() && Ran(old(bot.backend.sys), [First(job, ttl, w, h)], bot.backend.sys)
      ensures got.Got? <==> GoesOn(old(bot.backend.sys), job, w)
      ensures got.Failed? <==> job.ref.token != "" && !w.acquire.Delivered?
      ensures if got.Got? then At(h, job, Holding) else h !in bot.backend.handlers
    {
      Run1(bot.backend.sys, First(job, ttl, w, h));
      FirstEffect(bot.backend.sys, job, ttl, w, h);
      if job.ref.token == "" {
        bot.TakeNoLock(h, job);
        got := Got("");
      } else {
        got := bot.TakeLock(h, job, ttl, w.acquire);
      }
    }

    /** `enqueue` (handler/bot.go): batches and the admin take no lock. */
    method Enqueue(h: nat, user: int, scene: string, queue: string, batch: bool, token: string, ttl: nat, w: Answers)
      returns (r: Outcome, i: nat, ghost run: seq<Step>)
      requires Valid() && ttl > 0 && h !in bot.backend.handlers && token != "" && token !in bot.backend.issued
      requires Free(token, ':') && Free(scene, ':') && (bot.client.prefix == "" ==> queue in MAIN_QUEUES)
      modifies bot.backend, bot.backend.redis
      ensures Valid() && Ran(old(bot.backend.sys), run, bot.backend.sys) && h !in bot.backend.handlers
      ensures !batch && (bot.adminID == 0 || user != bot.adminID) ==>
                var (s, slot) := (old(bot.backend.sys), Slot(bot.client.prefix, user));
                var job := Job(Ref(slot, scene, token), Fetch, queue);
                && Own(run, TheHandler(h)) == SubmitSteps(s, job, ttl, i, w, h)
                && (r.BusyReply? <==> w.acquire.Delivered? && Held(s.locks, slot, s.now))
                && (r.Accepted? <==> w.acquire.Delivered? && !Held(s.locks, slot, s.now)
                                     && w.posted && w.enqueue.Delivered?)
                && (r.Accepted? ==> |bot.backend.sys.log| > |s.log|
                                    && bot.backend.sys.log[|s.log|] == Locked(slot, token, s.now, s.now + ttl))
      ensures batch || (bot.adminID != 0 && user == bot.adminID) ==>
                var s := old(bot.backend.sys);
                var job := Job(Ref(Slot(bot.client.prefix, user), scene, ""), Fetch, queue);
                && Own(run, TheHandler(h)) == SubmitSteps(s, job, ttl, i, w, h)
                && Idle(s, run, TheHandler(h))
                && !r.BusyReply? && (r.Accepted? <==> w.posted && w.enqueue.Delivered?)
    {
      var job := Job(Ref(Slot(bot.client.prefix, user), scene, if TakesLock(user, batch) then token else ""), Fetch,
                     queue);
      r, i, run := Submit(h, job, ttl, w);
    }

    /** The Spotify, Yandex and SoundCloud handlers (handler/music.go): `ready` says that the platform is on,
        the release was fetched and has tracks to download; otherwise the lock is released. */
    method HandleMusicLink(h: nat, user: int, scene: string, queue: string, tracks: nat, ready: bool, token: string,
                           ttl: nat, w: Answers)
      returns (r: Outcome, i: nat, ghost run: seq<Step>)
      requires Valid() && ttl > 0 && h !in bot.backend.handlers && token != "" && token !in bot.backend.issued
      requires Free(token, ':') && Free(scene, ':') && (bot.client.prefix == "" ==> queue in MAIN_QUEUES)
      modifies bot.backend, bot.backend.redis
      ensures Valid() && Ran(old(bot.backend.sys), run, bot.backend.sys) && h !in bot.backend.handlers
      ensures !r.ErrorReply?
      ensures bot.adminID == 0 || user != bot.adminID ==>
                var (s, slot) := (old(bot.backend.sys), Slot(bot.client.prefix, user));
                var job := Job(Ref(slot, scene, token), Music(tracks), queue);
                && Own(run, TheHandler(h)) == SubmitSteps(s, job, ttl, i, w.(posted := ready && w.posted), h)
                && (r.BusyReply? <==> w.acquire.Delivered? && Held(s.locks, slot, s.now))
                && (r.Accepted? <==> w.acquire.Delivered? && !Held(s.locks, slot, s.now)
                                     && ready && w.posted && w.enqueue.Delivered?)
                && (r.Accepted? ==> |bot.backend.sys.log| > |s.log|
                                    && bot.backend.sys.log[|s.log|] == Locked(slot, token, s.now, s.now + ttl))
      ensures bot.adminID != 0 && user == bot.adminID ==>
                var s := old(bot.backend.sys);
                var job := Job(Ref(Slot(bot.client.prefix, user), scene, ""), Music(tracks), queue);
                && Own(run, TheHandler(h)) == SubmitSteps(s, job, ttl, i, w.(posted := ready && w.posted), h)
                && Idle(s, run, TheHandler(h))
                && !r.BusyReply? && (r.Accepted? <==> ready && w.posted && w.enqueue.Delivered?)
    {
      var job := Job(Ref(Slot(bot.client.prefix, user), scene, if TakesLock(user, false) then token else ""),
                     Music(tracks), queue);
      r, i, run := Submit(h, job, ttl, w.(posted := ready && w.posted));
      if r.ErrorReply? {
        r := Nothing;
      }
    }

    /** The carousel's way: straight to the queue. */
    method PushBlindly(h: nat, job: Job, reply: Reply, ghost from: State, ghost run: seq<Step>, ghost own: seq<Step>)
      returns (i: nat, ghost longer: seq<Step>)
      requires Valid() && Course(from, run, TheHandler(h), own, bot.backend.sys) && At(h, job, Holding)
      requires job.kind.Carousel?
      modifies bot.backend, bot.backend.redis
      ensures run <= longer
      ensures Valid()
      ensures Course(from, longer, TheHandler(h), own + [Post(h, true), Step.Enqueue(h, i, reply)], bot.backend.sys)
      ensures h !in bot.backend.handlers
    {
      longer := PostThen(h, job, true, from, run, own);
      i, longer := PushThen(h, job, reply, from, longer, own + [Post(h, true)]);
      Joined(own, Post(h, true), Step.Enqueue(h, i, reply));
    }

    /** Lock, then push: the course of the carousel. */
    method SubmitBlindly(h: nat, job: Job, ttl: nat, w: Answers) returns (r: Outcome, i: nat, ghost run: seq<Step>)
      requires Valid() && job.ref.slot.bot == bot.client.prefix && Clean(job.ref) && job.kind.Carousel?
      requires Enabled(bot.backend.sys, First(job, ttl, w, h))
      modifies bot.backend, bot.backend.redis
      ensures Valid() && Ran(old(bot.backend.sys), run, bot.backend.sys)
      ensures Own(run, TheHandler(h)) == CarouselSteps(old(bot.backend.sys), job, ttl, i, w, h)
      ensures h !in bot.backend.handlers
      ensures job.ref.token == "" ==> Idle(old(bot.backend.sys), run, TheHandler(h))
      ensures job.ref.token != "" && r.Accepted? ==> Took(old(bot.backend.sys), bot.backend.sys, job, ttl)
      ensures r == if GoesOn(old(bot.backend.sys), job, w) then Accepted else BusyReply
    {
      i, r := 0, BusyReply;
      ghost var from := bot.backend.sys;
      var got := Open(h, job, ttl, w);
      run := [First(job, ttl, w, h)];
      OwnOne(First(job, ttl, w, h), TheHandler(h));
      if got.Got? {
        i, run := PushBlindly(h, job, w.enqueue, from, run, run);
        r := Accepted;
      }
      Began(from, run, h, job, ttl, i, w);
    }

    /** `onTikTokCarousel` from the lock on: no status message, and the queue's answer is not looked at. */
    method OnTikTokCarousel(h: nat, user: int, token: string, ttl: nat, w: Answers)
      returns (r: Outcome, i: nat, ghost run: seq<Step>)
      requires Valid() && ttl > 0 && h !in bot.backend.handlers && token != "" && token !in bot.backend.issued
      requires Free(token, ':')
      modifies bot.backend, bot.backend.redis
      ensures Valid() && Ran(old(bot.backend.sys), run, bot.backend.sys) && h !in bot.backend.handlers
      ensures r.Accepted? || r.BusyReply?
      ensures bot.adminID == 0 || user != bot.adminID ==>
                var (s, slot) := (old(bot.backend.sys), Slot(bot.client.prefix, user));
                var job := Job(Ref(slot, "tiktok", token), Carousel, "download");
                && Own(run, TheHandler(h)) == CarouselSteps(s, job, ttl, i, w, h)
                && (r.Accepted? <==> w.acquire.Delivered? && !Held(s.locks, slot, s.now))
                && (r.Accepted? ==> |bot.backend.sys.log| > |s.log|
                                    && bot.backend.sys.log[|s.log|] == Locked(slot, token, s.now, s.now + ttl))
      ensures bot.adminID != 0 && user == bot.adminID ==>
                var s := old(bot.backend.sys);
                var job := Job(Ref(Slot(bot.client.prefix, user), "tiktok", ""), Carousel, "download");
                && Own(run, TheHandler(h)) == CarouselSteps(s, job, ttl, i, w, h)
                && Idle(s, run, TheHandler(h)) && r.Accepted?
    {
      var job := Job(Ref(Slot(bot.client.prefix, user), "tiktok", if TakesLock(user, false) then token else ""),
                     Carousel, "download");
      r, i, run := SubmitBlindly(h, job, ttl, w);
    }

    /** `onCancelDownload`: the presser must be the user the button names; both Redis errors are ignored, and
        anything may happen between the flag and the release. */
    method OnCancelDownload(data: string, presser: int, flag: Reply, release: Reply)
      returns (accepted: bool, ghost between: seq<Step>)
      requires Valid()
      modifies bot.backend, bot.backend.redis
      ensures Valid()
      ensures accepted <==> CancelButton.ParseCancel(data).Some? && CancelButton.ParseCancel(data).value.user == presser
      ensures !accepted ==> bot.backend.sys == old(bot.backend.sys)
      ensures accepted ==>
                var d := CancelButton.ParseCancel(data).value;
                var ref := Ref(Slot(bot.client.prefix, presser), d.scene, d.token);
                Ran(old(bot.backend.sys), [Flag(ref, flag)] + between + [Unlock(ref, release)], bot.backend.sys)
    {
      between := [];
      var parsed := CancelButton.ParseCancel(data);
      if parsed.None? || parsed.value.user != presser {
        return false, [];
      }
      CancelButton.ParsedIsClean(data);
      var ref := Ref(Slot(bot.client.prefix, presser), parsed.value.scene, parsed.value.token);
      ghost var from := bot.backend.sys;
      Run1(from, Flag(ref, flag));
      bot.RaiseFlag(ref, flag);
      ghost var mid := bot.backend.sys;
      between := Elsewhere(bot.backend, Nobody);
      RanMore(from, [Flag(ref, flag)], mid, between, bot.backend.sys);
      RanStep(from, [Flag(ref, flag)] + between, bot.backend.sys, Unlock(ref, release));
      bot.FreeLock(ref, release);
      accepted := true;
    }

    /** Anything, then the flag. */
    method FlagThen(ref: Ref, flag: Reply) returns (ghost before: seq<Step>)
      requires Valid() && ref.slot.bot == bot.client.prefix && Clean(ref)
      modifies bot.backend, bot.backend.redis
      ensures Valid() && Ran(old(bot.backend.sys), before + [Flag(ref, flag)], bot.backend.sys)
    {
      ghost var from := bot.backend.sys;
      before := Elsewhere(bot.backend, Nobody);
      RanStep(from, before, bot.backend.sys, Flag(ref, flag));
      bot.RaiseFlag(ref, flag);
    }

    /** Anything, then the forced release. */
    method ForceThen(user: int, release: Reply, ghost from: State, ghost run: seq<Step>)
      returns (ghost between: seq<Step>)
      requires Valid() && Ran(from, run, bot.backend.sys)
      modifies bot.backend, bot.backend.redis
      ensures Valid()
      ensures Ran(from, run + between + [ForceUnlock(Slot(bot.client.prefix, user), release)], bot.backend.sys)
    {
      ghost var mid := bot.backend.sys;
      between := Elsewhere(bot.backend, Nobody);
      RanMore(from, run, mid, between, bot.backend.sys);
      RanStep(from, run + between, bot.backend.sys, ForceUnlock(Slot(bot.client.prefix, user), release));
      bot.ForceFree(user, release);
    }

    /** `onClear` up to the queue: flag whatever was active, then delete the lock unconditionally; anything may
        happen between the read, the flag and the deletion. */
    method OnClear(user: int, read: Reply, flag: Reply, release: Reply)
      returns (cleared: bool, ghost before: seq<Step>, ghost between: seq<Step>)
      requires Valid()
      modifies bot.backend, bot.backend.redis
      ensures Valid()
      ensures var s := old(bot.backend.sys); var slot := Slot(bot.client.prefix, user);
              && (cleared <==> read.Delivered? && Held(s.locks, slot, s.now))
              && Ran(s, (if cleared then before + [Flag(Ref(slot, s.locks[slot].scene, s.locks[slot].token), flag)]
                   else [])
                        + between + [ForceUnlock(slot, release)], bot.backend.sys)
    {
      before, between := [], [];
      ghost var from := bot.backend.sys;
      ghost var first: seq<Step> := [];
      var active := bot.client.GetActiveDownload(user, read);
      cleared := active.Some?;
      if active.Some? {
        var ref := Ref(Slot(bot.client.prefix, user), active.value.scene, active.value.token);
        before := FlagThen(ref, flag);
        first := before + [Flag(ref, flag)];
      }
      between := ForceThen(user, release, from, first);
    }

    /** The rest of `onClear`: of the tasks the inspector listed, in its order, those of this user that still
        wait on the queue when it comes to them are deleted where the deletion is answered, with anything in
        between.  The main bot names no queue and gets the default one.  Task `n` is come to after `at[n]`
        steps of the run. */
    method ClearUserTasks(user: int, queue: string, listed: seq<nat>, answered: seq<bool>)
      returns (deleted: seq<bool>, ghost run: seq<Step>, ghost at: seq<nat>)
      requires Valid() && Scans(Slot(bot.client.prefix, user), queue) && |answered| == |listed|
      modifies bot.backend, bot.backend.redis
      ensures Valid() && Ran(old(bot.backend.sys), run, bot.backend.sys)
      ensures |deleted| == |at| == |listed|
      ensures forall n :: 0 <= n < |listed| ==>
                && at[n] <= |run| && Legal(old(bot.backend.sys), run[..at[n]])
                && var tasks := Exec(old(bot.backend.sys), run[..at[n]]).tasks;
                   deleted[n] == (answered[n] && listed[n] in tasks && tasks[listed[n]].phase.Queued?
                                  && tasks[listed[n]].job.queue == queue && tasks[listed[n]].job.ref.slot.user == user)
      ensures forall n :: 0 <= n < |listed| && deleted[n] ==>
                at[n] < |run| && run[at[n]] == Discard(listed[n], Slot(bot.client.prefix, user), queue)
    {
      deleted, run, at := [], [], [];
      var clearer := Slot(bot.client.prefix, user);
      ghost var from := bot.backend.sys;
      for n := 0 to |listed|
        invariant Valid() && Ran(from, run, bot.backend.sys) && |deleted| == |at| == n
        invariant forall k :: 0 <= k < n ==> Cleared(from, run, at[k], listed[k], clearer, queue, answered[k],
                                                     deleted[k])
      {
        ghost var before := run;
        ghost var here: nat;
        var done: bool;
        done, run, here := ClearOne(listed[n], clearer, queue, answered[n], from, run);
        forall k | 0 <= k < n
          ensures Cleared(from, run, at[k], listed[k], clearer, queue, answered[k], deleted[k])
        {
          ClearedLater(from, before, run, at[k], listed[k], clearer, queue, answered[k], deleted[k]);
        }
        deleted, at := deleted + [done], at + [here];
      }
    }

    /** Others, then one listed task. */
    method ClearOne(i: nat, clearer: Slot, queue: string, answered: bool, ghost from: State, ghost run: seq<Step>)
      returns (done: bool, ghost longer: seq<Step>, ghost here: nat)
      requires Valid() && Ran(from, run, bot.backend.sys) && Scans(clearer, queue)
      modifies bot.backend, bot.backend.redis
      ensures Valid() && Ran(from, longer, bot.backend.sys) && run <= longer
      ensures Cleared(from, longer, here, i, clearer, queue, answered, done)
    {
      ghost var s := bot.backend.sys;
      ghost var more := Elsewhere(bot.backend, Nobody);
      RanMore(from, run, s, more, bot.backend.sys);
      longer := run + more;
      here := |longer|;
      assert longer[..here] == longer;
      var e := Discard(i, clearer, queue);
      done := bot.backend.Can(e) && answered;
      bot.backend.CanIsEnabled(e);
      if done {
        RanStep(from, longer, bot.backend.sys, e);
        bot.backend.Delete(i, clearer, queue);
        longer := longer + [e];
        assert longer[..here] == run + more;
      }
    }

    /** What became of one listed task. */
    static ghost predicate Cleared(from: State, run: seq<Step>, at: nat, i: nat, clearer: Slot, queue: string,
                                   answered: bool, deleted: bool) {
      && at <= |run| && Legal(from, run[..at])
      && (var tasks := Exec(from, run[..at]).tasks;
          deleted == (answered && i in tasks && tasks[i].phase.Queued? && tasks[i].job.queue == queue
                      && tasks[i].job.ref.slot.user == clearer.user))
      && (deleted ==> at < |run| && run[at] == Discard(i, clearer, queue))
    }

    static lemma ClearedLater(from: State, run: seq<Step>, longer: seq<Step>, at: nat, i: nat, clearer: Slot,
                              queue: string, answered: bool, deleted: bool)
      requires run <= longer && Cleared(from, run, at, i, clearer, queue, answered, deleted)
      ensures Cleared(from, longer, at, i, clearer, queue, answered, deleted)
    {
      assert longer[..at] == run[..at];
    }
  }

  // ---------------------------------------------------------------- whole worker runs, others in between

  class Tasks {
    const worker: Worker

    constructor (worker: Worker)
      ensures this.worker == worker
    {
      this.worker := worker;
    }

    ghost predicate Valid()
      reads worker.backend, worker.backend.redis
    {
      worker.Valid()
    }

    /** Where a task's program counter is. */
    predicate At(i: nat, b: Task)
      reads worker.backend
    {
      i in worker.backend.tasks && worker.backend.tasks[i] == b
    }

    /** Others, then one step of the worker that is neither a look nor its return. */
    method StepThen(i: nat, b: Task, e: Step, ghost from: State, ghost run: seq<Step>, ghost own: seq<Step>)
      returns (ghost longer: seq<Step>)
      requires Valid() && Course(from, run, TheTask(i), own, worker.backend.sys) && At(i, b)
      requires Owner(e) == TheTask(i) && (e.Start? || e.Claim? || e.Send? || e.Finish?) && Ready(b, e)
      modifies worker.backend, worker.backend.redis
      ensures Valid() && Course(from, longer, TheTask(i), own + [e], worker.backend.sys)
      ensures At(i, Worked(old(worker.backend.sys), e, b))
    {
      longer := Meanwhile(worker.backend, from, run, TheTask(i));
      RanStep(from, longer, worker.backend.sys, e);
      OwnStep(longer, e, TheTask(i));
      WorkParts(worker.backend.sys, e);
      match e {
        case Start(_) => worker.Pick(i);
        case Claim(_, won) => worker.TakeRelease(i, won);
        case Send(_, ok) => worker.SendTrack(i, ok);
        case Finish(_, again) => worker.End(i, again);
      }
      longer := longer + [e];
    }

    /** The step is the next one of the worker. */
    predicate Ready(b: Task, e: Step) {
      match e
      case Start(_) => b.phase.Queued?
      case Claim(_, _) => b.phase.Started? && b.job.kind.Music?
      case Send(_, _) => b.phase.Sending?
      case Finish(_, again) => b.phase.Body? || (b.phase.Tracks? && !again)
      case _ => false
    }

    /** Others, then a look at the cancel flag as it is then. */
    method LookThen(i: nat, b: Task, read: Reply, ghost from: State, ghost run: seq<Step>, ghost own: seq<Step>)
      returns (stop: bool, ghost longer: seq<Step>)
      requires Valid() && Course(from, run, TheTask(i), own, worker.backend.sys) && At(i, b)
      requires if b.job.kind.Music? then b.phase.Tracks? && b.phase.next < b.job.kind.tracks else b.phase.Started?
      requires b.job.ref.slot.bot == worker.client.prefix
      modifies worker.backend, worker.backend.redis
      ensures Valid() && Course(from, longer, TheTask(i), own + [Check(i, read)], worker.backend.sys)
      ensures At(i, b.(phase := if stop then Leaving(false) else if b.phase.Tracks? then Sending(b.phase.next)
                else Body))
    {
      longer := Meanwhile(worker.backend, from, run, TheTask(i));
      RanStep(from, longer, worker.backend.sys, Check(i, read));
      OwnStep(longer, Check(i, read), TheTask(i));
      WorkParts(worker.backend.sys, Check(i, read));
      stop := worker.Look(i, read);
      longer := longer + [Check(i, read)];
    }

    /** Others, then the deferred release and what the queue does with the result. */
    method ReturnThen(i: nat, b: Task, reply: Reply, ghost from: State, ghost run: seq<Step>, ghost own: seq<Step>)
      returns (ghost longer: seq<Step>)
      requires Valid() && Course(from, run, TheTask(i), own, worker.backend.sys) && At(i, b) && b.phase.Leaving?
      requires b.job.ref.slot.bot == worker.client.prefix
      modifies worker.backend, worker.backend.redis
      ensures Valid() && Course(from, longer, TheTask(i), own + [Leave(i, reply)], worker.backend.sys)
      ensures if b.phase.again && b.retries > 0 then At(i, b.(phase := Queued, retries := b.retries - 1))
              else i !in worker.backend.tasks
    {
      longer := Meanwhile(worker.backend, from, run, TheTask(i));
      RanStep(from, longer, worker.backend.sys, Leave(i, reply));
      OwnStep(longer, Leave(i, reply), TheTask(i));
      LeaveParts(worker.backend.sys, i, reply);
      worker.Return(i, reply);
      longer := longer + [Leave(i, reply)];
    }

    /** `handleDownload`, `handleTikTok`, `handlePinterest`, `handleInstagram`, `handleReddit`, and
        `handleTikTokCarousel`, which does not look at the flag; then asynq's retry.  The flag counts as it is
        when it is read, and anything may happen during the body. */
    method Handle(i: nat, w: RunAnswers) returns (ran: bool, ghost run: seq<Step>)
      requires Valid() && i in worker.backend.tasks && worker.backend.tasks[i].phase == Queued
      requires !worker.backend.tasks[i].job.kind.Music?
      requires worker.backend.tasks[i].job.ref.slot.bot == worker.client.prefix
      modifies worker.backend, worker.backend.redis
      ensures Valid() && Ran(old(worker.backend.sys), run, worker.backend.sys)
      ensures Own(run, TheTask(i)) == WorkTrace(i, w, ran)
      ensures var b := old(worker.backend.tasks[i]);
              if ran && w.again && b.retries > 0 then At(i, b.(retries := b.retries - 1))
                else i !in worker.backend.tasks
    {
      var b := worker.backend.tasks[i];
      ghost var from := worker.backend.sys;
      Run0(from, TheTask(i));
      run := StepThen(i, b, Start(i), from, [], []);
      b := b.(phase := Started);
      var stop: bool;
      stop, run := LookThen(i, b, w.read, from, run, [Start(i)]);
      ran := !stop;
      if stop {
        run := ReturnThen(i, b.(phase := Leaving(false)), w.release, from, run, [Start(i), Check(i, w.read)]);
      } else {
        run := BodyThen(i, b.(phase := Body), w, from, run, [Start(i), Check(i, w.read)]);
      }
    }

    method BodyThen(i: nat, b: Task, w: RunAnswers, ghost from: State, ghost run: seq<Step>, ghost own: seq<Step>)
      returns (ghost longer: seq<Step>)
      requires Valid() && Course(from, run, TheTask(i), own, worker.backend.sys) && At(i, b) && b.phase.Body?
      requires b.job.ref.slot.bot == worker.client.prefix
      modifies worker.backend, worker.backend.redis
      ensures Valid()
      ensures Course(from, longer, TheTask(i), own + [Finish(i, w.again), Leave(i, w.release)], worker.backend.sys)
      ensures if w.again && b.retries > 0 then At(i, b.(phase := Queued, retries := b.retries - 1))
              else i !in worker.backend.tasks
    {
      ghost var sys := worker.backend.sys;
      longer := StepThen(i, b, Finish(i, w.again), from, run, own);
      assert Worked(sys, Finish(i, w.again), b) == b.(phase := Leaving(w.again));
      longer := ReturnThen(i, b.(phase := Leaving(w.again)), w.release, from, longer, own + [Finish(i, w.again)]);
      Joined(own, Finish(i, w.again), Leave(i, w.release));
    }

    /** The worker is about to look before track `k`. */
    ghost predicate Midway(i: nat, b: Task, w: MusicAnswers, k: nat, from: State, run: seq<Step>, own: seq<Step>)
      requires |w.looks| == |w.sends|
      reads worker.backend, worker.backend.redis
    {
      && Valid() && At(i, b) && k <= |w.looks| && b.phase == Tracks(k)
      && Course(from, run, TheTask(i), own + Looked(i, w, k), worker.backend.sys)
    }

    /** The loop is over, after a look that stopped it or after the last track. */
    ghost predicate Over(i: nat, b: Task, w: MusicAnswers, k: nat, stopped: bool, from: State, run: seq<Step>,
                         own: seq<Step>)
      requires |w.looks| == |w.sends|
      reads worker.backend, worker.backend.redis
    {
      && Valid() && At(i, b) && b.phase == Leaving(false) && (if stopped then k < |w.looks| else k == |w.looks|)
      && Course(from, run, TheTask(i), own + LoopTrace(i, w, k, stopped), worker.backend.sys)
    }

    /** The track loop the three platforms share: the flag is read before every track as it is then, a failed
        track is skipped. */
    method TrackLoop(i: nat, b: Task, w: MusicAnswers, ghost from: State, ghost run: seq<Step>, ghost own: seq<Step>)
      returns (sent: nat, k: nat, stopped: bool, c: Task, ghost longer: seq<Step>)
      requires |w.looks| == |w.sends| && Midway(i, b, w, 0, from, run, own)
      requires b.job.kind == Music(|w.looks|) && b.job.ref.slot.bot == worker.client.prefix
      modifies worker.backend, worker.backend.redis
      ensures Over(i, c, w, k, stopped, from, longer, own) && c.job == b.job
      ensures k <= |w.looks| && sent == SentBefore(w, k)
    {
      longer, k, sent, stopped, c := run, 0, 0, false, b;
      while k < |w.looks| && !stopped
        invariant k <= |w.looks| && sent == SentBefore(w, k) && c.job == b.job
        invariant if stopped then Over(i, c, w, k, true, from, longer, own) else Midway(i, c, w, k, from, longer, own)
        decreases |w.looks| - k, !stopped
      {
        stopped, c, longer := TrackThen(i, c, w, k, from, longer, own);
        if !stopped {
          sent, k := OneMoreSent(w, k, sent), k + 1;
        }
      }
      if !stopped {
        c, longer := LastThen(i, c, w, from, longer, own);
      }
    }

    static function OneMoreSent(w: MusicAnswers, k: nat, sent: nat): (more: nat)
      requires k < |w.sends| && sent == SentBefore(w, k)
      ensures more == SentBefore(w, k + 1)
    {
      sent + if w.sends[k] then 1 else 0
    }

    /** After the last track. */
    method LastThen(i: nat, b: Task, w: MusicAnswers, ghost from: State, ghost run: seq<Step>, ghost own: seq<Step>)
      returns (c: Task, ghost longer: seq<Step>)
      requires |w.looks| == |w.sends| && Midway(i, b, w, |w.looks|, from, run, own)
      modifies worker.backend, worker.backend.redis
      ensures Over(i, c, w, |w.looks|, false, from, longer, own) && c.job == b.job
    {
      longer := StepThen(i, b, Finish(i, false), from, run, own + Looked(i, w, |w.looks|));
      c := b.(phase := Leaving(false));
      assert own + Looked(i, w, |w.looks|) + [Finish(i, false)] == own + LoopTrace(i, w, |w.looks|, false);
    }

    /** The look before track `k`. */
    method LookAt(i: nat, b: Task, w: MusicAnswers, k: nat, ghost from: State, ghost run: seq<Step>,
                  ghost own: seq<Step>)
      returns (stop: bool, ghost longer: seq<Step>)
      requires |w.looks| == |w.sends| && Midway(i, b, w, k, from, run, own) && k < |w.looks|
      requires b.job.kind == Music(|w.looks|) && b.job.ref.slot.bot == worker.client.prefix
      modifies worker.backend, worker.backend.redis
      ensures Valid() && Course(from, longer, TheTask(i), own + LoopTrace(i, w, k, true), worker.backend.sys)
      ensures At(i, b.(phase := if stop then Leaving(false) else Sending(k)))
    {
      TraceGrows(i, w, k, own);
      stop, longer := LookThen(i, b, w.looks[k], from, run, own + Looked(i, w, k));
    }

    method SendThen(i: nat, b: Task, ok: bool, ghost from: State, ghost run: seq<Step>, ghost own: seq<Step>)
      returns (c: Task, ghost longer: seq<Step>)
      requires Valid() && Course(from, run, TheTask(i), own, worker.backend.sys) && At(i, b) && b.phase.Sending?
      modifies worker.backend, worker.backend.redis
      ensures Valid() && Course(from, longer, TheTask(i), own + [Send(i, ok)], worker.backend.sys)
      ensures At(i, c) && c.job == b.job && c.phase == Tracks(b.phase.track + 1)
    {
      longer := StepThen(i, b, Send(i, ok), from, run, own);
      c := worker.backend.tasks[i];
    }

    method TrackThen(i: nat, b: Task, w: MusicAnswers, k: nat, ghost from: State, ghost run: seq<Step>,
                     ghost own: seq<Step>)
      returns (stop: bool, c: Task, ghost longer: seq<Step>)
      requires |w.looks| == |w.sends| && Midway(i, b, w, k, from, run, own) && k < |w.looks|
      requires b.job.kind == Music(|w.looks|) && b.job.ref.slot.bot == worker.client.prefix
      modifies worker.backend, worker.backend.redis
      ensures c.job == b.job
      ensures if stop then Over(i, c, w, k, true, from, longer, own) else Midway(i, c, w, k + 1, from, longer, own)
    {
      stop, longer := LookAt(i, b, w, k, from, run, own);
      if stop {
        c := b.(phase := Leaving(false));
      } else {
        c, longer := SendThen(i, b.(phase := Sending(k)), w.sends[k], from, longer, own + LoopTrace(i, w, k, true));
        TraceGrows(i, w, k, own);
      }
    }

    method ClaimThen(i: nat, b: Task, won: bool, ghost from: State) returns (c: Task, ghost run: seq<Step>)
      requires Valid() && from == worker.backend.sys && At(i, b) && b.phase == Queued && b.job.kind.Music?
      modifies worker.backend, worker.backend.redis
      ensures Valid() && Course(from, run, TheTask(i), [Start(i), Claim(i, won)], worker.backend.sys)
      ensures At(i, c) && c == b.(phase := if won then Tracks(0) else Leaving(false))
    {
      Run0(from, TheTask(i));
      run := StepThen(i, b, Start(i), from, [], []);
      assert Worked(from, Start(i), b) == b.(phase := Started);
      run := StepThen(i, b.(phase := Started), Claim(i, won), from, run, [] + [Start(i)]);
      Joined([], Start(i), Claim(i, won));
      c := b.(phase := if won then Tracks(0) else Leaving(false));
    }

    /** `runMusicDownload`: the release lock, the track loop, and the deferred release on every path. */
    method RunMusicDownload(i: nat, w: MusicAnswers) returns (sent: nat, k: nat, stopped: bool, ghost run: seq<Step>)
      requires Valid() && i in worker.backend.tasks && worker.backend.tasks[i].phase == Queued
      requires worker.backend.tasks[i].job.kind == Music(|w.looks|) && |w.looks| == |w.sends|
      requires worker.backend.tasks[i].job.ref.slot.bot == worker.client.prefix
      modifies worker.backend, worker.backend.redis
      ensures Valid() && Ran(old(worker.backend.sys), run, worker.backend.sys)
      ensures w.won && w.ready ==> if stopped then k < |w.looks| else k == |w.looks|
      ensures k <= |w.looks| && (stopped ==> k < |w.looks|)
      ensures Own(run, TheTask(i)) == MusicTrace(i, w, k, stopped)
      ensures sent == (if w.won && w.ready then SentBefore(w, k) else 0) && i !in worker.backend.tasks
    {
      var b := worker.backend.tasks[i];
      ghost var from := worker.backend.sys;
      sent, k, stopped := 0, 0, false;
      b, run := ClaimThen(i, b, w.won, from);
      ghost var own := [Start(i), Claim(i, w.won)];
      if w.won && w.ready {
        assert own + Looked(i, w, 0) == own;
        sent, k, stopped, b, run := TrackLoop(i, b, w, from, run, own);
        own := own + LoopTrace(i, w, k, stopped);
      } else if w.won {
        run := StepThen(i, b, Finish(i, false), from, run, own);
        b := b.(phase := Leaving(false));
        own := own + [Finish(i, false)];
      }
      run := ReturnThen(i, b, w.release, from, run, own);
    }
  }
}
