/** What a live cancel flag guarantees over the rest of any run, and where it does not. */
module Cancellation {
  import opened Locks
  import opened Protocol

  // ---------------------------------------------------------------- the flag outlives the run

  lemma FlagStep(s: State, e: Step, ref: Ref)
    requires Enabled(s, e)
    ensures var s' := Apply(s, e); s.now <= s'.now
    ensures ref in s.flags ==>
              var f := Apply(s, e).flags;
              ref in f && (f[ref] == s.flags[ref] || f[ref] == s.now + FLAG_TTL)
  {
    if !e.Tick? && !e.Flag? {
      ClockKept(s, e);
    }
  }

  /** A raised flag is up for two hours, to the second. */
  lemma FlagTwoHours(s: State, ref: Ref, reply: Reply, d: nat)
    requires !reply.Refused?
    ensures Flagged(Apply(s, Flag(ref, reply)).flags, ref, s.now + d) <==> d < 7200
  {
  }

  lemma {:induction false} FlagLasts(s: State, steps: seq<Step>, ref: Ref, until: nat)
    requires Legal(s, steps) && ref in s.flags && until <= s.flags[ref] && until <= s.now + FLAG_TTL
    ensures var s' := Exec(s, steps); ref in s'.flags && until <= s'.flags[ref] && s.now <= s'.now
    decreases steps
  {
    if steps != [] {
      FlagStep(s, steps[0], ref);
      FlagLasts(Apply(s, steps[0]), steps[1..], ref, until);
    }
  }

  /** One step of a run that ends before the flag does. */
  lemma FlagHolds(s: State, e: Step, rest: seq<Step>, ref: Ref, until: nat)
    requires Enabled(s, e) && Legal(Apply(s, e), rest) && ref in s.flags && until <= s.flags[ref]
    requires until <= s.now + FLAG_TTL
    requires Exec(Apply(s, e), rest).now < until
    ensures Flagged(s.flags, ref, s.now)
    ensures var s' := Apply(s, e); ref in s'.flags && until <= s'.flags[ref] && until <= s'.now + FLAG_TTL
  {
    FlagStep(s, e, ref);
    FlagLasts(Apply(s, e), rest, ref, 0);
  }

  // ---------------------------------------------------------------- fetches never reach the body

  predicate OutOfBody(s: State, i: nat, ref: Ref) {
    i in s.tasks && s.tasks[i].job.ref == ref && s.tasks[i].job.kind.Fetch? ==> !s.tasks[i].phase.Body?
  }

  predicate ReadsOf(e: Step, i: nat) {
    e.Check? && e.i == i
  }

  /** How many of task `i`'s flag reads the network failed. */
  function FailedReads(steps: seq<Step>, i: nat): nat {
    if steps == [] then 0
    else (if ReadsOf(steps[0], i) && !steps[0].reply.Delivered? then 1 else 0) + FailedReads(steps[1..], i)
  }

  /** The count is one for each flag read of the task that the network failed. */
  lemma {:induction false} FailedReadsLaws(a: seq<Step>, b: seq<Step>, e: Step, i: nat)
    ensures FailedReads([], i) == 0
    ensures FailedReads([e], i) == if e.Check? && e.i == i && !e.reply.Delivered? then 1 else 0
    ensures FailedReads(a + b, i) == FailedReads(a, i) + FailedReads(b, i)
  {
    assert [e][1..] == [];
    if a == [] {
      assert a + b == b;
    } else {
      assert (a + b)[1..] == a[1..] + b;
      FailedReadsLaws(a[1..], b, e, i);
    }
  }

  lemma EnqueueFrame(s: State, h: nat, i: nat, reply: Reply)
    requires h in s.handlers && i !in s.tasks
    ensures var s' := Enqueued(s, h, i, reply);
            || s'.tasks == s.tasks
            || (i in s'.tasks && s'.tasks == s.tasks[i := s'.tasks[i]] && s'.tasks[i].phase == Queued
                && s'.tasks[i].sent == 0)
  {
  }

  /** Only task steps of `i` and the enqueue that creates it change task `i`. */
  lemma TaskFrame(s: State, e: Step, i: nat)
    requires Enabled(s, e)
    ensures var s' := Apply(s, e);
            || (i in s.tasks && i in s'.tasks && s'.tasks[i] == s.tasks[i])
            || i !in s'.tasks
            || (e.Enqueue? && e.i == i && s'.tasks[i].phase == Queued && s'.tasks[i].sent == 0)
            || (i in s.tasks && (e.Start? || e.Check? || e.Claim? || e.Send? || e.Finish? || e.Leave?
                 || e.WorkerCrash?) && e.i == i)
  {
    if e.Enqueue? {
      EnqueueFrame(s, e.h, e.i, e.reply);
    } else if HandlerStep(e) {
      TasksKept(s, e);
    } else {
      match e
      case Leave(_, _) =>
      case WorkerCrash(_, _) =>
      case Discard(_, _, _) =>
      case ForceUnlock(_, _) =>
      case Unlock(_, _) =>
      case _ =>
    }
  }

  lemma StaysOut(s: State, e: Step, i: nat, ref: Ref)
    requires Enabled(s, e) && OutOfBody(s, i, ref) && Flagged(s.flags, ref, s.now) && ref.token != "" && ref.scene != ""
    requires ReadsOf(e, i) ==> e.reply.Delivered?
    ensures OutOfBody(Apply(s, e), i, ref)
  {
    TaskFrame(s, e, i);
  }

  /** Once the flag is set, and while it lives, no worker of that job that was not already in its
      download body ever enters it, in any run in which its flag reads succeed. */
  lemma {:induction false} FlaggedNeverRuns(s: State, steps: seq<Step>, i: nat, ref: Ref, until: nat)
    requires Legal(s, steps) && OutOfBody(s, i, ref) && ref.token != "" && ref.scene != ""
    requires ref in s.flags && until <= s.flags[ref] && until <= s.now + FLAG_TTL
    requires Exec(s, steps).now < until && FailedReads(steps, i) == 0
    ensures OutOfBody(Exec(s, steps), i, ref)
    decreases steps
  {
    if steps != [] {
      FlagHolds(s, steps[0], steps[1..], ref, until);
      StaysOut(s, steps[0], i, ref);
      FlaggedNeverRuns(Apply(s, steps[0]), steps[1..], i, ref, until);
    }
  }

  /** The read is what stops a flagged fetch: it enters the body exactly when the read fails. */
  lemma FlaggedFetchStopsIff(s: State, i: nat, reply: Reply)
    requires i in s.tasks && s.tasks[i].phase.Started? && s.tasks[i].job.kind.Fetch?
    requires var r := s.tasks[i].job.ref; r.token != "" && r.scene != "" && Flagged(s.flags, r, s.now)
    ensures Apply(s, Check(i, reply)).tasks[i].phase.Body? <==> !reply.Delivered?
  {
  }

  /** The carousel worker runs its body whatever the flag says. */
  lemma CarouselIgnoresFlag(s: State, i: nat, reply: Reply)
    requires i in s.tasks && s.tasks[i].phase.Started? && s.tasks[i].job.kind.Carousel?
    ensures Apply(s, Check(i, reply)).tasks[i].phase.Body?
  {
  }

  // ---------------------------------------------------------------- music sends at most one more track

  /** Tracks sent, plus the one under way. */
  function Committed(s: State, i: nat, ref: Ref): nat {
    if i in s.tasks && s.tasks[i].job.ref == ref
    then s.tasks[i].sent + (if s.tasks[i].phase.Sending? then 1 else 0) else 0
  }

  lemma CommittedStep(s: State, e: Step, i: nat, ref: Ref)
    requires Enabled(s, e) && Flagged(s.flags, ref, s.now)
    ensures Committed(Apply(s, e), i, ref) <= Committed(s, i, ref) + FailedReads([e], i)
  {
    TaskFrame(s, e, i);
    assert [e][1..] == [];
  }

  lemma {:induction false} CommittedRun(s: State, steps: seq<Step>, i: nat, ref: Ref, until: nat)
    requires Legal(s, steps) && ref in s.flags && until <= s.flags[ref] && until <= s.now + FLAG_TTL
    requires Exec(s, steps).now < until
    ensures Committed(Exec(s, steps), i, ref) <= Committed(s, i, ref) + FailedReads(steps, i)
    decreases steps
  {
    if steps != [] {
      FlagHolds(s, steps[0], steps[1..], ref, until);
      CommittedStep(s, steps[0], i, ref);
      CommittedRun(Apply(s, steps[0]), steps[1..], i, ref, until);
      assert [steps[0]][1..] == [];
    }
  }

  /** Once the flag is set, and while it lives, a music worker sends at most one more track, plus one
      for every flag read that fails; none more when it was not in the middle of one. */
  lemma FlaggedMusicStops(s: State, steps: seq<Step>, i: nat, ref: Ref, until: nat)
    requires Legal(s, steps) && ref in s.flags && until <= s.flags[ref] && until <= s.now + FLAG_TTL
    requires Exec(s, steps).now < until
    ensures var s' := Exec(s, steps);
            var before := if i in s.tasks && s.tasks[i].job.ref == ref
                          then s.tasks[i].sent + (if s.tasks[i].phase.Sending? then 1 else 0) else 0;
            i in s'.tasks && s'.tasks[i].job.ref == ref ==> s'.tasks[i].sent <= before + FailedReads(steps, i)
  {
    CommittedRun(s, steps, i, ref, until);
  }
}
