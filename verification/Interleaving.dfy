/** Whose step is whose, and what a run of other parties' steps leaves alone. */
module Interleaving {
  import opened Protocol

  /** A handler goroutine, a task and its worker, or anybody else: buttons, /clear and the clock. */
  datatype Party = TheHandler(h: nat) | TheTask(i: nat) | Anybody | Nobody

  function Owner(e: Step): Party {
    match e
    case Begin(h, _, _, _) => TheHandler(h)
    case BeginFree(h, _) => TheHandler(h)
    case Post(h, _) => TheHandler(h)
    case Enqueue(h, _, _) => TheHandler(h)
    case Undo(h, _) => TheHandler(h)
    case HandlerCrash(h) => TheHandler(h)
    case Start(i) => TheTask(i)
    case Check(i, _) => TheTask(i)
    case Claim(i, _) => TheTask(i)
    case Send(i, _) => TheTask(i)
    case Finish(i, _) => TheTask(i)
    case Leave(i, _) => TheTask(i)
    case WorkerCrash(i, _) => TheTask(i)
    case Discard(i, _, _) => TheTask(i)
    case _ => Anybody
  }

  /** A party's own steps in a run. */
  function Own(run: seq<Step>, p: Party): seq<Step> {
    if run == [] then []
    else Own(run[..|run| - 1], p) + if Owner(run[|run| - 1]) == p then [run[|run| - 1]] else []
  }

  predicate Others(run: seq<Step>, p: Party) {
    forall k :: 0 <= k < |run| ==> Owner(run[k]) != p
  }

  ghost predicate Ran(s: State, run: seq<Step>, s': State) {
    Legal(s, run) && Exec(s, run) == s'
  }

  lemma OwnStep(run: seq<Step>, e: Step, p: Party)
    ensures Own(run + [e], p) == Own(run, p) + if Owner(e) == p then [e] else []
  {
    assert (run + [e])[..|run|] == run;
  }

  lemma {:induction false} OwnOthers(run: seq<Step>, more: seq<Step>, p: Party)
    requires Others(more, p)
    ensures Own(run + more, p) == Own(run, p)
  {
    if more == [] {
      assert run + more == run;
    } else {
      var init, last := more[..|more| - 1], more[|more| - 1];
      OwnOthers(run, init, p);
      OwnStep(run + init, last, p);
      assert run + more == run + init + [last];
    }
  }

  lemma OwnOne(e: Step, p: Party)
    requires Owner(e) == p
    ensures Own([e], p) == [e]
  {
    assert [e][..0] == [];
  }

  lemma RanStep(s: State, run: seq<Step>, s': State, e: Step)
    requires Ran(s, run, s') && Enabled(s', e)
    ensures Ran(s, run + [e], Apply(s', e))
  {
    Extend(s, run, e);
  }

  lemma RanMore(s: State, run: seq<Step>, s': State, more: seq<Step>, s'': State)
    requires Ran(s, run, s') && Ran(s', more, s'')
    ensures Ran(s, run + more, s'')
  {
    Chain(s, run, more);
  }

  // ---------------------------------------------------------------- what others leave alone

  lemma HandlerLeft(s: State, e: Step, h: nat)
    requires Enabled(s, e) && h in s.handlers && Owner(e) != TheHandler(h)
    ensures h in Apply(s, e).handlers && Apply(s, e).handlers[h] == s.handlers[h]
  {
    if !HandlerStep(e) {
      HandlersKept(s, e);
    }
  }

  lemma TaskLeft(s: State, e: Step, i: nat)
    requires Enabled(s, e) && i in s.tasks && Owner(e) != TheTask(i)
    ensures i in Apply(s, e).tasks && Apply(s, e).tasks[i] == s.tasks[i]
  {
    if HandlerStep(e) && !e.Enqueue? {
      TasksKept(s, e);
    }
  }

  /** Nobody moves another handler's program counter. */
  lemma {:induction false} HandlerUntouched(s: State, run: seq<Step>, h: nat)
    requires Legal(s, run) && h in s.handlers && Others(run, TheHandler(h))
    ensures h in Exec(s, run).handlers && Exec(s, run).handlers[h] == s.handlers[h]
    decreases run
  {
    if run != [] {
      HandlerLeft(s, run[0], h);
      HandlerUntouched(Apply(s, run[0]), run[1..], h);
    }
  }

  /** Nor another worker's. */
  lemma {:induction false} TaskUntouched(s: State, run: seq<Step>, i: nat)
    requires Legal(s, run) && i in s.tasks && Others(run, TheTask(i))
    ensures i in Exec(s, run).tasks && Exec(s, run).tasks[i] == s.tasks[i]
    decreases run
  {
    if run != [] {
      TaskLeft(s, run[0], i);
      TaskUntouched(Apply(s, run[0]), run[1..], i);
    }
  }

  // ---------------------------------------------------------------- parties that leave the locks alone

  /** Every step of the party finds and leaves locks and log the same: they are what the others make them. */
  ghost predicate Idle(s: State, run: seq<Step>, p: Party)
    requires Legal(s, run)
    decreases run
  {
    run == []
    || ((Owner(run[0]) == p ==> Apply(s, run[0]).locks == s.locks && Apply(s, run[0]).log == s.log)
        && Idle(Apply(s, run[0]), run[1..], p))
  }

  lemma {:induction false} QuietIdle(s: State, run: seq<Step>, p: Party)
    requires Legal(s, run) && forall k :: 0 <= k < |run| && Owner(run[k]) == p ==> !TouchesLocks(run[k])
    ensures Idle(s, run, p)
    decreases run
  {
    if run != [] {
      if Owner(run[0]) == p {
        LocksKept(s, run[0]);
      }
      QuietIdle(Apply(s, run[0]), run[1..], p);
    }
  }

  lemma {:induction false} OwnHas(run: seq<Step>, p: Party, k: nat)
    requires k < |run| && Owner(run[k]) == p
    ensures run[k] in Own(run, p)
  {
    if k < |run| - 1 {
      OwnHas(run[..|run| - 1], p, k);
    }
  }

  lemma OwnIdle(s: State, run: seq<Step>, p: Party)
    requires Legal(s, run) && forall e :: e in Own(run, p) ==> !TouchesLocks(e)
    ensures Idle(s, run, p)
  {
    forall k | 0 <= k < |run| && Owner(run[k]) == p
      ensures !TouchesLocks(run[k])
    {
      OwnHas(run, p, k);
    }
    QuietIdle(s, run, p);
  }
}
