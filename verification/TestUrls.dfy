/** go/internal/db/test_urls.go and the runner of go/internal/worker/test_urls.go: a checklist of links that
    any number of workers claim, run and finish.  Time is in microseconds. */
module TestUrls {
  import opened Text

  datatype Status = Pending | Running | Passed | Failed
  datatype Outcome = Outcome(passed: bool, error: string, media: string, size: int, duration: int)
  datatype Row = Row(url: string, platform: string, status: Status, outcome: Option<Outcome>, checked: Option<int>,
    updated: int)

  /** How long a running row is left alone. */
  const LEASE: nat := 15 * 60 * 1_000_000

  // ---------------------------------------------------------------- the table

  predicate Runnable(r: Row, now: int) {
    r.status.Pending? || (r.status.Running? && r.updated < now - LEASE)
  }

  /** Rows another transaction has locked are skipped. */
  predicate Open(rows: map<int, Row>, now: int, locked: set<int>, id: int) {
    id in rows && id !in locked && Runnable(rows[id], now)
  }

  /** The smallest runnable id among the unlocked rows, when there is one. */
  ghost predicate IsNext(rows: map<int, Row>, now: int, locked: set<int>, got: Option<int>) {
    match got
    case None => forall j :: !Open(rows, now, locked, j)
    case Some(id) => Open(rows, now, locked, id) && forall j :: Open(rows, now, locked, j) ==> id <= j
  }

  function Claimed(rows: map<int, Row>, now: int, id: int): map<int, Row>
    requires id in rows
  {
    rows[id := rows[id].(status := Running, updated := now)]
  }

  function Finished(rows: map<int, Row>, now: int, id: int, o: Outcome): map<int, Row> {
    if id !in rows then rows
    else rows[id := rows[id].(status := if o.passed then Passed
           else Failed, outcome := Some(o), checked := Some(now), updated := now)]
  }

  predicate Done(r: Row) {
    r.status.Passed? || r.status.Failed?
  }

  predicate Hit(rows: map<int, Row>, which: Option<int>, id: int) {
    id in rows && Done(rows[id]) && (which.Some? ==> which.value == id)
  }

  function Requeued(rows: map<int, Row>, now: int, which: Option<int>): map<int, Row> {
    map id | id in rows ::
      if Hit(rows, which, id) then rows[id].(status := Pending, outcome := None, updated := now) else rows[id]
  }

  function Urls(rows: map<int, Row>): set<string> {
    set id | id in rows :: rows[id].url
  }

  function Created(rows: map<int, Row>, now: int, id: int, url: string, platform: string): map<int, Row> {
    if url in Urls(rows) then rows else rows[id := Row(url, platform, Pending, None, None, now)]
  }

  class Checklist {
    var rows: map<int, Row>
    var next: int
    var now: int

    ghost predicate Valid()
      reads this
    {
      && 1 <= next && (forall id :: id in rows ==> 1 <= id < next)
      && (forall i, j :: i in rows && j in rows && i != j ==> rows[i].url != rows[j].url)
    }

    constructor ()
      ensures Valid() && rows == map[]
    {
      rows, next, now := map[], 1, 0;
    }

    /** The identifier is drawn before the conflict is seen. */
    method CreateTestURL(url: string, platform: string) returns (id: Option<int>)
      requires Valid()
      modifies this`rows, this`next
      ensures Valid() && rows == Created(old(rows), now, old(next), url, platform) && next == old(next) + 1
      ensures id == if exists k :: k in old(rows) && old(rows)[k].url == url then None else Some(old(next))
      ensures rows == if id.Some? then old(rows)[old(next) := Row(url, platform, Pending, None, None, now)]
                      else old(rows)
    {
      next := next + 1;
      if exists k :: k in rows && rows[k].url == url {
        return None;
      }
      rows := rows[next - 1 := Row(url, platform, Pending, None, None, now)];
      id := Some(next - 1);
    }

    method DeleteTestURL(id: int)
      requires Valid()
      modifies this`rows
      ensures Valid() && rows == old(rows) - {id}
    {
      rows := rows - {id};
    }

    /** The table is scanned in the order of the identifiers. */
    method ClaimNextTestURL(locked: set<int>) returns (got: Option<int>)
      requires Valid()
      modifies this`rows
      ensures Valid() && IsNext(old(rows), now, locked, got)
      ensures rows == if got.Some? then Claimed(old(rows), now, got.value) else old(rows)
      ensures got.Some? ==>
                rows == old(rows)[got.value := old(rows)[got.value].(status := Running, updated := now)]
    {
      got := None;
      for id := 1 to next
        invariant forall j :: j < id ==> !Open(rows, now, locked, j)
      {
        if Open(rows, now, locked, id) {
          rows := Claimed(rows, now, id);
          return Some(id);
        }
      }
    }

    method FinishTestURL(id: int, o: Outcome)
      requires Valid()
      modifies this`rows
      ensures Valid() && rows == Finished(old(rows), now, id, o)
      ensures id !in old(rows) ==> rows == old(rows)
      ensures id in old(rows) ==>
                var r := old(rows)[id];
                rows == old(rows)[id := Row(r.url, r.platform, if o.passed then Passed else Failed, Some(o), Some(now),
                                    now)]
    {
      if id in rows {
        rows := Finished(rows, now, id, o);
      }
    }

    method RequeueTestURLs(which: Option<int>) returns (count: nat)
      requires Valid()
      modifies this`rows
      ensures Valid() && rows == Requeued(old(rows), now, which)
      ensures rows.Keys == old(rows).Keys
      ensures forall id :: id in rows ==>
                var r := old(rows)[id];
                rows[id] == if (r.status.Passed? || r.status.Failed?) && (which.None? || which.value == id)
                            then Row(r.url, r.platform, Pending, None, r.checked, now) else r
      ensures count == |set id | id in old(rows) && Hit(old(rows), which, id)|
    {
      var hits := set id | id in rows && Hit(rows, which, id);
      count := |hits|;
      rows := Requeued(rows, now, which);
    }
  }

  // ---------------------------------------------------------------- workers on the table

  datatype Claim = Claim(id: int, since: int)

  /** Each worker runs one row at a time; `claims` are the runs that have not ended yet. */
  datatype State = State(rows: map<int, Row>, next: int, now: int, claims: map<int, Claim>)

  const EMPTY := State(map[], 1, 0, map[])

  datatype Step =
    | Tick(d: nat)
    | Create(url: string, platform: string)
    | Delete(id: int)
    | Take(worker: int, locked: set<int>, got: Option<int>)
    | Finish(worker: int, outcome: Outcome)
    | Drop(worker: int)                 // the worker died, or its outcome could not be stored
    | Requeue(which: Option<int>)

  ghost predicate Legal(s: State, e: Step) {
    match e
    case Take(w, locked, got) => w !in s.claims && IsNext(s.rows, s.now, locked, got)
    case Finish(w, _) => w in s.claims
    case Drop(w) => w in s.claims
    case _ => true
  }

  function Apply(s: State, e: Step): State {
    match e
    case Tick(d) => s.(now := s.now + d)
    case Create(url, platform) => s.(rows := Created(s.rows, s.now, s.next, url, platform), next := s.next + 1)
    case Delete(id) => s.(rows := s.rows - {id})
    case Take(w, _, got) =>
      if got.Some? && got.value in s.rows
      then s.(rows := Claimed(s.rows, s.now, got.value), claims := s.claims[w := Claim(got.value, s.now)])
      else s
    case Finish(w, o) =>
      if w in s.claims then s.(rows := Finished(s.rows, s.now, s.claims[w].id, o), claims := s.claims - {w}) else s
    case Drop(w) => s.(claims := s.claims - {w})
    case Requeue(which) => s.(rows := Requeued(s.rows, s.now, which))
  }

  /** Every unfinished run is at most `deadline` old. */
  ghost predicate Timely(s: State, deadline: nat) {
    forall w :: w in s.claims ==> s.now - s.claims[w].since <= deadline
  }

  function After(steps: seq<Step>): State {
    if steps == [] then EMPTY else Apply(After(steps[..|steps| - 1]), steps[|steps| - 1])
  }

  /** The state after a run, when every step was legal and kept the deadline. */
  ghost predicate Runs(steps: seq<Step>, deadline: nat) {
    steps == []
    || (var init := steps[..|steps| - 1];
        && Runs(init, deadline) && Legal(After(init), steps[|steps| - 1]) && Timely(After(steps), deadline))
  }

  /** No row is being run by two workers. */
  ghost predicate Exclusive(s: State) {
    forall v, w :: v in s.claims && w in s.claims && v != w ==> s.claims[v].id != s.claims[w].id
  }

  /** A live run's row, unless deleted, still says so and was not touched since. */
  ghost predicate Held(s: State) {
    forall w :: w in s.claims && s.claims[w].id in s.rows ==>
      s.rows[s.claims[w].id].status.Running? && s.rows[s.claims[w].id].updated == s.claims[w].since
  }

  ghost predicate Numbered(s: State) {
    && (forall id :: id in s.rows ==> id < s.next)
    && (forall w :: w in s.claims ==> s.claims[w].id < s.next)
  }

  ghost predicate Inv(s: State) {
    Exclusive(s) && Held(s) && Numbered(s)
  }

  lemma TakeKeeps(s: State, w: int, locked: set<int>, id: int)
    requires Inv(s) && Timely(s, LEASE) && Legal(s, Take(w, locked, Some(id)))
    ensures Inv(Apply(s, Take(w, locked, Some(id))))
  {
    assert forall v :: v in s.claims ==> s.claims[v].id != id by {
      assert Open(s.rows, s.now, locked, id);
    }
  }

  lemma FinishKeeps(s: State, w: int, o: Outcome)
    requires Inv(s) && w in s.claims
    ensures Inv(Apply(s, Finish(w, o)))
  {
  }

  lemma RequeueKeeps(s: State, which: Option<int>)
    requires Inv(s)
    ensures Inv(Apply(s, Requeue(which)))
  {
  }

  lemma CreateKeeps(s: State, url: string, platform: string)
    requires Inv(s)
    ensures Inv(Apply(s, Create(url, platform)))
  {
  }

  lemma StepKeeps(s: State, e: Step)
    requires Inv(s) && Timely(s, LEASE) && Legal(s, e)
    ensures Inv(Apply(s, e))
  {
    match e
    case Take(w, locked, got) =>
      if got.Some? {
        TakeKeeps(s, w, locked, got.value);
      }
    case Finish(w, o) => FinishKeeps(s, w, o);
    case Requeue(which) => RequeueKeeps(s, which);
    case Create(url, platform) => CreateKeeps(s, url, platform);
    case _ =>
  }

  lemma {:induction false} RunKeeps(steps: seq<Step>, deadline: nat)
    requires Runs(steps, deadline) && deadline <= LEASE
    ensures Inv(After(steps)) && Timely(After(steps), LEASE)
  {
    if steps != [] {
      var init := steps[..|steps| - 1];
      RunKeeps(init, deadline);
      StepKeeps(After(init), steps[|steps| - 1]);
    }
  }

  lemma OneMore(steps: seq<Step>, e: Step, deadline: nat)
    requires Runs(steps, deadline) && Legal(After(steps), e) && Timely(Apply(After(steps), e), deadline)
    ensures Runs(steps + [e], deadline) && After(steps + [e]) == Apply(After(steps), e)
  {
    assert (steps + [e])[..|steps|] == steps;
  }

  function LateRun(url: string): seq<Step> {
    [Create(url, "x")] + [Take(1, {}, Some(1))] + [Tick(LEASE + 1)] + [Take(2, {}, Some(1))]
  }

  /** The checklist of one row that was claimed, and claimed again after the lease. */
  function Late(url: string): State {
    State(map[1 := Row(url, "x", Running, None, None, LEASE + 1)], 2, LEASE + 1,
          map[1 := Claim(1, 0), 2 := Claim(1, LEASE + 1)])
  }

  lemma ClaimedOnce(url: string, deadline: nat)
    ensures var r := [Create(url, "x")] + [Take(1, {}, Some(1))];
            && Runs(r, deadline)
            && After(r) == State(map[1 := Row(url, "x", Running, None, None, 0)], 2, 0, map[1 := Claim(1, 0)])
  {
    var s := State(map[1 := Row(url, "x", Pending, None, None, 0)], 2, 0, map[]);
    OneMore([], Create(url, "x"), deadline);
    assert [] + [Create(url, "x")] == [Create(url, "x")];
    assert After([Create(url, "x")]) == s;
    assert Open(s.rows, s.now, {}, 1);
    assert Apply(s, Take(1, {}, Some(1))).rows == map[1 := Row(url, "x", Running, None, None, 0)];
    OneMore([Create(url, "x")], Take(1, {}, Some(1)), deadline);
  }

  lemma LateState(url: string, deadline: nat)
    requires deadline > LEASE
    ensures Runs(LateRun(url), deadline) && After(LateRun(url)) == Late(url)
  {
    var r := [Create(url, "x")] + [Take(1, {}, Some(1))];
    ClaimedOnce(url, deadline);
    OneMore(r, Tick(LEASE + 1), deadline);
    var s := After(r + [Tick(LEASE + 1)]);
    assert s == State(map[1 := Row(url, "x", Running, None, None, 0)], 2, LEASE + 1, map[1 := Claim(1, 0)]);
    assert Open(s.rows, s.now, {}, 1);
    assert Apply(s, Take(2, {}, Some(1))) == Late(url);
    OneMore(r + [Tick(LEASE + 1)], Take(2, {}, Some(1)), deadline);
  }

  /** With a longer deadline a second worker can claim a row that is still being run. */
  lemma LateOverlap(deadline: nat)
    requires deadline > LEASE
    ensures Runs(LateRun("u"), deadline) && !Exclusive(After(LateRun("u")))
  {
    LateState("u", deadline);
    assert Late("u").claims[1].id == Late("u").claims[2].id;
  }

  /** Runs that end within the deadline never share a row, for any number of workers and any run, exactly
      when the deadline is at most the fifteen minutes of the claim query. */
  lemma ExclusiveIff(deadline: nat)
    ensures (forall steps :: Runs(steps, deadline) ==> Exclusive(After(steps))) <==> deadline <= 900_000_000
  {
    if deadline <= LEASE {
      forall steps | Runs(steps, deadline)
        ensures Exclusive(After(steps))
      {
        RunKeeps(steps, deadline);
      }
    } else {
      LateOverlap(deadline);
    }
  }

  /** The life of a row: waiting, running, done, waiting again; a running row may be claimed anew. */
  predicate Follows(a: Status, b: Status) {
    a == b || (a.Pending? && b.Running?) || (a.Running? && (b.Passed? || b.Failed?)) || ((a.Passed? || a.Failed?)
      && b.Pending?)
  }

  /** In timely runs statuses change only along that life, and only running rows are ever finished. */
  lemma StatusesFollow(steps: seq<Step>, e: Step, id: int)
    requires Runs(steps, LEASE) && Legal(After(steps), e)
    requires id in After(steps).rows && id in Apply(After(steps), e).rows
    ensures Follows(After(steps).rows[id].status, Apply(After(steps), e).rows[id].status)
  {
    RunKeeps(steps, LEASE);
  }

  /** A late finish can overwrite an outcome: without the deadline a finished row may be finished again. */
  lemma LateFinishOverwrites(deadline: nat)
    requires deadline > LEASE
    ensures exists steps, e, id ::
              && Runs(steps, deadline) && Legal(After(steps), e) && id in After(steps).rows
              && id in Apply(After(steps), e).rows
              && !Follows(After(steps).rows[id].status, Apply(After(steps), e).rows[id].status)
  {
    LateState("u", deadline);
    var good, bad := Outcome(true, "", "video", 1, 1), Outcome(false, "timeout", "", 0, 1);
    OneMore(LateRun("u"), Finish(2, good), deadline);
    var steps, e := LateRun("u") + [Finish(2, good)], Finish(1, bad);
    assert After(steps).rows[1].status == Passed && 1 in After(steps).claims;
    assert Apply(After(steps), e).rows[1].status == Failed;
  }

  /** A row whose run ended without a stored outcome is offered again once the lease has passed, and the
      next claim takes it unless a smaller id is waiting too. */
  lemma ClaimableAgain(s: State, w: int, d: nat, locked: set<int>, got: Option<int>)
    requires Inv(s) && w in s.claims && s.claims[w].id in s.rows && s.now + d > s.claims[w].since + LEASE
    requires s.claims[w].id !in locked
    requires IsNext(s.rows, s.now + d, locked, got)
    ensures var t := Apply(Apply(s, Drop(w)), Tick(d));
            && Runnable(t.rows[s.claims[w].id], t.now)
            && got.Some? && got.value <= s.claims[w].id
            && (got.value < s.claims[w].id ==> Open(t.rows, t.now, locked, got.value))
  {
    assert Open(s.rows, s.now + d, locked, s.claims[w].id);
  }
}
