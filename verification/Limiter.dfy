/** The sliding-window limiter and the link dedup of go/internal/redisx/client.go, on values: what
    the pruned, expiring sorted set answers against what the complete request log would answer.
    Instants are microsecond ticks; the set's member is the printed instant, so requests on one
    tick are one entry. */
module Limiter {
  import opened Text

  /** A sorted set with its expiry. */
  datatype Window = Absent | Window(ticks: set<nat>, expires: nat)

  const GRACE := 10_000_000

  function Visible(w: Window, now: nat): set<nat> {
    if w.Window? && now < w.expires then w.ticks else {}
  }

  /** ZREMRANGEBYSCORE 0 (now - window), bounds included. */
  function Prune(ticks: set<nat>, now: nat, window: nat): set<nat> {
    set t | t in ticks && t > now - window
  }

  function Kept(w: Window, now: nat, window: nat): set<nat> {
    Prune(Visible(w, now), now, window)
  }

  /** The four pipelined commands: prune, count, add, expire. */
  function Touch(w: Window, now: nat, window: nat): Window {
    Window(Kept(w, now, window) + {now}, now + window + GRACE)
  }

  function Answer(w: Window, now: nat, window: nat, limit: int): bool {
    |Kept(w, now, window)| < limit
  }

  // ---------------------------------------------------------------- the request log

  predicate Ordered(log: seq<nat>) {
    forall i, j :: 0 <= i < j < |log| ==> log[i] <= log[j]
  }

  predicate Distinct(log: seq<nat>) {
    forall i, j :: 0 <= i < j < |log| ==> log[i] < log[j]
  }

  /** The distinct instants of the log in the window that ends at `now`. */
  function Recent(log: seq<nat>, now: nat, window: nat): set<nat> {
    set t | t in log && t > now - window
  }

  /** The set after the requests of the log. */
  function After(log: seq<nat>, window: nat): Window {
    if log == [] then Absent
    else Touch(After(log[..|log| - 1], window), log[|log| - 1], window)
  }

  /** Whether request `k` of the log was let through. */
  predicate Allowed(log: seq<nat>, k: nat, window: nat, limit: int)
    requires k < |log|
  {
    Answer(After(log[..k], window), log[k], window, limit)
  }

  /** Pruning and expiry never lose an entry that a later request would count. */
  lemma {:induction false} KeptIsRecent(log: seq<nat>, now: nat, window: nat)
    requires Ordered(log) && (log != [] ==> log[|log| - 1] <= now)
    ensures Kept(After(log, window), now, window) == Recent(log, now, window)
  {
    if log != [] {
      var (front, last) := (log[..|log| - 1], log[|log| - 1]);
      KeptIsRecent(front, last, window);
      assert log == front + [last];
      var w := After(log, window);
      assert w.ticks == Recent(front, last, window) + {last};
      forall t: nat
        ensures t in Kept(w, now, window) <==> t in Recent(log, now, window)
      {
        if t in log {
          assert t <= last;
        }
      }
    }
  }

  lemma AnswersRecent(log: seq<nat>, k: nat, window: nat, limit: int)
    requires Ordered(log) && k < |log|
    ensures Allowed(log, k, window, limit) <==> |Recent(log[..k], log[k], window)| < limit
  {
    KeptIsRecent(log[..k], log[k], window);
  }

  /** The answer from the sorted set is the answer from the complete log. */
  lemma AnswersMatchLog(log: seq<nat>, k: nat, window: nat, limit: int)
    requires Ordered(log) && k < |log|
    ensures Allowed(log, k, window, limit)
       <==> |set t | t in log[..k] && log[k] - window < t| < limit
  {
    AnswersRecent(log, k, window, limit);
    assert Recent(log[..k], log[k], window) == set t | t in log[..k] && log[k] - window < t;
  }

  // ---------------------------------------------------------------- what the limiter guarantees

  /** The requests let through in the window-long interval that ends at `end`. */
  function Admitted(log: seq<nat>, end: nat, window: nat, limit: int): set<nat> {
    set k | 0 <= k < |log| && end - window < log[k] <= end && Allowed(log, k, window, limit)
  }

  function Instants(log: seq<nat>, ks: set<nat>): set<nat>
    requires forall k <- ks :: k < |log|
  {
    set k | k in ks :: log[k]
  }

  function Cap(limit: int): nat {
    if limit < 0 then 0 else limit
  }

  lemma SubsetSize(a: set<nat>, b: set<nat>)
    requires a <= b
    ensures |a| <= |b|
  {
    assert b == a + (b - a);
  }

  lemma {:induction false} InstantsSize(log: seq<nat>, ks: set<nat>)
    requires Distinct(log) && forall k <- ks :: k < |log|
    ensures |ks| == |Instants(log, ks)|
    decreases ks
  {
    if ks != {} {
      var k :| k in ks;
      InstantsSize(log, ks - {k});
      assert Instants(log, ks) == Instants(log, ks - {k}) + {log[k]};
      assert forall j <- ks - {k} :: log[j] != log[k];
    }
  }

  lemma {:induction false} LatestExists(ks: set<nat>)
    requires ks != {}
    ensures exists k :: k in ks && forall j <- ks :: j <= k
    decreases ks
  {
    var m :| m in ks;
    if ks != {m} {
      LatestExists(ks - {m});
      var k :| k in ks - {m} && forall j <- ks - {m} :: j <= k;
      var top := if m < k then k else m;
      forall j | j in ks
        ensures j <= top
      {
        assert j == m || j in ks - {m};
      }
      assert top in ks;
    } else {
      assert forall j <- ks :: j <= m;
    }
  }

  function Latest(ks: set<nat>): (k: nat)
    requires ks != {}
    ensures k in ks && forall j <- ks :: j <= k
  {
    LatestExists(ks);
    var k :| k in ks && forall j <- ks :: j <= k;
    k
  }

  /** In every run, every window-long interval lets at most `limit` distinct instants through. */
  lemma InstantsBounded(log: seq<nat>, end: nat, window: nat, limit: int)
    requires Ordered(log)
    ensures |Instants(log, Admitted(log, end, window, limit))| <= Cap(limit)
  {
    var ks := Admitted(log, end, window, limit);
    if ks != {} {
      var k := Latest(ks);
      AnswersRecent(log, k, window, limit);
      var seen := Recent(log[..k], log[k], window);
      forall t | t in Instants(log, ks)
        ensures t in seen + {log[k]}
      {
        var j :| j in ks && log[j] == t;
        if j < k {
          assert log[..k][j] == t;
        }
      }
      SubsetSize(Instants(log, ks), seen + {log[k]});
    }
  }

  /** With distinct instants, or with a limit of at most one, no window-long interval ever contains
      more than `limit` allowed requests. */
  lemma RequestsBounded(log: seq<nat>, end: nat, window: nat, limit: int)
    requires Ordered(log) && window > 0
    requires Distinct(log) || limit <= 1
    ensures |Admitted(log, end, window, limit)| <= Cap(limit)
  {
    var ks := Admitted(log, end, window, limit);
    if Distinct(log) {
      InstantsBounded(log, end, window, limit);
      InstantsSize(log, ks);
    } else if ks != {} {
      var k := Latest(ks);
      AnswersRecent(log, k, window, limit);
      assert Recent(log[..k], log[k], window) == {};
      forall j | 0 <= j < k
        ensures log[j] <= log[k] - window
      {
        assert log[..k][j] !in Recent(log[..k], log[k], window);
      }
      assert ks == {k};
    }
  }

  function Burst(n: nat, at: nat): seq<nat> {
    seq(n, _ => at)
  }

  /** Requests on one tick collapse to one entry: from a limit of two on, any number passes. */
  lemma BurstPasses(n: nat, at: nat, window: nat, limit: int)
    requires limit >= 2 && window > 0
    ensures |Admitted(Burst(n, at), at, window, limit)| == n
  {
    var log := Burst(n, at);
    forall k: nat | k < n
      ensures Allowed(log, k, window, limit)
    {
      AnswersRecent(log, k, window, limit);
      SubsetSize(Recent(log[..k], at, window), {at});
    }
    assert Admitted(log, at, window, limit) == Below(n);
  }

  /** Exactly when a limit is kept on every ordered run, repeated instants included. */
  lemma KeptOnEveryRunIff(window: nat, limit: int)
    requires window > 0
    ensures (forall log, end :: Ordered(log) ==> |Admitted(log, end, window, limit)| <= Cap(limit)) <==> limit <= 1
  {
    if limit <= 1 {
      forall log, end | Ordered(log)
        ensures |Admitted(log, end, window, limit)| <= Cap(limit)
      {
        RequestsBounded(log, end, window, limit);
      }
    } else {
      BurstPasses(limit + 1, 0, window, limit);
      assert Ordered(Burst(limit + 1, 0));
    }
  }

  // ---------------------------------------------------------------- link dedup

  /** One claim of a link: the first twelve characters of its hash, and when. */
  datatype Claim = Claim(key: string, at: nat)

  type Claims = map<string, nat>

  predicate Taken(held: Claims, key: string, now: nat) {
    key in held && now < held[key]
  }

  /** SETNX with the dedup window as expiry. */
  function Take(held: Claims, c: Claim, window: nat): Claims {
    if Taken(held, c.key, c.at) then held else held[c.key := c.at + window]
  }

  function HeldAfter(log: seq<Claim>, window: nat): Claims {
    if log == [] then map[] else Take(HeldAfter(log[..|log| - 1], window), log[|log| - 1], window)
  }

  predicate Passed(log: seq<Claim>, k: nat, window: nat)
    requires k < |log|
  {
    !Taken(HeldAfter(log[..k], window), log[k].key, log[k].at)
  }

  predicate InOrder(log: seq<Claim>) {
    forall i, j :: 0 <= i < j < |log| ==> log[i].at <= log[j].at
  }

  /** A claim that passed and whose window still covers `now`. */
  predicate Blocks(log: seq<Claim>, j: nat, key: string, now: nat, window: nat) {
    j < |log| && log[j].key == key && now < log[j].at + window && Passed(log, j, window)
  }

  lemma {:induction false} TakenIffBlocked(log: seq<Claim>, key: string, now: nat, window: nat)
    requires InOrder(log) && (log != [] ==> log[|log| - 1].at <= now)
    ensures Taken(HeldAfter(log, window), key, now) <==> exists j :: Blocks(log, j, key, now, window)
  {
    if log != [] {
      var n := |log| - 1;
      var front := log[..n];
      TakenIffBlocked(front, key, now, window);
      TakenIffBlocked(front, key, log[n].at, window);
      forall j: nat | j < n
        ensures Passed(log, j, window) <==> Passed(front, j, window)
      {
        assert log[..j] == front[..j];
      }
      assert forall j: nat :: j < n ==> (Blocks(log, j, key, now, window) <==> Blocks(front, j, key, now, window));
      if log[n].key == key && Passed(log, n, window) {
        if now < log[n].at + window {
          assert Blocks(log, n, key, now, window);
        }
        forall j: nat | j < n
          ensures !Blocks(log, j, key, now, window)
        {
          assert !Blocks(front, j, key, log[n].at, window);
        }
      }
    }
  }

  /** In every run a claim passes exactly when no passed claim of the same link is younger than the
      window. */
  lemma PassedIff(log: seq<Claim>, k: nat, window: nat)
    requires InOrder(log) && k < |log|
    ensures Passed(log, k, window) <==>
            forall j: nat :: j < k && log[j].key == log[k].key && Passed(log, j, window)
              ==> log[j].at + window <= log[k].at
  {
    var front := log[..k];
    TakenIffBlocked(front, log[k].key, log[k].at, window);
    forall j: nat | j < k
      ensures Blocks(front, j, log[k].key, log[k].at, window) <==>
              log[j].key == log[k].key && Passed(log, j, window) && log[k].at < log[j].at + window
    {
      assert log[..j] == front[..j];
    }
  }
}
