/** go/internal/dash/auth.go: dashboard sessions in memory, dropped when they expire. */
module Sessions {
  import opened Text

  datatype Entry = Entry(user: int, username: string, firstName: string, expires: int)

  /** Seven days, in microseconds. */
  const SESSION_TTL: nat := 7 * 24 * 3600 * 1_000_000

  predicate Expired(e: Entry, now: int) {
    now > e.expires
  }

  datatype Event = Issued(token: string, entry: Entry) | Revoked(token: string)

  /** What the whole history says about a token: the last issue, unless revoked since. */
  function Standing(log: seq<Event>, token: string): Option<Entry> {
    if log == [] then None
    else
      match log[|log| - 1]
      case Issued(t, e) => if t == token then Some(e) else Standing(log[..|log| - 1], token)
      case Revoked(t) => if t == token then None else Standing(log[..|log| - 1], token)
  }

  /** Issued at some point, and not revoked after it. */
  ghost predicate IssuedSince(log: seq<Event>, i: nat, token: string, e: Entry) {
    i < |log| && log[i] == Issued(token, e) && forall j :: i < j < |log| ==> log[j] != Revoked(token)
  }

  /** Tokens are never issued twice. */
  ghost predicate Unrepeated(log: seq<Event>) {
    forall i, j :: 0 <= i < j < |log| && log[i].Issued? && log[j].Issued? ==> log[i].token != log[j].token
  }

  lemma {:induction false} StandingMeans(log: seq<Event>, token: string, e: Entry)
    requires Unrepeated(log)
    ensures Standing(log, token) == Some(e) <==> exists i: nat :: IssuedSince(log, i, token, e)
  {
    if log != [] {
      var init, last := log[..|log| - 1], |log| - 1;
      StandingMeans(init, token, e);
      if log[last] == Issued(token, e) {
        assert IssuedSince(log, last, token, e);
      } else if log[last].token != token && Standing(log, token) == Some(e) {
        var i: nat :| IssuedSince(init, i, token, e);
        assert IssuedSince(log, i, token, e);
      }
      if exists i: nat :: IssuedSince(log, i, token, e) {
        var i: nat :| IssuedSince(log, i, token, e);
        if i < last {
          assert log[i].token != log[last].token || log[last].Revoked?;
          assert IssuedSince(init, i, token, e);
        }
      }
    }
  }

  lemma Appended(log: seq<Event>, e: Event)
    ensures forall t :: Standing(log + [e], t) ==
                        if t == e.token then (if e.Issued? then Some(e.entry) else None) else Standing(log, t)
  {
    assert (log + [e])[..|log|] == log;
  }

  class SessionManager {
    var byID: map<string, Entry>
    var now: int
    ghost var log: seq<Event>

    /** The table and the history agree on every token that has not expired. */
    ghost predicate Valid()
      reads this
    {
      && Unrepeated(log)
      && (forall t :: t in byID ==> Standing(log, t) == Some(byID[t]))
      && (forall t :: t !in byID && Standing(log, t).Some? ==> Expired(Standing(log, t).value, now))
    }

    constructor (now: int)
      ensures Valid() && log == [] && this.now == now
    {
      byID, log, this.now := map[], [], now;
    }

    method Cleanup()
      requires Valid()
      modifies this`byID
      ensures Valid() && forall t :: t in byID <==> t in old(byID) && now <= old(byID)[t].expires
    {
      var left := byID.Keys;
      while left != {}
        invariant Valid() && left <= byID.Keys <= old(byID).Keys
        invariant forall t :: t in byID ==> byID[t] == old(byID)[t]
        invariant forall t :: t in old(byID) && t !in left ==> (t in byID <==> !Expired(old(byID)[t], now))
        decreases left
      {
        var t :| t in left;
        left := left - {t};
        if Expired(byID[t], now) {
          byID := byID - {t};
        }
      }
    }

    /** `token` is freshly drawn. */
    method Issue(token: string, user: int, username: string, firstName: string)
      requires Valid() && forall i :: 0 <= i < |log| ==> log[i].Issued? ==> log[i].token != token
      modifies this
      ensures Valid() && now == old(now)
      ensures log == old(log) + [Issued(token, Entry(user, username, firstName, now + 7 * 86_400_000_000))]
    {
      Cleanup();
      var e := Entry(user, username, firstName, now + SESSION_TTL);
      byID := byID[token := e];
      Appended(log, Issued(token, e));
      log := log + [Issued(token, e)];
    }

    /** Succeeds exactly when the token was issued, not revoked since, and is not past its expiry; dropping
        an expired entry changes no answer. */
    method Lookup(token: string) returns (r: Option<Entry>)
      requires Valid()
      modifies this`byID
      ensures Valid()
      ensures forall e :: r == Some(e) <==> (exists i: nat :: IssuedSince(log, i, token, e)) && now <= e.expires
    {
      forall e
        ensures Standing(log, token) == Some(e) <==> exists i: nat :: IssuedSince(log, i, token, e)
      {
        StandingMeans(log, token, e);
      }
      if token !in byID {
        return None;
      }
      var e := byID[token];
      if Expired(e, now) {
        byID := byID - {token};
        return None;
      }
      r := Some(e);
    }

    method Revoke(token: string)
      requires Valid()
      modifies this`byID, this`log
      ensures Valid() && log == old(log) + [Revoked(token)]
    {
      byID := byID - {token};
      Appended(log, Revoked(token));
      log := log + [Revoked(token)];
    }
  }
}
