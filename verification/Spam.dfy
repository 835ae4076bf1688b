/** go/internal/handler/spam.go: links posted in a group pass once per window.  The claims of a message are
    made link by link, in order. */
module Spam {
  import opened Text
  import opened Locks
  import opened Limiter

  /** A link with its dedup key, whether it is banned (no value when that could not be read), and what
      Redis makes of the claim. */
  datatype Link = Link(key: string, banned: Option<bool>, reply: Reply)

  datatype Verdict = Verdict(allowed: bool, held: Claims)

  function ClaimedAfter(held: Claims, link: Link, now: nat, window: nat): Claims {
    if link.reply.Refused? then held else Take(held, Limiter.Claim(link.key, now), window)
  }

  function Admit(held: Claims, links: seq<Link>, now: nat, window: nat): Verdict
    decreases links
  {
    if links == [] then Verdict(true, held)
    else if links[0].banned == Some(true) then Verdict(false, held)
    else
      var held' := ClaimedAfter(held, links[0], now, window);
      if links[0].reply.Delivered? && Taken(held, links[0].key, now) then Verdict(false, held')
      else Admit(held', links[1..], now, window)
  }

  method AllowGroupLinks(held: Claims, links: seq<Link>, now: nat, window: nat) returns (v: Verdict)
    ensures v == Admit(held, links, now, window)
  {
    var h := held;
    for i := 0 to |links|
      invariant Admit(held, links, now, window) == Admit(h, links[i..], now, window)
    {
      var link := links[i];
      assert links[i..][1..] == links[i + 1..];
      if link.banned == Some(true) {
        return Verdict(false, h);
      }
      var taken := Taken(h, link.key, now);
      h := ClaimedAfter(h, link, now, window);
      if link.reply.Delivered? && taken {
        return Verdict(false, h);
      }
    }
    v := Verdict(true, h);
  }

  predicate ClaimedBy(links: seq<Link>, j: nat, key: string)
    requires j < |links|
  {
    links[j].key == key && !links[j].reply.Refused?
  }

  /** A link that stops a message: it is banned, or its claim is answered and was taken before the message or by
      an earlier link of it whose claim reached Redis. */
  ghost predicate Refusable(held: Claims, links: seq<Link>, k: nat, now: nat)
    requires k < |links|
  {
    || links[k].banned == Some(true)
    || (links[k].reply.Delivered?
        && (Taken(held, links[k].key, now) || exists j :: 0 <= j < k && ClaimedBy(links, j, links[k].key)))
  }

  /** What the later links find after the first one's claim. */
  lemma TakenAfter(held: Claims, link: Link, now: nat, window: nat, key: string)
    requires window > 0
    ensures Taken(ClaimedAfter(held, link, now, window), key, now)
       <==> Taken(held, key, now) || (link.key == key && !link.reply.Refused?)
  {
  }

  lemma RestRefusable(held: Claims, links: seq<Link>, k: nat, now: nat, window: nat)
    requires links != [] && k < |links[1..]| && window > 0
    ensures Refusable(ClaimedAfter(held, links[0], now, window), links[1..], k, now)
       <==> Refusable(held, links, k + 1, now)
  {
    var rest, key := links[1..], links[k + 1].key;
    TakenAfter(held, links[0], now, window, key);
    if exists j :: 0 <= j < k + 1 && ClaimedBy(links, j, key) {
      var j :| 0 <= j < k + 1 && ClaimedBy(links, j, key);
      assert j > 0 ==> ClaimedBy(rest, j - 1, key);
    }
    if exists j :: 0 <= j < k && ClaimedBy(rest, j, key) {
      var j :| 0 <= j < k && ClaimedBy(rest, j, key);
      assert ClaimedBy(links, j + 1, key);
    }
    if ClaimedBy(links, 0, key) {
      assert exists j :: 0 <= j < k + 1 && ClaimedBy(links, j, key);
    }
  }

  /** What is claimed stays claimed, also when a later link stops the message. */
  lemma {:induction false} ClaimsGrow(held: Claims, links: seq<Link>, now: nat, window: nat, key: string)
    requires Taken(held, key, now)
    ensures Taken(Admit(held, links, now, window).held, key, now)
    decreases links
  {
    if links != [] && links[0].banned != Some(true) {
      var held' := ClaimedAfter(held, links[0], now, window);
      assert Taken(held', key, now);
      ClaimsGrow(held', links[1..], now, window, key);
    }
  }

  /** What a message claims: only keys of its links whose claim reached Redis and that were free, each for one
      window from now; no other claim changes. */
  lemma {:induction false} ClaimsMade(held: Claims, links: seq<Link>, now: nat, window: nat, key: string)
    requires window > 0
    ensures var after := Admit(held, links, now, window).held;
            && (key in held && Taken(held, key, now) ==> key in after && after[key] == held[key])
            && (key in after && !(key in held && after[key] == held[key]) ==>
                  && after[key] == now + window && !Taken(held, key, now)
                  && exists j: nat :: j < |links| && ClaimedBy(links, j, key))
    decreases links
  {
    if links != [] && links[0].banned != Some(true) {
      var held' := ClaimedAfter(held, links[0], now, window);
      ClaimsMade(held', links[1..], now, window, key);
      if j: nat :| j < |links[1..]| && ClaimedBy(links[1..], j, key) {
        assert ClaimedBy(links, j + 1, key);
      }
      if links[0].key == key && !links[0].reply.Refused? {
        assert ClaimedBy(links, 0, key);
      }
    }
  }

  /** A stopped message stops at its first link that is refused; what its earlier links claimed stands. */
  lemma {:induction false} StoppedAt(held: Claims, links: seq<Link>, now: nat, window: nat) returns (k: nat)
    requires window > 0 && !Admit(held, links, now, window).allowed
    ensures k < |links| && Refusable(held, links, k, now)
    ensures forall j :: 0 <= j < k ==> !Refusable(held, links, j, now)
    ensures forall j :: 0 <= j < k && !links[j].reply.Refused? ==>
              Taken(Admit(held, links, now, window).held, links[j].key, now)
    decreases links
  {
    if Refusable(held, links, 0, now) {
      k := 0;
    } else {
      var (rest, held') := (links[1..], ClaimedAfter(held, links[0], now, window));
      var i := StoppedAt(held', rest, now, window);
      k := i + 1;
      forall j: nat | j < |rest|
        ensures Refusable(held', rest, j, now) <==> Refusable(held, links, j + 1, now)
      {
        RestRefusable(held, links, j, now, window);
      }
      assert forall j :: 0 < j < k ==> links[j] == rest[j - 1];
      if !links[0].reply.Refused? {
        ClaimsGrow(held', rest, now, window, links[0].key);
      }
      forall j | 0 < j < k
        ensures !Refusable(held, links, j, now)
      {
        assert !Refusable(held', rest, j - 1, now);
      }
    }
  }

  /** Whatever Redis answers, a message passes exactly when no link of it is banned or has an answered claim that
      was taken; then every link whose claim reached Redis is claimed. */
  lemma {:induction false} AdmitIff(held: Claims, links: seq<Link>, now: nat, window: nat)
    requires window > 0
    ensures Admit(held, links, now, window).allowed
       <==> forall k: nat :: k < |links| ==> !Refusable(held, links, k, now)
    ensures Admit(held, links, now, window).allowed ==>
              forall k :: 0 <= k < |links| && !links[k].reply.Refused? ==>
                Taken(Admit(held, links, now, window).held, links[k].key, now)
    decreases links
  {
    if links != [] {
      var first, rest := links[0], links[1..];
      var held' := ClaimedAfter(held, first, now, window);
      AdmitIff(held', rest, now, window);
      if !first.reply.Refused? {
        ClaimsGrow(held', rest, now, window, first.key);
      }
      forall k: nat | k < |rest|
        ensures !Refusable(held, links, 0, now) ==> (Refusable(held', rest, k, now)
                  <==> Refusable(held, links, k + 1, now))
      {
        RestRefusable(held, links, k, now, window);
      }
      if Admit(held, links, now, window).allowed {
        forall k: nat | k < |links|
          ensures !Refusable(held, links, k, now)
        {
          assert k > 0 ==> !Refusable(held', rest, k - 1, now);
        }
      } else if !Refusable(held, links, 0, now) {
        var k: nat :| k < |rest| && Refusable(held', rest, k, now);
        assert Refusable(held, links, k + 1, now);
      }
    }
  }
}
