/** go/internal/handler/payments.go with the ledger of go/internal/db/store.go and the toggle of
    go/internal/handler/settings.go: who may hide the footer.  A database call may be carried out, refused, or
    carried out with its answer lost. */
module Payments {
  import opened Locks

  const PRODUCT := "no_watermark"

  datatype Purchase = Purchase(user: int, product: string, stars: int, currency: string)

  /** `purchases` by charge identifier, and each user's toggle; no row reads as off. */
  datatype Ledger = Ledger(purchases: map<string, Purchase>, toggles: map<int, bool>)

  const EMPTY := Ledger(map[], map[])

  datatype Payment = Payment(user: int, payload: string, amount: int, currency: string, charge: string)

  /** What a user or Telegram sends.  `recorded` is what became of the insert; the flags say which other calls
      took effect, whose answers are only logged. */
  datatype Event =
    | Paid(p: Payment, recorded: Reply, enabled: bool)
    | Toggle(user: int, on: bool, lookedUp: bool, written: bool)
    | Reset(user: int, written: bool)

  predicate HasPurchase(l: Ledger, user: int) {
    exists c :: c in l.purchases && l.purchases[c].user == user && l.purchases[c].product == PRODUCT
  }

  predicate ToggleOn(l: Ledger, user: int) {
    user in l.toggles && l.toggles[user]
  }

  /** `wmEntitled`: a failed lookup reads as not bought. */
  predicate Entitled(l: Ledger, admins: set<int>, user: int, lookedUp: bool) {
    user in admins || (lookedUp && HasPurchase(l, user))
  }

  function Apply(l: Ledger, admins: set<int>, e: Event): Ledger {
    match e
    case Paid(p, recorded, enabled) =>
      if p.payload != PRODUCT || recorded.Refused? || p.charge in l.purchases then l
      else
        Ledger(
          l.purchases[p.charge := Purchase(p.user, PRODUCT, p.amount, p.currency)],
          if recorded.Delivered? && enabled then l.toggles[p.user := true] else l.toggles)
    case Toggle(user, on, lookedUp, written) =>
      if Entitled(l, admins, user, lookedUp) && written then l.(toggles := l.toggles[user := on]) else l
    case Reset(user, written) =>
      if written then l.(toggles := l.toggles[user := false]) else l
  }

  class Shop {
    const admins: set<int>
    var ledger: Ledger

    constructor (admins: set<int>)
      ensures ledger == EMPTY && this.admins == admins
    {
      this.admins := admins;
      ledger := EMPTY;
    }

    /** On conflict nothing: says whether this call added the purchase. */
    method RecordPurchase(user: int, product: string, stars: int, currency: string, charge: string, reply: Reply)
      returns (created: bool)
      modifies this
      ensures created == (reply.Delivered? && charge !in old(ledger.purchases))
      ensures ledger == if !reply.Refused? && charge !in old(ledger.purchases)
                        then old(ledger).(purchases := old(ledger.purchases)[charge
                               := Purchase(user, product, stars, currency)])
                        else old(ledger)
    {
      created := reply.Delivered? && charge !in ledger.purchases;
      if !reply.Refused? && charge !in ledger.purchases {
        ledger := ledger.(purchases := ledger.purchases[charge := Purchase(user, product, stars, currency)]);
      }
    }

    method SetNoWatermark(user: int, on: bool, ok: bool)
      modifies this
      ensures ledger == if ok then old(ledger).(toggles := old(ledger.toggles)[user := on]) else old(ledger)
    {
      if ok {
        ledger := ledger.(toggles := ledger.toggles[user := on]);
      }
    }

    /** A failure to record is logged and confirmed all the same. */
    method OnSuccessfulPayment(p: Payment, recorded: Reply, enabled: bool) returns (confirmed: bool)
      modifies this
      ensures ledger == Apply(old(ledger), admins, Paid(p, recorded, enabled))
      ensures confirmed == (p.payload == "no_watermark")
      ensures p.payload == "no_watermark" && !recorded.Refused? && p.charge !in old(ledger.purchases) ==>
                && ledger.purchases
                     == old(ledger.purchases)[p.charge := Purchase(p.user, "no_watermark", p.amount, p.currency)]
                && ledger.toggles == if recorded.Delivered? && enabled then old(ledger.toggles)[p.user := true]
                                     else old(ledger.toggles)
    {
      if p.payload != PRODUCT {
        return false;
      }
      var created := RecordPurchase(p.user, PRODUCT, p.amount, p.currency, p.charge, recorded);
      if created {
        SetNoWatermark(p.user, true, enabled);
      }
      confirmed := true;
    }

    method OnToggle(user: int, on: bool, lookedUp: bool, written: bool)
      modifies this
      ensures ledger == Apply(old(ledger), admins, Toggle(user, on, lookedUp, written))
      ensures ledger.purchases == old(ledger.purchases)
      ensures ledger.toggles ==
                if written && (user in admins || (lookedUp && HasPurchase(old(ledger), user)))
                then old(ledger.toggles)[user := on] else old(ledger.toggles)
    {
      if Entitled(ledger, admins, user, lookedUp) {
        SetNoWatermark(user, on, written);
      }
    }

    method OnReset(user: int, written: bool)
      modifies this
      ensures ledger == Apply(old(ledger), admins, Reset(user, written))
      ensures ledger.purchases == old(ledger.purchases)
      ensures ledger.toggles == if written then old(ledger.toggles)[user := false] else old(ledger.toggles)
    {
      if written {
        ledger := ledger.(toggles := ledger.toggles[user := false]);
      }
    }

    /** `noWatermarkFor`: the mark a job carries. */
    method NoWatermarkFor(user: int, settingsRead: bool, lookedUp: bool) returns (free: bool)
      ensures free ==> user in ledger.toggles && ledger.toggles[user] && (user in admins || HasPurchase(ledger, user))
      ensures settingsRead && lookedUp ==>
                free == (user in ledger.toggles && ledger.toggles[user]
                         && (user in admins || exists c :: c in ledger.purchases && ledger.purchases[c].user == user
                                                           && ledger.purchases[c].product == "no_watermark"))
    {
      if !settingsRead {
        return false;
      }
      free := ToggleOn(ledger, user) && Entitled(ledger, admins, user, lookedUp);
    }
  }

  // ---------------------------------------------------------------- runs

  function Run(admins: set<int>, events: seq<Event>): Ledger {
    if events == [] then EMPTY else Apply(Run(admins, events[..|events| - 1]), admins, events[|events| - 1])
  }

  /** A payment changes nothing exactly when it is for something else, could not be recorded, or its charge is
      already in the ledger. */
  lemma PaymentInertIff(l: Ledger, admins: set<int>, p: Payment, recorded: Reply, enabled: bool)
    ensures Apply(l, admins, Paid(p, recorded, enabled)) == l
       <==> p.payload != PRODUCT || recorded.Refused? || p.charge in l.purchases
  {
  }

  /** Event `i` put charge `c` into the ledger. */
  ghost predicate Records(events: seq<Event>, i: nat, c: string)
    requires i < |events|
  {
    events[i].Paid? && events[i].p.payload == PRODUCT && !events[i].recorded.Refused? && events[i].p.charge == c
  }

  ghost predicate RecordedBy(events: seq<Event>, c: string) {
    exists i: nat :: i < |events| && Records(events, i, c)
  }

  lemma RecordedMore(events: seq<Event>, e: Event, c: string)
    ensures RecordedBy(events + [e], c) <==> RecordedBy(events, c) || Records([e], 0, c)
  {
    var more := events + [e];
    if RecordedBy(events, c) {
      var i: nat :| i < |events| && Records(events, i, c);
      assert Records(more, i, c);
    }
    if Records([e], 0, c) {
      assert Records(more, |events|, c);
    }
    if RecordedBy(more, c) {
      var i: nat :| i < |more| && Records(more, i, c);
      assert i < |events| ==> Records(events, i, c);
    }
  }

  /** The ledger is the set of charges that were ever recorded: a purchase never leaves it. */
  lemma {:induction false} LedgerIsHistory(admins: set<int>, events: seq<Event>, c: string)
    ensures c in Run(admins, events).purchases <==> RecordedBy(events, c)
  {
    if events != [] {
      var init, e := events[..|events| - 1], events[|events| - 1];
      LedgerIsHistory(admins, init, c);
      RecordedMore(init, e, c);
      assert events == init + [e];
    }
  }

  /** One more delivery of a payment, at any point after its charge was recorded and with any database
      answers, changes nothing: not then, and not at the end of any continuation. */
  lemma {:induction false} RedeliveryHarmless(admins: set<int>, before: seq<Event>, copy: Payment, recorded: Reply,
                                              enabled: bool,
                                                later: seq<Event>)
    requires RecordedBy(before, copy.charge)
    ensures Run(admins, before + [Paid(copy, recorded, enabled)] + later) == Run(admins, before + later)
  {
    var with := before + [Paid(copy, recorded, enabled)];
    if later == [] {
      LedgerIsHistory(admins, before, copy.charge);
      assert with[..|with| - 1] == before;
      assert with + later == with && before + later == before;
    } else {
      var init := later[..|later| - 1];
      RedeliveryHarmless(admins, before, copy, recorded, enabled, init);
      assert (with + later)[..|with + later| - 1] == with + init;
      assert (before + later)[..|before + later| - 1] == before + init;
    }
  }

  /** Any number of them. */
  lemma {:induction false} RedeliveriesHarmless(admins: set<int>, before: seq<Event>, copies: seq<Event>,
                                                later: seq<Event>)
    requires forall k :: 0 <= k < |copies| ==> copies[k].Paid? && RecordedBy(before, copies[k].p.charge)
    ensures Run(admins, before + copies + later) == Run(admins, before + later)
  {
    if copies == [] {
      assert before + copies + later == before + later;
    } else {
      var c := copies[0];
      RedeliveryHarmless(admins, before, c.p, c.recorded, c.enabled, copies[1..] + later);
      assert [c] == [Paid(c.p, c.recorded, c.enabled)];
      assert before + copies + later == before + [c] + (copies[1..] + later);
      assert before + copies[1..] + later == before + (copies[1..] + later);
      RedeliveriesHarmless(admins, before, copies[1..], later);
    }
  }

  /** A payment recorded with its answer lost leaves the toggle as it was, and no redelivery turns it on: exactly
      the payments whose insert was answered and whose switch was written turn it on. */
  lemma LostRecordingNeverEnables(admins: set<int>, before: seq<Event>, p: Payment, enabled: bool, copies: seq<Event>)
    requires p.payload == PRODUCT && forall k :: 0 <= k < |copies| ==> copies[k].Paid? && copies[k].p.charge == p.charge
    ensures var after := Run(admins, before + [Paid(p, Lost, enabled)] + copies);
            after.toggles == Run(admins, before).toggles && p.charge in after.purchases
  {
    var first := before + [Paid(p, Lost, enabled)];
    assert first[..|before|] == before;
    assert Records(first, |before|, p.charge);
    RedeliveriesHarmless(admins, first, copies, []);
    assert first + copies + [] == first + copies && first + [] == first;
  }

  lemma ApplyKeepsPurchases(l: Ledger, admins: set<int>, e: Event, user: int)
    requires HasPurchase(l, user)
    ensures HasPurchase(Apply(l, admins, e), user)
  {
    var c :| c in l.purchases && l.purchases[c].user == user && l.purchases[c].product == PRODUCT;
    var m := Apply(l, admins, e);
    assert c in m.purchases && m.purchases[c] == l.purchases[c];
  }

  lemma EventEntitles(l: Ledger, admins: set<int>, e: Event, user: int)
    requires ToggleOn(l, user) ==> user in admins || HasPurchase(l, user)
    ensures ToggleOn(Apply(l, admins, e), user) ==> user in admins || HasPurchase(Apply(l, admins, e), user)
  {
    if HasPurchase(l, user) {
      ApplyKeepsPurchases(l, admins, e, user);
    }
    var m := Apply(l, admins, e);
    if ToggleOn(m, user) && !ToggleOn(l, user) && e.Paid? {
      assert e.p.charge in m.purchases && m.purchases[e.p.charge].user == user;
    }
  }

  /** In every run, whatever fails, nobody's toggle is on who is neither an administrator nor a recorded buyer. */
  lemma {:induction false} ToggleEarned(admins: set<int>, events: seq<Event>, user: int)
    ensures ToggleOn(Run(admins, events), user) ==> user in admins || HasPurchase(Run(admins, events), user)
  {
    if events != [] {
      var init, e := events[..|events| - 1], events[|events| - 1];
      ToggleEarned(admins, init, user);
      EventEntitles(Run(admins, init), admins, e, user);
    }
  }
}
