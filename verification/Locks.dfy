/** The user locks and cancel flags that all bots keep in one Redis (go/internal/redisx/client.go):
    the meaning of each command on abstract maps, and the key strings the client really uses. */
module Locks {
  import opened Text

  /** One user as seen by one bot; `bot` is the client's key prefix, "" for the main bot. */
  datatype Slot = Slot(bot: string, user: int)

  /** A held lock; Redis forgets it at `expires`. */
  datatype Lock = Lock(scene: string, token: string, expires: nat)

  /** What a cancel flag names. */
  datatype Ref = Ref(slot: Slot, scene: string, token: string)

  /** What the network made of a command: carried out and confirmed, not carried out, or carried
      out with the confirmation lost.  The caller sees an error in the last two cases. */
  datatype Reply = Delivered | Refused | Lost

  type LockMap = map<Slot, Lock>
  type FlagMap = map<Ref, nat>

  // ---------------------------------------------------------------- commands

  predicate Held(locks: LockMap, slot: Slot, now: nat) {
    slot in locks && now < locks[slot].expires
  }

  predicate HeldBy(locks: LockMap, ref: Ref, now: nat) {
    Held(locks, ref.slot, now) && locks[ref.slot].scene == ref.scene && locks[ref.slot].token == ref.token
  }

  predicate Flagged(flags: FlagMap, ref: Ref, now: nat) {
    ref in flags && now < flags[ref]
  }

  /** SETNX. */
  function Acquire(locks: LockMap, slot: Slot, lock: Lock, now: nat): LockMap {
    if Held(locks, slot, now) then locks else locks[slot := lock]
  }

  /** The compare-and-delete script. */
  function Release(locks: LockMap, ref: Ref, now: nat): LockMap {
    if HeldBy(locks, ref, now) then locks - {ref.slot} else locks
  }

  /** DEL, issued by /clear. */
  function Force(locks: LockMap, slot: Slot): LockMap {
    locks - {slot}
  }

  // ---------------------------------------------------------------- keys

  function Key(prefix: string, base: string): string {
    if prefix == "" then base else prefix + ":" + base
  }

  function LockKey(slot: Slot): string {
    Key(slot.bot, "user_busy:" + PrintInt(slot.user))
  }

  function LockValue(scene: string, token: string): string {
    scene + ":" + token
  }

  function FlagKey(ref: Ref): string {
    Key(ref.slot.bot, "download:cancel:" + ref.scene + ":" + PrintInt(ref.slot.user) + ":" + ref.token)
  }

  function DedupKey(bot: string, hash: string): string {
    Key(bot, "dedup:" + hash)
  }

  /** A rate-limit window, as counted by one bot. */
  datatype Meter = Meter(bot: string, scope: string, id: int)

  function MeterKey(m: Meter): string {
    Key(m.bot, "ratelimit:" + m.scope + ":" + PrintInt(m.id))
  }

  /** Scenes are literals in the handlers and tokens are UUIDs: neither contains a colon. */
  predicate Clean(ref: Ref) {
    Free(ref.scene, ':') && Free(ref.token, ':')
  }

  lemma PrintIntFree(i: int)
    ensures Free(PrintInt(i), ':')
  {
    PrintIntShape(i);
  }

  /** The texts of the keys: those of a bot with a prefix carry it in front. */
  lemma KeyTexts(bot: string, user: int, scene: string, token: string, hash: string)
    ensures LockKey(Slot("", user)) == "user_busy:" + PrintInt(user)
    ensures FlagKey(Ref(Slot("", user), scene, token))
         == "download:cancel:" + scene + ":" + PrintInt(user) + ":" + token
    ensures DedupKey("", hash) == "dedup:" + hash
    ensures bot != "" ==>
              && LockKey(Slot(bot, user)) == bot + ":" + LockKey(Slot("", user))
              && FlagKey(Ref(Slot(bot, user), scene, token)) == bot + ":" + FlagKey(Ref(Slot("", user), scene, token))
              && DedupKey(bot, hash) == bot + ":" + DedupKey("", hash)
  {
  }

  lemma KeyCut(prefix: string, head: string, x: string)
    ensures Key(prefix, head + ":" + x) == Key(prefix, head) + ":" + x
  {
    assert prefix + ":" + (head + ":" + x) == prefix + ":" + head + ":" + x;
  }

  /** No prefix, with or without colons, makes two different base names collide with equal ends. */
  lemma {:induction false} KeyInjective(p: string, q: string, base: string)
    requires Key(p, base) == Key(q, base)
    ensures p == q
  {
    assert |Key(p, base)| == |base| + (if p == "" then 0 else |p| + 1);
    assert |Key(q, base)| == |base| + (if q == "" then 0 else |q| + 1);
    assert p == Key(p, base)[..|p|] && q == Key(q, base)[..|q|];
  }

  lemma KeyLast(prefix: string, base: string)
    requires base != ""
    ensures Key(prefix, base) != "" && Key(prefix, base)[|Key(prefix, base)| - 1] == base[|base| - 1]
  {
  }

  /** Lock keys of different users or different bots never coincide, whatever the prefixes are. */
  lemma {:induction false} LockKeyInjective(s: Slot, t: Slot)
    requires LockKey(s) == LockKey(t)
    ensures s == t
  {
    PrintIntFree(s.user);
    PrintIntFree(t.user);
    assert "user_busy:" + PrintInt(s.user) == "user_busy" + ":" + PrintInt(s.user);
    assert "user_busy:" + PrintInt(t.user) == "user_busy" + ":" + PrintInt(t.user);
    KeyCut(s.bot, "user_busy", PrintInt(s.user));
    KeyCut(t.bot, "user_busy", PrintInt(t.user));
    CutLast(Key(s.bot, "user_busy"), PrintInt(s.user), Key(t.bot, "user_busy"), PrintInt(t.user), ':');
    PrintIntInjective(s.user, t.user);
    KeyInjective(s.bot, t.bot, "user_busy");
  }

  /** A lock value names its scene and token: the script compares no less than both. */
  lemma {:induction false} LockValueInjective(scene: string, token: string, scene': string, token': string)
    requires Free(token, ':') && Free(token', ':')
    requires LockValue(scene, token) == LockValue(scene', token')
    ensures scene == scene' && token == token'
  {
    CutLast(scene, token, scene', token', ':');
  }

  /** A flag key, cut at its last colons. */
  lemma FlagKeyCut(r: Ref)
    ensures FlagKey(r)
         == Key(r.slot.bot, "download:cancel") + ":" + r.scene + ":" + PrintInt(r.slot.user) + ":" + r.token
  {
    var p := r.slot.bot;
    var u := PrintInt(r.slot.user);
    assert "download:cancel:" + r.scene + ":" + u + ":" + r.token
        == "download:cancel" + ":" + (r.scene + ":" + u + ":" + r.token);
    KeyCut(p, "download:cancel", r.scene + ":" + u + ":" + r.token);
    assert Key(p, "download:cancel") + ":" + (r.scene + ":" + u + ":" + r.token)
        == Key(p, "download:cancel") + ":" + r.scene + ":" + u + ":" + r.token;
  }

  /** Flag keys tell bot, scene, user and token apart. */
  lemma {:induction false} FlagKeyInjective(r: Ref, s: Ref)
    requires Clean(r) && Clean(s) && FlagKey(r) == FlagKey(s)
    ensures r == s
  {
    FlagKeyCut(r);
    FlagKeyCut(s);
    var base := "download:cancel";
    var (ru, su) := (PrintInt(r.slot.user), PrintInt(s.slot.user));
    PrintIntFree(r.slot.user);
    PrintIntFree(s.slot.user);
    CutLast(Key(r.slot.bot, base) + ":" + r.scene + ":" + ru, r.token,
            Key(s.slot.bot, base) + ":" + s.scene + ":" + su, s.token, ':');
    CutLast(Key(r.slot.bot, base) + ":" + r.scene, ru, Key(s.slot.bot, base) + ":" + s.scene, su, ':');
    CutLast(Key(r.slot.bot, base), r.scene, Key(s.slot.bot, base), s.scene, ':');
    PrintIntInjective(r.slot.user, s.slot.user);
    KeyInjective(r.slot.bot, s.slot.bot, base);
  }

  /** The three kinds of string keys never meet. */
  lemma {:induction false} KindsApart(s: Slot, r: Ref, bot: string, hash: string)
    requires Free(hash, ':')
    ensures Clean(r) ==> LockKey(s) != FlagKey(r)
    ensures Clean(r) ==> DedupKey(bot, hash) != FlagKey(r)
    ensures DedupKey(bot, hash) != LockKey(s)
  {
    var (u, v) := (PrintInt(s.user), PrintInt(r.slot.user));
    PrintIntFree(s.user);
    PrintIntFree(r.slot.user);
    PrintIntShape(r.slot.user);
    assert "user_busy:" + u == "user_busy" + ":" + u;
    KeyCut(s.bot, "user_busy", u);
    KeyLast(s.bot, "user_busy");
    assert "dedup:" + hash == "dedup" + ":" + hash;
    KeyCut(bot, "dedup", hash);
    KeyLast(bot, "dedup");
    FlagKeyCut(r);
    var f := Key(r.slot.bot, "download:cancel") + ":" + r.scene + ":" + v;
    assert f[|f| - 1] == v[|v| - 1];
    if Clean(r) && LockKey(s) == FlagKey(r) {
      CutLast(Key(s.bot, "user_busy"), u, f, r.token, ':');
      assert false;
    }
    if Clean(r) && DedupKey(bot, hash) == FlagKey(r) {
      CutLast(Key(bot, "dedup"), hash, f, r.token, ':');
      assert false;
    }
    if DedupKey(bot, hash) == LockKey(s) {
      CutLast(Key(bot, "dedup"), hash, Key(s.bot, "user_busy"), u, ':');
      assert false;
    }
  }

  // ---------------------------------------------------------------- rate-limit keys

  const SCOPES: set<string> := {"user", "chat", "internal_api_ip"}

  /** A rate-limit key, cut at its last two colons. */
  lemma MeterKeyCut(m: Meter)
    ensures MeterKey(m) == Key(m.bot, "ratelimit") + ":" + m.scope + ":" + PrintInt(m.id)
  {
    var u := PrintInt(m.id);
    assert "ratelimit:" + m.scope + ":" + u == "ratelimit" + ":" + (m.scope + ":" + u);
    KeyCut(m.bot, "ratelimit", m.scope + ":" + u);
    assert Key(m.bot, "ratelimit") + ":" + (m.scope + ":" + u) == Key(m.bot, "ratelimit") + ":" + m.scope + ":" + u;
  }

  /** Rate-limit keys tell bot, scope and identifier apart. */
  lemma {:induction false} MeterKeyInjective(m: Meter, n: Meter)
    requires Free(m.scope, ':') && Free(n.scope, ':') && MeterKey(m) == MeterKey(n)
    ensures m == n
  {
    MeterKeyCut(m);
    MeterKeyCut(n);
    PrintIntFree(m.id);
    PrintIntFree(n.id);
    CutLast(Key(m.bot, "ratelimit") + ":" + m.scope, PrintInt(m.id),
            Key(n.bot, "ratelimit") + ":" + n.scope, PrintInt(n.id), ':');
    CutLast(Key(m.bot, "ratelimit"), m.scope, Key(n.bot, "ratelimit"), n.scope, ':');
    PrintIntInjective(m.id, n.id);
    KeyInjective(m.bot, n.bot, "ratelimit");
  }

  /** A key whose base has no colon ends, after its last colon if it has one, in that base. */
  lemma {:induction false} BaseIsLast(p: string, base: string, x: string, y: string)
    requires Free(base, ':') && Free(y, ':') && Key(p, base) == x + ":" + y
    ensures p == x && base == y
  {
    assert (x + ":" + y)[|x|] == ':';
    if p != "" {
      CutLast(p, base, x, y, ':');
    }
  }

  /** A rate-limit key that is also the lock key of some user. */
  lemma {:induction false} MeterMeetsLock(m: Meter, s: Slot)
    requires Free(m.scope, ':') && MeterKey(m) == LockKey(s)
    ensures m.scope == "user_busy"
  {
    MeterKeyCut(m);
    PrintIntFree(m.id);
    PrintIntFree(s.user);
    assert "user_busy:" + PrintInt(s.user) == "user_busy" + ":" + PrintInt(s.user);
    KeyCut(s.bot, "user_busy", PrintInt(s.user));
    CutLast(Key(m.bot, "ratelimit") + ":" + m.scope, PrintInt(m.id), Key(s.bot, "user_busy"), PrintInt(s.user), ':');
    BaseIsLast(s.bot, "user_busy", Key(m.bot, "ratelimit"), m.scope);
  }

  lemma {:induction false} MeterMeetsLink(m: Meter, bot: string, hash: string)
    requires Free(m.scope, ':') && Free(hash, ':') && MeterKey(m) == DedupKey(bot, hash)
    ensures m.scope == "dedup"
  {
    MeterKeyCut(m);
    PrintIntFree(m.id);
    assert "dedup:" + hash == "dedup" + ":" + hash;
    KeyCut(bot, "dedup", hash);
    CutLast(Key(m.bot, "ratelimit") + ":" + m.scope, PrintInt(m.id), Key(bot, "dedup"), hash, ':');
    BaseIsLast(bot, "dedup", Key(m.bot, "ratelimit"), m.scope);
  }

  lemma {:induction false} MeterMeetsFlag(m: Meter, r: Ref)
    requires Free(m.scope, ':') && Clean(r) && MeterKey(m) == FlagKey(r)
    ensures m.scope == PrintInt(r.slot.user)
  {
    MeterKeyCut(m);
    FlagKeyCut(r);
    PrintIntFree(m.id);
    PrintIntFree(r.slot.user);
    var head := Key(r.slot.bot, "download:cancel") + ":" + r.scene;
    CutLast(Key(m.bot, "ratelimit") + ":" + m.scope, PrintInt(m.id),
            head + ":" + PrintInt(r.slot.user), r.token, ':');
    CutLast(Key(m.bot, "ratelimit"), m.scope, head, PrintInt(r.slot.user), ':');
  }

  ghost predicate ApartFromLocks(scope: string) {
    forall bot: string, id: int, s: Slot :: MeterKey(Meter(bot, scope, id)) != LockKey(s)
  }

  ghost predicate ApartFromLinks(scope: string) {
    forall bot: string, id: int, other: string, hash: string ::
      Free(hash, ':') ==> MeterKey(Meter(bot, scope, id)) != DedupKey(other, hash)
  }

  ghost predicate ApartFromFlags(scope: string) {
    forall bot: string, id: int, r: Ref :: Clean(r) ==> MeterKey(Meter(bot, scope, id)) != FlagKey(r)
  }

  /** The keys that do meet. */
  lemma MeterKeysMeet(u: int)
    ensures MeterKey(Meter("", "user_busy", 1)) == LockKey(Slot("ratelimit", 1))
    ensures MeterKey(Meter("", "dedup", 1)) == DedupKey("ratelimit", PrintInt(1))
    ensures var r := Ref(Slot("", u), "ratelimit", PrintInt(1));
            Clean(r) && MeterKey(Meter("download:cancel", PrintInt(u), 1)) == FlagKey(r)
  {
    PrintIntFree(1);
    MeterKeyCut(Meter("", "user_busy", 1));
    MeterKeyCut(Meter("", "dedup", 1));
    MeterKeyCut(Meter("download:cancel", PrintInt(u), 1));
    FlagKeyCut(Ref(Slot("", u), "ratelimit", PrintInt(1)));
    assert "ratelimit" + ":" + ("user_busy:" + PrintInt(1)) == "ratelimit" + ":" + "user_busy" + ":" + PrintInt(1);
    assert "ratelimit" + ":" + ("dedup:" + PrintInt(1)) == "ratelimit" + ":" + "dedup" + ":" + PrintInt(1);
    assert Key("download:cancel", "ratelimit") == "download:cancel" + ":" + "ratelimit";
  }

  lemma ApartFromLocksIff(scope: string)
    requires Free(scope, ':')
    ensures ApartFromLocks(scope) <==> scope != "user_busy"
  {
    forall bot: string, id: int, s: Slot | scope != "user_busy"
      ensures MeterKey(Meter(bot, scope, id)) != LockKey(s)
    {
      if MeterKey(Meter(bot, scope, id)) == LockKey(s) {
        MeterMeetsLock(Meter(bot, scope, id), s);
      }
    }
    MeterKeysMeet(0);
  }

  lemma ApartFromLinksIff(scope: string)
    requires Free(scope, ':')
    ensures ApartFromLinks(scope) <==> scope != "dedup"
  {
    forall bot: string, id: int, other: string, hash: string | scope != "dedup" && Free(hash, ':')
      ensures MeterKey(Meter(bot, scope, id)) != DedupKey(other, hash)
    {
      if MeterKey(Meter(bot, scope, id)) == DedupKey(other, hash) {
        MeterMeetsLink(Meter(bot, scope, id), other, hash);
      }
    }
    MeterKeysMeet(0);
    PrintIntFree(1);
  }

  lemma ApartFromFlagsIff(scope: string)
    requires Free(scope, ':')
    ensures ApartFromFlags(scope) <==> forall u: int :: scope != PrintInt(u)
  {
    if u: int :| scope == PrintInt(u) {
      MeterKeysMeet(u);
    } else {
      forall bot: string, id: int, r: Ref | Clean(r)
        ensures MeterKey(Meter(bot, scope, id)) != FlagKey(r)
      {
        if MeterKey(Meter(bot, scope, id)) == FlagKey(r) {
          MeterMeetsFlag(Meter(bot, scope, id), r);
        }
      }
    }
  }

  /** A scope whose keys keep clear of all others. */
  ghost predicate Separate(scope: string) {
    && Free(scope, ':') && scope != "user_busy" && scope != "dedup"
    && forall u: int :: scope != PrintInt(u)
  }

  /** A rate-limit key meets no lock, cancel-flag or link key, across all bot prefixes, exactly when its scope
      is neither of their words nor a printed integer. */
  lemma SeparateIff(scope: string)
    requires Free(scope, ':')
    ensures Separate(scope) <==> ApartFromLocks(scope) && ApartFromLinks(scope) && ApartFromFlags(scope)
  {
    ApartFromLocksIff(scope);
    ApartFromLinksIff(scope);
    ApartFromFlagsIff(scope);
  }

  /** The scopes the code counts under keep clear of every other key. */
  lemma ScopesSeparate(scope: string)
    requires scope in SCOPES
    ensures Separate(scope)
  {
    forall u: int
      ensures scope != PrintInt(u)
    {
      PrintIntShape(u);
      assert scope[0] == 'u' || scope[0] == 'c' || scope[0] == 'i';
    }
  }
}
