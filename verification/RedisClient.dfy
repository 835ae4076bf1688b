/** go/internal/redisx/client.go: the client's commands on the real key strings, each proved to do
    to the abstract locks, flags and windows what Locks and Limiter say. */
module RedisClient {
  import opened Text
  import opened Locks
  import L = Limiter

  datatype Entry = Entry(value: string, expires: nat)

  /** `ActiveDownload`. */
  datatype Active = Active(scene: string, token: string)

  /** The three outcomes of `AcquireUserLock`: (token, true, nil), ("", false, nil), ("", false, err). */
  datatype Acquired = Got(token: string) | Busy | Failed

  // ---------------------------------------------------------------- representation

  ghost predicate HoldsLocks(strings: map<string, Entry>, locks: LockMap) {
    forall s: Slot ::
      && (LockKey(s) in strings <==> s in locks)
      && (s in locks ==> Free(locks[s].token, ':'))
      && (s in locks ==> strings[LockKey(s)] == Entry(LockValue(locks[s].scene, locks[s].token), locks[s].expires))
  }

  ghost predicate HoldsFlags(strings: map<string, Entry>, flags: FlagMap) {
    forall r: Ref ::
      && (r in flags ==> Clean(r))
      && (Clean(r) ==> (FlagKey(r) in strings <==> r in flags))
      && (r in flags ==> strings[FlagKey(r)].expires == flags[r])
  }

  ghost predicate HoldsMeters(zsets: map<string, L.Window>, meters: map<Meter, L.Window>) {
    forall m: Meter ::
      && (m in meters ==> Separate(m.scope))
      && (Separate(m.scope) ==> (MeterKey(m) in zsets <==> m in meters))
      && (m in meters ==> zsets[MeterKey(m)] == meters[m])
  }

  lemma MeterRead(zsets: map<string, L.Window>, meters: map<Meter, L.Window>, m: Meter)
    requires HoldsMeters(zsets, meters) && Separate(m.scope)
    ensures MeterKey(m) in zsets <==> m in meters
    ensures m in meters ==> zsets[MeterKey(m)] == meters[m]
  {
  }

  /** The four commands of the pipeline on one window. */
  lemma PipelineMeans(w: L.Window, now: nat, window: nat, limit: int)
    ensures var ticks := L.Prune(L.Visible(w, now), now, window);
            && L.Answer(w, now, window, limit) == (|ticks| < limit)
            && L.Touch(w, now, window) == L.Window(ticks + {now}, now + window + 10_000_000)
  {
  }

  lemma MeterWrite(zsets: map<string, L.Window>, meters: map<Meter, L.Window>, m: Meter, w: L.Window)
    requires HoldsMeters(zsets, meters) && Separate(m.scope)
    ensures HoldsMeters(zsets[MeterKey(m) := w], meters[m := w])
  {
    forall n: Meter | Separate(n.scope)
      ensures MeterKey(n) == MeterKey(m) ==> n == m
    {
      if MeterKey(n) == MeterKey(m) {
        MeterKeyInjective(n, m);
      }
    }
  }

  lemma LockWrite(strings: map<string, Entry>, locks: LockMap, flags: FlagMap, slot: Slot, lock: Lock)
    requires HoldsLocks(strings, locks) && HoldsFlags(strings, flags) && Free(lock.token, ':')
    ensures var after := strings[LockKey(slot) := Entry(LockValue(lock.scene, lock.token), lock.expires)];
            HoldsLocks(after, locks[slot := lock]) && HoldsFlags(after, flags)
  {
    forall s: Slot
      ensures LockKey(s) == LockKey(slot) ==> s == slot
    {
      if LockKey(s) == LockKey(slot) {
        LockKeyInjective(s, slot);
      }
    }
    forall r: Ref | Clean(r)
      ensures FlagKey(r) != LockKey(slot)
    {
      KindsApart(slot, r, "", "");
    }
  }

  lemma LockErase(strings: map<string, Entry>, locks: LockMap, flags: FlagMap, slot: Slot)
    requires HoldsLocks(strings, locks) && HoldsFlags(strings, flags)
    ensures HoldsLocks(strings - {LockKey(slot)}, locks - {slot}) && HoldsFlags(strings - {LockKey(slot)}, flags)
  {
    forall s: Slot
      ensures LockKey(s) == LockKey(slot) ==> s == slot
    {
      if LockKey(s) == LockKey(slot) {
        LockKeyInjective(s, slot);
      }
    }
    forall r: Ref | Clean(r)
      ensures FlagKey(r) != LockKey(slot)
    {
      KindsApart(slot, r, "", "");
    }
  }

  lemma FlagWrite(strings: map<string, Entry>, locks: LockMap, flags: FlagMap, ref: Ref, expires: nat)
    requires HoldsLocks(strings, locks) && HoldsFlags(strings, flags) && Clean(ref)
    ensures var after := strings[FlagKey(ref) := Entry("1", expires)];
            HoldsLocks(after, locks) && HoldsFlags(after, flags[ref := expires])
  {
    forall s: Slot
      ensures LockKey(s) != FlagKey(ref)
    {
      KindsApart(s, ref, "", "");
    }
    forall r: Ref | Clean(r)
      ensures FlagKey(r) == FlagKey(ref) ==> r == ref
    {
      if FlagKey(r) == FlagKey(ref) {
        FlagKeyInjective(r, ref);
      }
    }
  }

  lemma DedupWrite(strings: map<string, Entry>, locks: LockMap, flags: FlagMap, bot: string, hash: string, e: Entry)
    requires HoldsLocks(strings, locks) && HoldsFlags(strings, flags) && Free(hash, ':')
    ensures var after := strings[DedupKey(bot, hash) := e]; HoldsLocks(after, locks) && HoldsFlags(after, flags)
  {
    forall s: Slot
      ensures LockKey(s) != DedupKey(bot, hash)
    {
      KindsApart(s, Ref(s, "", ""), bot, hash);
    }
    forall r: Ref | Clean(r)
      ensures FlagKey(r) != DedupKey(bot, hash)
    {
      KindsApart(r.slot, r, bot, hash);
    }
  }

  // ---------------------------------------------------------------- the server and the client

  /** The shared server: string keys, sorted sets, and its clock. */
  class Redis {
    var now: nat
    var strings: map<string, Entry>
    var zsets: map<string, L.Window>
    ghost var locks: LockMap
    ghost var flags: FlagMap
    ghost var meters: map<Meter, L.Window>

    ghost predicate Valid()
      reads this
    {
      HoldsLocks(strings, locks) && HoldsFlags(strings, flags) && HoldsMeters(zsets, meters)
    }

    constructor ()
      ensures Valid() && now == 0 && locks == map[] && flags == map[] && meters == map[]
      ensures strings == map[] && zsets == map[]
    {
      now, strings, zsets, locks, flags, meters := 0, map[], map[], map[], map[], map[];
    }

    predicate Exists(key: string)
      reads this
    {
      key in strings && now < strings[key].expires
    }

    function ZSet(key: string): L.Window
      reads this
    {
      if key in zsets then zsets[key] else L.Absent
    }

    ghost function Metered(m: Meter): L.Window
      reads this
    {
      if m in meters then meters[m] else L.Absent
    }
  }

  class Client {
    const rdb: Redis
    const prefix: string

    constructor (rdb: Redis, prefix: string)
      ensures this.rdb == rdb && this.prefix == prefix
    {
      this.rdb, this.prefix := rdb, prefix;
    }

    /** SETNX on the lock key; `token` is the fresh UUID. */
    method AcquireUserLock(user: int, scene: string, ttl: nat, token: string, reply: Reply) returns (r: Acquired)
      requires rdb.Valid() && ttl > 0 && Free(token, ':')
      modifies rdb`strings, rdb`locks
      ensures rdb.Valid()
      ensures rdb.locks == if reply.Refused? then old(rdb.locks)
                           else Acquire(old(rdb.locks), Slot(prefix, user), Lock(scene, token, rdb.now + ttl), rdb.now)
      ensures r == if !reply.Delivered? then Failed
                   else if Held(old(rdb.locks), Slot(prefix, user), rdb.now) then Busy
                   else Got(token)
    {
      var slot := Slot(prefix, user);
      var key := LockKey(slot);
      var value := LockValue(scene, token);
      var ok := !rdb.Exists(key);
      assert ok == !Held(rdb.locks, slot, rdb.now);
      if !reply.Refused? && ok {
        LockWrite(rdb.strings, rdb.locks, rdb.flags, slot, Lock(scene, token, rdb.now + ttl));
        rdb.strings := rdb.strings[key := Entry(value, rdb.now + ttl)];
        rdb.locks := rdb.locks[slot := Lock(scene, token, rdb.now + ttl)];
      }
      if !reply.Delivered? {
        return Failed;
      }
      r := if ok then Got(token) else Busy;
    }

    /** The compare-and-delete script; callers ignore its error. */
    method ReleaseUserLock(user: int, scene: string, token: string, reply: Reply)
      requires rdb.Valid() && Free(token, ':')
      modifies rdb`strings, rdb`locks
      ensures rdb.Valid()
      ensures rdb.locks == if reply.Refused? then old(rdb.locks)
                           else Release(old(rdb.locks), Ref(Slot(prefix, user), scene, token), rdb.now)
    {
      var slot := Slot(prefix, user);
      var key := LockKey(slot);
      var value := LockValue(scene, token);
      if !reply.Refused? && rdb.Exists(key) {
        assert Held(rdb.locks, slot, rdb.now);
        if rdb.strings[key].value == value {
          LockValueInjective(rdb.locks[slot].scene, rdb.locks[slot].token, scene, token);
          LockErase(rdb.strings, rdb.locks, rdb.flags, slot);
          rdb.strings := rdb.strings - {key};
          rdb.locks := rdb.locks - {slot};
        }
      }
    }

    method ForceReleaseUserLock(user: int, reply: Reply)
      requires rdb.Valid()
      modifies rdb`strings, rdb`locks
      ensures rdb.Valid()
      ensures rdb.locks == if reply.Refused? then old(rdb.locks) else Force(old(rdb.locks), Slot(prefix, user))
    {
      if !reply.Refused? {
        LockErase(rdb.strings, rdb.locks, rdb.flags, Slot(prefix, user));
        rdb.strings := rdb.strings - {LockKey(Slot(prefix, user))};
        rdb.locks := Force(rdb.locks, Slot(prefix, user));
      }
    }

    /** Reads back the scene and token of the live lock; the value is cut at its first colon. */
    method GetActiveDownload(user: int, reply: Reply) returns (r: Option<Active>)
      requires rdb.Valid()
      ensures var slot := Slot(prefix, user);
              reply.Delivered? && Held(rdb.locks, slot, rdb.now) && Free(rdb.locks[slot].scene, ':')
                && rdb.locks[slot].token != ""
              ==> r == Some(Active(rdb.locks[slot].scene, rdb.locks[slot].token))
      ensures reply.Delivered? && !Held(rdb.locks, Slot(prefix, user), rdb.now) ==> r == None
      ensures !reply.Delivered? ==> r == None
      ensures r.Some? ==> r.value.token != ""
    {
      var key := LockKey(Slot(prefix, user));
      if !reply.Delivered? || !rdb.Exists(key) {
        return None;
      }
      var slot := Slot(prefix, user);
      var value := rdb.strings[key].value;
      var parts := Split(value, ':');
      if |parts| < 2 || Join(parts[1..], ':') == "" {
        if Free(rdb.locks[slot].scene, ':') {
          SplitHead(rdb.locks[slot].scene, ':', rdb.locks[slot].token);
          SplitFree(rdb.locks[slot].token, ':');
        }
        return None;
      }
      if Free(rdb.locks[slot].scene, ':') {
        SplitHead(rdb.locks[slot].scene, ':', rdb.locks[slot].token);
        SplitFree(rdb.locks[slot].token, ':');
      }
      r := Some(Active(parts[0], Join(parts[1..], ':')));
    }

    method SetDownloadCancelled(scene: string, user: int, token: string, ttl: nat, reply: Reply)
      requires rdb.Valid() && Clean(Ref(Slot(prefix, user), scene, token))
      modifies rdb`strings, rdb`flags
      ensures rdb.Valid()
      ensures rdb.flags == if reply.Refused? then old(rdb.flags)
                           else old(rdb.flags)[Ref(Slot(prefix, user), scene, token) := rdb.now + ttl]
    {
      if !reply.Refused? {
        var ref := Ref(Slot(prefix, user), scene, token);
        FlagWrite(rdb.strings, rdb.locks, rdb.flags, ref, rdb.now + ttl);
        rdb.strings := rdb.strings[FlagKey(ref) := Entry("1", rdb.now + ttl)];
        rdb.flags := rdb.flags[ref := rdb.now + ttl];
      }
    }

    /** A failed read counts as "not cancelled" at every caller. */
    method IsDownloadCancelled(scene: string, user: int, token: string, reply: Reply) returns (cancelled: bool)
      requires rdb.Valid() && Clean(Ref(Slot(prefix, user), scene, token))
      ensures cancelled <==> reply.Delivered? && Flagged(rdb.flags, Ref(Slot(prefix, user), scene, token), rdb.now)
    {
      cancelled := reply.Delivered? && rdb.Exists(FlagKey(Ref(Slot(prefix, user), scene, token)));
    }

    /** None is the error, which the callers let through.  The callers' scopes are literals, all separate. */
    method AllowRateLimit(scope: string, id: int, limit: int, window: nat, reply: Reply) returns (r: Option<bool>)
      requires rdb.Valid() && Separate(scope)
      modifies rdb`zsets, rdb`meters
      ensures rdb.Valid()
      ensures var m := Meter(prefix, scope, id);
              && r == (if reply.Delivered? then Some(L.Answer(old(rdb.Metered(m)), rdb.now, window, limit)) else None)
              && rdb.meters == if reply.Refused? then old(rdb.meters)
                               else old(rdb.meters)[m := L.Touch(old(rdb.Metered(m)), rdb.now, window)]
    {
      if reply.Refused? {
        return None;
      }
      var m := Meter(prefix, scope, id);
      var key := MeterKey(m);
      var now := rdb.now;
      MeterRead(rdb.zsets, rdb.meters, m);
      PipelineMeans(rdb.Metered(m), now, window, limit);
      var ticks := L.Prune(L.Visible(rdb.ZSet(key), now), now, window);
      var count := |ticks|;
      ticks := ticks + {now};
      var w := L.Window(ticks, now + window + L.GRACE);
      MeterWrite(rdb.zsets, rdb.meters, m, w);
      rdb.zsets := rdb.zsets[key := w];
      rdb.meters := rdb.meters[m := w];
      r := if reply.Delivered? then Some(count < limit) else None;
    }

    /** SETNX on the first twelve characters of the link's hash; a shorter hash is let through. */
    method AllowURLDedup(hash: string, window: nat, reply: Reply) returns (ok: bool)
      requires rdb.Valid() && Free(hash, ':') && window > 0
      modifies rdb`strings
      ensures rdb.Valid()
      ensures |hash| < 12 ==> ok && rdb.strings == old(rdb.strings)
      ensures |hash| >= 12 ==>
                var key := DedupKey(prefix, hash[..12]);
                && ok == (reply.Delivered? && !old(rdb.Exists(key)))
                && rdb.strings == if reply.Refused? || old(rdb.Exists(key)) then old(rdb.strings)
                                  else old(rdb.strings)[key := Entry("1", rdb.now + window)]
    {
      if |hash| < 12 {
        return true;
      }
      var key := DedupKey(prefix, hash[..12]);
      var free := !rdb.Exists(key);
      if !reply.Refused? && free {
        DedupWrite(rdb.strings, rdb.locks, rdb.flags, prefix, hash[..12], Entry("1", rdb.now + window));
        rdb.strings := rdb.strings[key := Entry("1", rdb.now + window)];
      }
      ok := reply.Delivered? && free;
    }
  }
}
