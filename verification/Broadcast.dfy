/** go/internal/worker/broadcast.go and go/internal/db/broadcast.go: one message to many users, with counters
    and a table of delivery rows that nothing but the code keeps unique. */
module Broadcast {
  import opened Text

  // ---------------------------------------------------------------- one recipient

  /** What one send ends with: delivered, an error of the Telegram API with its code and wait, or another
      error, whose text may say that the bot is forbidden. */
  datatype Answer = Delivered | ApiError(code: int, retryAfter: nat) | OtherError(forbidden: bool)

  datatype Status = Sent | Failed | Blocked

  /** A recipient with the answers of the first and, after a wait, the second send; whether the table could be
      asked for the recipient's row, and whether it could then be written. */
  datatype Attempt = Attempt(user: int, first: Answer, second: Answer, looked: bool, saved: bool)

  /** `isBlockedError`. */
  predicate IsBlocked(a: Answer) {
    match a
    case Delivered => false
    case ApiError(code, _) => code == 403
    case OtherError(forbidden) => forbidden
  }

  /** `extractRetryAfter` asks for a second send. */
  predicate Waits(a: Answer) {
    a.ApiError? && a.retryAfter > 0
  }

  /** The answers a recipient gets: the second send is made only after a wait that is not a block. */
  function Tries(a: Attempt): seq<Answer> {
    if Waits(a.first) && !IsBlocked(a.first) then [a.first, a.second] else [a.first]
  }

  /** Delivered when the last answer says so; blocked only by the first answer; failed otherwise. */
  function StatusOf(a: Attempt): Status {
    var tries := Tries(a);
    if tries[|tries| - 1].Delivered? then Sent
    else if IsBlocked(tries[0]) then Blocked
    else Failed
  }

  /** The switch of the loop.  `tries` are the sends it made. */
  method Deliver(a: Attempt) returns (s: Status, tries: seq<Answer>)
    ensures tries == Tries(a) && s == StatusOf(a)
    ensures tries == if a.first.ApiError? && a.first.retryAfter > 0 && a.first.code != 403 then [a.first, a.second]
                     else [a.first]
    ensures s.Sent? <==> Answer.Delivered in tries
    ensures s.Blocked? <==> (a.first.ApiError? && a.first.code == 403) || (a.first.OtherError? && a.first.forbidden)
  {
    tries := [a.first];
    if a.first.Delivered? {
      return Sent, tries;
    }
    if IsBlocked(a.first) {
      return Blocked, tries;
    }
    if Waits(a.first) {
      tries := tries + [a.second];
      if a.second.Delivered? {
        return Sent, tries;
      }
    }
    s := Failed;
  }

  /** A block that shows only at the second send counts as a failure: a recipient who blocked the bot is
      counted as blocked if and only if the first answer already said so. */
  lemma BlockedIff(a: Attempt)
    requires exists t <- Tries(a) :: IsBlocked(t)
    ensures StatusOf(a).Blocked? <==> IsBlocked(a.first)
  {
  }

  // ---------------------------------------------------------------- counters

  datatype Counters = Counters(sent: nat, failed: nat, blocked: nat)

  function Sum(c: Counters): nat {
    c.sent + c.failed + c.blocked
  }

  function Of(c: Counters, s: Status): nat {
    match s
    case Sent => c.sent
    case Failed => c.failed
    case Blocked => c.blocked
  }

  function Counted(c: Counters, s: Status): Counters {
    match s
    case Sent => c.(sent := c.sent + 1)
    case Failed => c.(failed := c.failed + 1)
    case Blocked => c.(blocked := c.blocked + 1)
  }

  /** How many of the attempts ended with a status. */
  function Count(attempts: seq<Attempt>, s: Status): nat {
    if attempts == [] then 0
    else Count(attempts[..|attempts| - 1], s) + if StatusOf(attempts[|attempts| - 1]) == s then 1 else 0
  }

  function Tally(attempts: seq<Attempt>): Counters {
    Counters(Count(attempts, Sent), Count(attempts, Failed), Count(attempts, Blocked))
  }

  function With(attempts: seq<Attempt>, s: Status): set<nat> {
    set k | 0 <= k < |attempts| && StatusOf(attempts[k]) == s
  }

  lemma WithMore(init: seq<Attempt>, last: Attempt, s: Status)
    ensures With(init + [last], s) == With(init, s) + if StatusOf(last) == s then {|init|} else {}
  {
    var more := init + [last];
    forall k
      ensures k in With(more, s) <==> k in With(init, s) || (k == |init| && StatusOf(last) == s)
    {
      assert 0 <= k < |init| ==> more[k] == init[k];
    }
  }

  lemma {:induction false} CountIsSet(attempts: seq<Attempt>, s: Status)
    ensures Count(attempts, s) == |With(attempts, s)|
  {
    if attempts != [] {
      var (init, last) := (attempts[..|attempts| - 1], attempts[|attempts| - 1]);
      CountIsSet(init, s);
      WithMore(init, last, s);
      assert attempts == init + [last];
    }
  }

  /** The counters are the numbers of recipients that ended with each status. */
  lemma TallyIs(attempts: seq<Attempt>)
    ensures Tally(attempts).sent == |set k | 0 <= k < |attempts| && StatusOf(attempts[k]) == Sent|
    ensures Tally(attempts).failed == |set k | 0 <= k < |attempts| && StatusOf(attempts[k]) == Failed|
    ensures Tally(attempts).blocked == |set k | 0 <= k < |attempts| && StatusOf(attempts[k]) == Blocked|
  {
    CountIsSet(attempts, Sent);
    CountIsSet(attempts, Failed);
    CountIsSet(attempts, Blocked);
  }

  lemma {:induction false} TallySums(attempts: seq<Attempt>)
    ensures Sum(Tally(attempts)) == |attempts|
  {
    if attempts != [] {
      TallySums(attempts[..|attempts| - 1]);
    }
  }

  /** The progress writes: after every full batch. */
  function Progress(attempts: seq<Attempt>, batchSize: int): seq<Counters> {
    if attempts == [] then []
    else
      Progress(attempts[..|attempts| - 1], batchSize)
      + if batchSize > 0 && |attempts| % batchSize == 0 then [Tally(attempts)] else []
  }

  predicate Written(attempts: seq<Attempt>, batchSize: int, c: Counters, done: nat) {
    0 < done <= |attempts| && batchSize > 0 && done % batchSize == 0 && c == Tally(attempts[..done]) && Sum(c) == done
  }

  /** A progress write accounts for exactly the recipients handled by then, which fill whole batches; and every
      whole batch is followed by one. */
  lemma {:induction false} ProgressAccounts(attempts: seq<Attempt>, batchSize: int, c: Counters)
    ensures c in Progress(attempts, batchSize) <==> exists done: nat :: Written(attempts, batchSize, c, done)
  {
    if attempts != [] {
      var init := attempts[..|attempts| - 1];
      ProgressAccounts(init, batchSize, c);
      TallySums(attempts);
      assert attempts[..|attempts|] == attempts;
      if c in Progress(init, batchSize) {
        var done: nat :| Written(init, batchSize, c, done);
        assert init[..done] == attempts[..done];
        assert Written(attempts, batchSize, c, done);
      } else if c in Progress(attempts, batchSize) {
        assert Written(attempts, batchSize, c, |attempts|);
      }
      if exists done: nat :: Written(attempts, batchSize, c, done) {
        var done: nat :| Written(attempts, batchSize, c, done);
        if done < |attempts| {
          assert init[..done] == attempts[..done];
          assert Written(init, batchSize, c, done);
        }
      }
    }
  }

  // ---------------------------------------------------------------- the table

  /** A delivery row of the broadcast.  The table has a serial key and no constraint on the user. */
  datatype Row = Row(user: int, status: Status)

  /** The statuses in a user's rows, oldest row first. */
  function RowsOf(rows: seq<Row>, user: int): seq<Status> {
    if rows == [] then []
    else RowsOf(rows[..|rows| - 1], user) + if rows[|rows| - 1].user == user then [rows[|rows| - 1].status] else []
  }

  predicate HasRow(rows: seq<Row>, user: int) {
    exists k :: 0 <= k < |rows| && rows[k].user == user
  }

  /** UPDATE ... WHERE user_id = user: every matching row. */
  function Updated(rows: seq<Row>, user: int, status: Status): seq<Row> {
    seq(|rows|, k requires 0 <= k < |rows| => if rows[k].user == user then Row(user, status) else rows[k])
  }

  /** `SaveBroadcastDelivery`: the answer of the lookup is dropped when it fails, and the row then counts as
      absent. */
  function Saved(rows: seq<Row>, user: int, status: Status, looked: bool, saved: bool): seq<Row> {
    if !saved then rows
    else if looked && HasRow(rows, user) then Updated(rows, user, status)
    else rows + [Row(user, status)]
  }

  /** The table after some attempts. */
  function Rows(rows: seq<Row>, attempts: seq<Attempt>): seq<Row> {
    if attempts == [] then rows
    else
      var last := attempts[|attempts| - 1];
      Saved(Rows(rows, attempts[..|attempts| - 1]), last.user, StatusOf(last), last.looked, last.saved)
  }

  /** All rows take the new status when the lookup found one; otherwise one more row has it. */
  function After(before: seq<Status>, status: Status, looked: bool, saved: bool): seq<Status> {
    if !saved then before
    else if looked && before != [] then seq(|before|, k requires 0 <= k < |before| => status)
    else before + [status]
  }

  lemma {:induction false} HasRowIff(rows: seq<Row>, user: int)
    ensures HasRow(rows, user) <==> RowsOf(rows, user) != []
  {
    if rows != [] {
      var init := rows[..|rows| - 1];
      HasRowIff(init, user);
      if k :| 0 <= k < |rows| && rows[k].user == user {
        assert k < |init| ==> init[k].user == user;
      }
      if HasRow(init, user) {
        var k :| 0 <= k < |init| && init[k].user == user;
        assert rows[k].user == user;
      }
    }
  }

  lemma {:induction false} UpdatedMeans(rows: seq<Row>, user: int, status: Status, u: int)
    ensures var before := RowsOf(rows, u);
            RowsOf(Updated(rows, user, status), u)
            == if u == user then seq(|before|, k requires 0 <= k < |before| => status) else before
  {
    if rows != [] {
      var init := rows[..|rows| - 1];
      UpdatedMeans(init, user, status, u);
      assert Updated(rows, user, status)[..|rows| - 1] == Updated(init, user, status);
    }
  }

  lemma AppendedMeans(rows: seq<Row>, row: Row, u: int)
    ensures RowsOf(rows + [row], u) == RowsOf(rows, u) + if row.user == u then [row.status] else []
  {
    assert (rows + [row])[..|rows|] == rows;
  }

  /** Only the user's own rows change. */
  lemma SavedMeans(rows: seq<Row>, user: int, status: Status, looked: bool, saved: bool)
    ensures var after := Saved(rows, user, status, looked, saved);
            && RowsOf(after, user) == After(RowsOf(rows, user), status, looked, saved)
            && forall u :: u != user ==> RowsOf(after, u) == RowsOf(rows, u)
  {
    HasRowIff(rows, user);
    forall u
      ensures RowsOf(Updated(rows, user, status), u)
              == (var before := RowsOf(rows, u);
                  if u == user then seq(|before|, k requires 0 <= k < |before| => status) else before)
      ensures RowsOf(rows + [Row(user, status)], u) == RowsOf(rows, u) + if u == user then [status] else []
    {
      UpdatedMeans(rows, user, status, u);
      AppendedMeans(rows, Row(user, status), u);
    }
  }

  /** What one more attempt adds to counters, rows and progress writes. */
  lemma OneAttempt(rows: seq<Row>, attempts: seq<Attempt>, i: nat, batchSize: int)
    requires i < |attempts|
    ensures var (done, more, a) := (attempts[..i], attempts[..i + 1], attempts[i]);
            && Tally(more) == Counted(Tally(done), StatusOf(a))
            && Rows(rows, more) == Saved(Rows(rows, done), a.user, StatusOf(a), a.looked, a.saved)
            && Progress(more, batchSize) == Progress(done, batchSize)
                 + if batchSize > 0 && (i + 1) % batchSize == 0 then [Tally(more)] else []
  {
    assert attempts[..i + 1][..i] == attempts[..i];
  }

  class Table {
    var rows: seq<Row>
    var progress: seq<Counters>
    var completed: Option<Counters>

    constructor ()
      ensures rows == [] && progress == [] && completed == None
    {
      rows, progress, completed := [], [], None;
    }

    /** SELECT EXISTS, its error dropped, and then UPDATE or INSERT. */
    method SaveDelivery(user: int, status: Status, looked: bool, saved: bool)
      modifies this`rows
      ensures rows == Saved(old(rows), user, status, looked, saved)
      ensures RowsOf(rows, user) == After(RowsOf(old(rows), user), status, looked, saved)
      ensures forall u :: u != user ==> RowsOf(rows, u) == RowsOf(old(rows), u)
      ensures !saved ==> rows == old(rows)
      ensures saved && looked && (exists k :: 0 <= k < |old(rows)| && old(rows)[k].user == user) ==>
                |rows| == |old(rows)| && forall k :: 0 <= k < |rows| ==>
                  rows[k] == if old(rows)[k].user == user then Row(user, status) else old(rows)[k]
      ensures saved && (!looked || forall k :: 0 <= k < |old(rows)| ==> old(rows)[k].user != user) ==>
                rows == old(rows) + [Row(user, status)]
    {
      SavedMeans(rows, user, status, looked, saved);
      var found := false;
      if looked {
        for k := 0 to |rows|
          invariant found <==> exists j :: 0 <= j < k && rows[j].user == user
        {
          if rows[k].user == user {
            found := true;
          }
        }
      }
      if saved {
        rows := if found then Updated(rows, user, status) else rows + [Row(user, status)];
      }
    }

    /** The delivery loop: counters, rows, a progress write after every batch and the completion. */
    method HandleBroadcast(attempts: seq<Attempt>, batchSize: int)
      modifies this
      ensures rows == Rows(old(rows), attempts)
      ensures progress == old(progress) + Progress(attempts, batchSize)
      ensures completed == Some(Tally(attempts)) && Sum(completed.value) == |attempts|
    {
      var c := Counters(0, 0, 0);
      for i := 0 to |attempts|
        invariant c == Tally(attempts[..i])
        invariant rows == Rows(old(rows), attempts[..i])
        invariant progress == old(progress) + Progress(attempts[..i], batchSize)
      {
        OneAttempt(old(rows), attempts, i, batchSize);
        var status, _ := Deliver(attempts[i]);
        c := Counted(c, status);
        SaveDelivery(attempts[i].user, status, attempts[i].looked, attempts[i].saved);
        if batchSize > 0 && (i + 1) % batchSize == 0 {
          progress := progress + [c];
        }
      }
      assert attempts[..|attempts|] == attempts;
      TallySums(attempts);
      completed := Some(c);
    }
  }

  // ---------------------------------------------------------------- rows and counters of a whole run

  ghost predicate Distinct(attempts: seq<Attempt>) {
    forall i, j :: 0 <= i < j < |attempts| ==> attempts[i].user != attempts[j].user
  }

  ghost predicate Recipient(attempts: seq<Attempt>, u: int) {
    exists k :: 0 <= k < |attempts| && attempts[k].user == u
  }

  lemma RecipientMore(init: seq<Attempt>, last: Attempt, u: int)
    ensures Recipient(init + [last], u) <==> Recipient(init, u) || u == last.user
  {
    var attempts := init + [last];
    assert attempts[|init|] == last;
    if Recipient(init, u) {
      var k :| 0 <= k < |init| && init[k].user == u;
      assert attempts[k].user == u;
    }
  }

  /** Nobody else's rows are touched. */
  lemma {:induction false} OtherRowsKept(rows: seq<Row>, attempts: seq<Attempt>, u: int)
    requires !Recipient(attempts, u)
    ensures RowsOf(Rows(rows, attempts), u) == RowsOf(rows, u)
  {
    if attempts != [] {
      var init, last := attempts[..|attempts| - 1], attempts[|attempts| - 1];
      assert attempts == init + [last];
      RecipientMore(init, last, u);
      OtherRowsKept(rows, init, u);
      SavedMeans(Rows(rows, init), last.user, StatusOf(last), last.looked, last.saved);
    }
  }

  lemma LastSaveKeeps(rows: seq<Row>, attempts: seq<Attempt>, u: int)
    requires attempts != [] && attempts[|attempts| - 1].user != u
    ensures RowsOf(Rows(rows, attempts), u) == RowsOf(Rows(rows, attempts[..|attempts| - 1]), u)
  {
    var last := attempts[|attempts| - 1];
    SavedMeans(Rows(rows, attempts[..|attempts| - 1]), last.user, StatusOf(last), last.looked, last.saved);
  }

  /** With distinct recipients each one's rows tell of one save only. */
  lemma {:induction false} OwnRows(rows: seq<Row>, attempts: seq<Attempt>, k: nat)
    requires Distinct(attempts) && k < |attempts|
    ensures var a := attempts[k];
            RowsOf(Rows(rows, attempts), a.user) == After(RowsOf(rows, a.user), StatusOf(a), a.looked, a.saved)
  {
    var init, last := attempts[..|attempts| - 1], attempts[|attempts| - 1];
    if k < |init| {
      assert init[k] == attempts[k];
      OwnRows(rows, init, k);
      LastSaveKeeps(rows, attempts, attempts[k].user);
    } else {
      assert !Recipient(init, last.user);
      OtherRowsKept(rows, init, last.user);
      SavedMeans(Rows(rows, init), last.user, StatusOf(last), last.looked, last.saved);
    }
  }

  /** The condition for one row: none before, or exactly one and the lookup answered; a row that was not
      written is there only if it was there before. */
  predicate KeepsOne(before: nat, a: Attempt) {
    if a.saved then before == 0 || (before == 1 && a.looked) else before == 1
  }

  /** A recipient has exactly one row after the run if and only if that holds. */
  lemma OneRowIff(rows: seq<Row>, attempts: seq<Attempt>, k: nat)
    requires Distinct(attempts) && k < |attempts|
    ensures |RowsOf(Rows(rows, attempts), attempts[k].user)| == 1
       <==> KeepsOne(|RowsOf(rows, attempts[k].user)|, attempts[k])
  {
    OwnRows(rows, attempts, k);
  }

  function Times(statuses: seq<Status>, s: Status): nat {
    if statuses == [] then 0
    else Times(statuses[..|statuses| - 1], s) + if statuses[|statuses| - 1] == s then 1 else 0
  }

  /** The rows of the recipients, by status and in all. */
  function RowCount(rows: seq<Row>, attempts: seq<Attempt>, s: Status): nat {
    if attempts == [] then 0
    else
      RowCount(rows, attempts[..|attempts| - 1], s)
      + Times(RowsOf(rows, attempts[|attempts| - 1].user), s)
  }

  function RowTotal(rows: seq<Row>, attempts: seq<Attempt>): nat {
    if attempts == [] then 0
    else RowTotal(rows, attempts[..|attempts| - 1]) + |RowsOf(rows, attempts[|attempts| - 1].user)|
  }

  lemma {:induction false} TimesSum(statuses: seq<Status>)
    ensures Times(statuses, Sent) + Times(statuses, Failed) + Times(statuses, Blocked) == |statuses|
  {
    if statuses != [] {
      TimesSum(statuses[..|statuses| - 1]);
    }
  }

  lemma {:induction false} CountsSum(rows: seq<Row>, attempts: seq<Attempt>)
    ensures RowCount(rows, attempts, Sent) + RowCount(rows, attempts, Failed) + RowCount(rows, attempts, Blocked)
         == RowTotal(rows, attempts)
  {
    if attempts != [] {
      CountsSum(rows, attempts[..|attempts| - 1]);
      TimesSum(RowsOf(rows, attempts[|attempts| - 1].user));
    }
  }

  /** Every recipient has exactly the row its attempt wrote. */
  ghost predicate OneEach(after: seq<Row>, attempts: seq<Attempt>) {
    forall k :: 0 <= k < |attempts| ==> RowsOf(after, attempts[k].user) == [StatusOf(attempts[k])]
  }

  lemma TimesOne(t: Status, s: Status)
    ensures Times([t], s) == if t == s then 1 else 0
  {
    assert [t][..0] == [];
  }

  lemma CountIs(attempts: seq<Attempt>, s: Status)
    ensures Of(Tally(attempts), s) == Count(attempts, s)
    ensures attempts != [] ==>
              Of(Tally(attempts[..|attempts| - 1]), s) == Count(attempts[..|attempts| - 1], s)
  {
  }

  lemma {:induction false} OneEachCounts(after: seq<Row>, attempts: seq<Attempt>, s: Status)
    requires OneEach(after, attempts)
    ensures RowCount(after, attempts, s) == Of(Tally(attempts), s)
  {
    if attempts != [] {
      var init, last := attempts[..|attempts| - 1], attempts[|attempts| - 1];
      assert forall k :: 0 <= k < |init| ==> init[k] == attempts[k];
      OneEachCounts(after, init, s);
      assert attempts[|init|] == last;
      TimesOne(StatusOf(last), s);
    }
    CountIs(attempts, s);
  }

  /** Where every recipient has a row, the total is the number of recipients only with one row each. */
  lemma {:induction false} TotalBounds(after: seq<Row>, attempts: seq<Attempt>)
    requires forall k :: 0 <= k < |attempts| ==> RowsOf(after, attempts[k].user) != []
    ensures RowTotal(after, attempts) >= |attempts|
    ensures RowTotal(after, attempts) == |attempts|
       <==> forall k :: 0 <= k < |attempts| ==> |RowsOf(after, attempts[k].user)| == 1
  {
    if attempts != [] {
      var init, last := attempts[..|attempts| - 1], attempts[|attempts| - 1];
      assert forall k :: 0 <= k < |init| ==> init[k] == attempts[k];
      TotalBounds(after, init);
      assert attempts[|init|] == last;
    }
  }

  /** No recipient had two rows, and no lookup failed for a recipient who had one. */
  ghost predicate LookupsHeld(rows: seq<Row>, attempts: seq<Attempt>) {
    forall k :: 0 <= k < |attempts| ==> KeepsOne(|RowsOf(rows, attempts[k].user)|, attempts[k])
  }

  ghost predicate CountersMatch(after: seq<Row>, attempts: seq<Attempt>) {
    forall s :: RowCount(after, attempts, s) == Of(Tally(attempts), s)
  }

  lemma SavedRows(rows: seq<Row>, attempts: seq<Attempt>, k: nat)
    requires Distinct(attempts) && k < |attempts| && attempts[k].saved
    ensures var mine := RowsOf(Rows(rows, attempts), attempts[k].user);
            mine != [] && (|mine| == 1 ==> mine == [StatusOf(attempts[k])])
  {
    OwnRows(rows, attempts, k);
  }

  /** For distinct recipients whose rows were all written: every recipient has exactly the row of this run if
      and only if none had two rows before and no lookup failed for one who had a row. */
  lemma OneRowEachIff(rows: seq<Row>, attempts: seq<Attempt>)
    requires Distinct(attempts) && forall k :: 0 <= k < |attempts| ==> attempts[k].saved
    ensures OneEach(Rows(rows, attempts), attempts) <==> LookupsHeld(rows, attempts)
  {
    forall k | 0 <= k < |attempts|
      ensures RowsOf(Rows(rows, attempts), attempts[k].user) == [StatusOf(attempts[k])]
         <==> KeepsOne(|RowsOf(rows, attempts[k].user)|, attempts[k])
    {
      OneRowIff(rows, attempts, k);
      SavedRows(rows, attempts, k);
    }
  }

  lemma MatchMeansOne(rows: seq<Row>, attempts: seq<Attempt>)
    requires Distinct(attempts) && forall k :: 0 <= k < |attempts| ==> attempts[k].saved
    requires CountersMatch(Rows(rows, attempts), attempts)
    ensures OneEach(Rows(rows, attempts), attempts)
  {
    var after := Rows(rows, attempts);
    CountsSum(after, attempts);
    TallySums(attempts);
    assert RowCount(after, attempts, Sent) == Of(Tally(attempts), Sent);
    assert RowCount(after, attempts, Failed) == Of(Tally(attempts), Failed);
    assert RowCount(after, attempts, Blocked) == Of(Tally(attempts), Blocked);
    forall k | 0 <= k < |attempts|
      ensures RowsOf(after, attempts[k].user) != []
    {
      SavedRows(rows, attempts, k);
    }
    TotalBounds(after, attempts);
    forall k | 0 <= k < |attempts|
      ensures RowsOf(after, attempts[k].user) == [StatusOf(attempts[k])]
    {
      SavedRows(rows, attempts, k);
    }
  }

  /** And that is exactly when the rows of every status are as many as its counter says. */
  lemma RowsMatchCounters(rows: seq<Row>, attempts: seq<Attempt>)
    requires Distinct(attempts) && forall k :: 0 <= k < |attempts| ==> attempts[k].saved
    ensures CountersMatch(Rows(rows, attempts), attempts) <==> LookupsHeld(rows, attempts)
  {
    var after := Rows(rows, attempts);
    OneRowEachIff(rows, attempts);
    if OneEach(after, attempts) {
      forall s
        ensures RowCount(after, attempts, s) == Of(Tally(attempts), s)
      {
        OneEachCounts(after, attempts, s);
      }
    }
    if CountersMatch(after, attempts) {
      MatchMeansOne(rows, attempts);
    }
  }

  /** The first run over distinct recipients always satisfies it, whatever the lookups answer. */
  lemma FirstRunMatches(attempts: seq<Attempt>)
    requires Distinct(attempts) && forall k :: 0 <= k < |attempts| ==> attempts[k].saved
    ensures OneEach(Rows([], attempts), attempts) && CountersMatch(Rows([], attempts), attempts)
  {
    OneRowEachIff([], attempts);
    RowsMatchCounters([], attempts);
  }

  /** A rerun over recipients of a first run leaves one row each, with the rerun's status, if and only if none of
      its lookups failed. */
  lemma RerunReplacesIff(earlier: seq<Attempt>, attempts: seq<Attempt>)
    requires Distinct(earlier) && forall k :: 0 <= k < |earlier| ==> earlier[k].saved
    requires Distinct(attempts) && forall k :: 0 <= k < |attempts| ==> attempts[k].saved
    requires forall k :: 0 <= k < |attempts| ==> Recipient(earlier, attempts[k].user)
    ensures var after := Rows(Rows([], earlier), attempts);
            (OneEach(after, attempts) && CountersMatch(after, attempts))
              <==> forall k :: 0 <= k < |attempts| ==> attempts[k].looked
  {
    FirstRunMatches(earlier);
    var rows := Rows([], earlier);
    forall k | 0 <= k < |attempts|
      ensures |RowsOf(rows, attempts[k].user)| == 1
    {
      assert Recipient(earlier, attempts[k].user);
      var j :| 0 <= j < |earlier| && earlier[j].user == attempts[k].user;
      assert RowsOf(rows, earlier[j].user) == [StatusOf(earlier[j])];
    }
    assert LookupsHeld(rows, attempts) <==> forall k :: 0 <= k < |attempts| ==> attempts[k].looked;
    OneRowEachIff(rows, attempts);
    RowsMatchCounters(rows, attempts);
  }

  /** A recipient who has a row, a lookup that fails and an insert that works: two rows. */
  lemma FailedLookupDuplicates(user: int, first: Answer, second: Answer, status: Status)
    ensures var a := Attempt(user, first, second, false, true);
            RowsOf(Rows([Row(user, status)], [a]), user) == [status, StatusOf(a)]
  {
    var a := Attempt(user, first, second, false, true);
    assert [a][..0] == [] && Rows([Row(user, status)], [a]) == [Row(user, status)] + [Row(user, StatusOf(a))];
    assert [Row(user, status)][..0] == [];
    AppendedMeans([Row(user, status)], Row(user, StatusOf(a)), user);
  }
}
