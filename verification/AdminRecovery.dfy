/** The operator's second factor, its lockout, and the refund request run from end to end. */
module AdminRecovery {
  import opened Base
  import opened Ledger
  import N = NumberOrders
  import M = MoneyRuns

  // ---------------------------------------------------------------------
  // Lockout
  // ---------------------------------------------------------------------

  const WINDOW: int := 15 * 60 * 1000
  const LOCK_AT: nat := 5

  function Recent(stamps: seq<int>, now: int): (r: seq<int>) {
    if stamps == [] then []
    else
      var last := stamps[|stamps| - 1];
      Recent(stamps[..|stamps| - 1], now) + (if now - last < WINDOW then [last] else [])
  }

  /** How many of the stamps are less than fifteen minutes old. */
  ghost function FreshStamps(stamps: seq<int>, now: int): nat {
    |FreshAt(stamps, now)|
  }

  ghost function FreshAt(stamps: seq<int>, now: int): set<int> {
    set i | 0 <= i < |stamps| && now - stamps[i] < 15 * 60 * 1000
  }

  lemma {:induction false} PruningKeepsTheFresh(stamps: seq<int>, now: int)
    ensures |Recent(stamps, now)| == FreshStamps(stamps, now)
    ensures forall x :: x in Recent(stamps, now) <==> x in stamps && now - x < 15 * 60 * 1000
  {
    if stamps != [] {
      var n := |stamps| - 1;
      PruningKeepsTheFresh(stamps[..n], now);
      assert stamps == stamps[..n] + [stamps[n]];
      if now - stamps[n] < 15 * 60 * 1000 {
        assert FreshAt(stamps, now) == FreshAt(stamps[..n], now) + {n};
      } else {
        assert FreshAt(stamps, now) == FreshAt(stamps[..n], now);
      }
    }
  }

  datatype Operator = Unknown | Disabled | Enrolled

  datatype Login = Locked | BadCode | OperatorDisabled | SignedIn

  /** What one attempt answers once the list has been pruned at the check. */
  function Judge(pruned: seq<int>, who: Operator, codeOk: bool): Login {
    if |pruned| >= LOCK_AT then Locked
    else match who
      case Unknown => BadCode
      case Disabled => OperatorDisabled
      case Enrolled => if codeOk then SignedIn else BadCode
  }

  /** The list an attempt leaves behind: pruned, then extended by a failure or cleared by a success. */
  function After(pruned: seq<int>, login: Login, at: int): seq<int> {
    match login
    case BadCode => pruned + [at]
    case SignedIn => []
    case _ => pruned
  }

  class Lockouts {
    var stamps: map<string, seq<int>>

    constructor ()
      ensures stamps == map[]
    {
      stamps := map[];
    }

    function For(email: string): seq<int>
      reads this
    {
      if Lower(email) in stamps then stamps[Lower(email)] else []
    }

    /** Prune the list in place, then look at what is left. */
    method TotpIsLocked(email: string, now: int) returns (locked: bool)
      modifies this
      ensures For(email) == Recent(old(For(email)), now)
      ensures locked <==> |For(email)| >= LOCK_AT
      ensures forall e :: Lower(e) != Lower(email) ==> For(e) == old(For(e))
    {
      var all := For(email);
      var kept := [];
      var i := 0;
      while i < |all|
        invariant 0 <= i <= |all|
        invariant kept == Recent(all[..i], now)
      {
        assert all[..i + 1][..i] == all[..i];
        if now - all[i] < WINDOW {
          kept := kept + [all[i]];
        }
        i := i + 1;
      }
      assert all[..i] == all;
      stamps := stamps[Lower(email) := kept];
      return |kept| >= LOCK_AT;
    }

    method RecordTotpFailure(email: string, now: int)
      modifies this
      ensures For(email) == old(For(email)) + [now]
      ensures forall e :: Lower(e) != Lower(email) ==> For(e) == old(For(e))
    {
      stamps := stamps[Lower(email) := For(email) + [now]];
    }

    method ClearTotpFailures(email: string)
      modifies this
      ensures For(email) == []
      ensures forall e :: Lower(e) != Lower(email) ==> For(e) == old(For(e))
    {
      stamps := stamps - {Lower(email)};
    }

    /** The check happens at one instant and a failure is stamped at a later one. */
    method CreateSession(email: string, who: Operator, codeOk: bool, checkAt: int, recordAt: int) returns (login: Login)
      modifies this
      ensures login == Locked <==> FreshStamps(old(For(email)), checkAt) >= 5
      ensures login == OperatorDisabled <==> FreshStamps(old(For(email)), checkAt) < 5 && who == Disabled
      ensures login == SignedIn <==> FreshStamps(old(For(email)), checkAt) < 5 && who == Enrolled && codeOk
      ensures login == BadCode <==>
        FreshStamps(old(For(email)), checkAt) < 5 && (who == Unknown || (who == Enrolled && !codeOk))
      ensures login == SignedIn ==> For(email) == []
      ensures login == BadCode ==>
        |For(email)| == FreshStamps(old(For(email)), checkAt) + 1 && For(email)[|For(email)| - 1] == recordAt
      ensures login == Locked || login == OperatorDisabled ==>
        |For(email)| == FreshStamps(old(For(email)), checkAt)
        && forall x :: x in For(email) <==> x in old(For(email)) && checkAt - x < 15 * 60 * 1000
      ensures login == Judge(Recent(old(For(email)), checkAt), who, codeOk)
      ensures For(email) == After(Recent(old(For(email)), checkAt), login, recordAt)
      ensures forall e :: Lower(e) != Lower(email) ==> For(e) == old(For(e))
    {
      PruningKeepsTheFresh(For(email), checkAt);
      var locked := TotpIsLocked(email, checkAt);
      if locked {
        return Locked;
      }
      match who {
        case Unknown =>
          RecordTotpFailure(email, recordAt);
          return BadCode;
        case Disabled =>
          return OperatorDisabled;
        case Enrolled =>
          if codeOk {
            ClearTotpFailures(email);
            return SignedIn;
          }
          RecordTotpFailure(email, recordAt);
          return BadCode;
      }
    }
  }

  // ---------------------------------------------------------------------
  // Attempts for one email, one at a time
  // ---------------------------------------------------------------------

  datatype Attempt = Attempt(who: Operator, codeOk: bool, checkAt: int, recordAt: int)

  /** The stored list, and every failure recorded since the last success. */
  datatype Record = Record(stamps: seq<int>, failures: seq<int>, clock: int)

  function Try(r: Record, a: Attempt): Record {
    var pruned := Recent(r.stamps, a.checkAt);
    var login := Judge(pruned, a.who, a.codeOk);
    Record(After(pruned, login, a.recordAt), After(r.failures, login, a.recordAt), a.recordAt)
  }

  function Attempts(r: Record, attempts: seq<Attempt>): Record {
    if attempts == [] then r
    else Try(Attempts(r, attempts[..|attempts| - 1]), attempts[|attempts| - 1])
  }

  /** Each attempt checks no earlier than the one before recorded, and records no earlier than it checked. */
  ghost predicate InOrder(clock: int, attempts: seq<Attempt>) {
    && (forall i :: 0 <= i < |attempts| ==> attempts[i].checkAt <= attempts[i].recordAt)
    && (forall i :: 0 <= i < |attempts| - 1 ==> attempts[i].recordAt <= attempts[i + 1].checkAt)
    && (attempts != [] ==> clock <= attempts[0].checkAt)
  }

  ghost predicate Sorted(s: seq<int>) {
    forall i, k :: 0 <= i <= k < |s| ==> s[i] <= s[k]
  }

  /** The stored list is the tail of the history; what was dropped is out of every later window. */
  ghost predicate RecordOk(r: Record) {
    && Sorted(r.failures) && |r.stamps| <= LOCK_AT && |r.stamps| <= |r.failures|
    && r.stamps == r.failures[|r.failures| - |r.stamps|..]
    && (forall i :: 0 <= i < |r.failures| ==> r.failures[i] <= r.clock)
    && (forall i :: 0 <= i < |r.failures| - |r.stamps| ==> r.clock - r.failures[i] >= WINDOW)
    && (forall i :: 0 <= i < |r.failures| - LOCK_AT ==> r.failures[i + LOCK_AT] - r.failures[i] >= WINDOW)
  }

  lemma SuffixPush(front: seq<int>, last: int, cut: nat)
    requires cut <= |front|
    ensures (front + [last])[cut..] == front[cut..] + [last]
  {
  }

  lemma {:induction false} RecentPush(front: seq<int>, last: int, now: int)
    ensures Recent(front + [last], now) == Recent(front, now) + if now - last < WINDOW then [last] else []
  {
    assert (front + [last])[..|front|] == front;
  }

  /** Pruning a sorted list drops a prefix. */
  lemma {:induction false} RecentIsSuffix(s: seq<int>, now: int) returns (cut: nat)
    requires Sorted(s)
    ensures cut <= |s| && Recent(s, now) == s[cut..]
    ensures forall i :: 0 <= i < cut ==> now - s[i] >= WINDOW
    ensures forall i :: cut <= i < |s| ==> now - s[i] < WINDOW
  {
    if s == [] {
      cut := 0;
    } else {
      var front, last := s[..|s| - 1], s[|s| - 1];
      assert s == front + [last];
      if now - last < WINDOW {
        cut := RecentIsSuffix(front, now);
        RecentPush(front, last, now);
        SuffixPush(front, last, cut);
      } else {
        assert forall i :: 0 <= i < |s| ==> s[i] <= last;
        AllOld(s, now);
        cut := |s|;
      }
    }
  }

  lemma {:induction false} RecentConcat(a: seq<int>, b: seq<int>, now: int)
    ensures Recent(a + b, now) == Recent(a, now) + Recent(b, now)
  {
    if b == [] {
      assert a + b == a;
    } else {
      var n := |b| - 1;
      assert (a + b)[..|a| + n] == a + b[..n];
      RecentConcat(a, b[..n], now);
    }
  }

  lemma {:induction false} AllOld(s: seq<int>, now: int)
    requires forall i :: 0 <= i < |s| ==> now - s[i] >= WINDOW
    ensures Recent(s, now) == []
  {
    if s != [] {
      AllOld(s[..|s| - 1], now);
    }
  }

  /** Pruning the stored list gives what pruning the whole history would. */
  lemma {:induction false} PrunedListIsPrunedHistory(r: Record, now: int)
    requires RecordOk(r) && r.clock <= now
    ensures Recent(r.stamps, now) == Recent(r.failures, now)
  {
    var dropped := r.failures[..|r.failures| - |r.stamps|];
    assert r.failures == dropped + r.stamps;
    AllOld(dropped, now);
    RecentConcat(dropped, r.stamps, now);
  }

  lemma {:induction false} PruneKeeps(r: Record, now: int)
    requires RecordOk(r) && r.clock <= now
    ensures RecordOk(Record(Recent(r.stamps, now), r.failures, now))
  {
    PrunedListIsPrunedHistory(r, now);
    var cut := RecentIsSuffix(r.failures, now);
    RecentNoLonger(r.stamps, now);
    assert |r.failures| - |Recent(r.stamps, now)| == cut;
  }

  lemma {:induction false} RecentNoLonger(s: seq<int>, now: int)
    ensures |Recent(s, now)| <= |s|
  {
    if s != [] {
      RecentNoLonger(s[..|s| - 1], now);
    }
  }

  lemma PushIsSorted(s: seq<int>, at: int, clock: int)
    requires Sorted(s) && clock <= at && forall i :: 0 <= i < |s| ==> s[i] <= clock
    ensures Sorted(s + [at])
  {
  }

  /** A failure recorded while the list was short: the failure five before it has left the window. */
  lemma {:induction false} PushKeeps(r: Record, at: int)
    requires RecordOk(r) && |r.stamps| < LOCK_AT && r.clock <= at
    ensures RecordOk(Record(r.stamps + [at], r.failures + [at], at))
  {
    PushIsSorted(r.failures, at, r.clock);
    var n := |r.failures| - |r.stamps|;
    assert (r.failures + [at])[n..] == r.failures[n..] + [at];
  }

  lemma {:induction false} TryKeeps(r: Record, a: Attempt)
    requires RecordOk(r) && r.clock <= a.checkAt <= a.recordAt
    ensures RecordOk(Try(r, a))
  {
    PruneKeeps(r, a.checkAt);
    var pruned := Record(Recent(r.stamps, a.checkAt), r.failures, a.checkAt);
    if Judge(pruned.stamps, a.who, a.codeOk) == BadCode {
      PushKeeps(pruned, a.recordAt);
    }
  }

  /**
   After any attempts in order: pruning the stored list at any later instant gives
   the failures of the last fifteen minutes since the last success, the list holds
   at most five, and among those failures no sixth falls within fifteen minutes of
   the one five before it.
   */
  lemma {:induction false} LockoutRemembersTheWindow(attempts: seq<Attempt>, now: int, start: int)
    requires InOrder(start, attempts) && Attempts(Record([], [], start), attempts).clock <= now
    ensures var r := Attempts(Record([], [], start), attempts);
      && Recent(r.stamps, now) == Recent(r.failures, now)
      && |r.stamps| <= LOCK_AT
      && (forall i :: 0 <= i < |r.failures| - LOCK_AT ==> r.failures[i + LOCK_AT] - r.failures[i] >= WINDOW)
  {
    var r := Attempts(Record([], [], start), attempts);
    AttemptsKeep(attempts, start);
    assert RecordOk(r);
    PrunedListIsPrunedHistory(r, now);
  }

  lemma {:induction false} AttemptsKeep(attempts: seq<Attempt>, start: int)
    requires InOrder(start, attempts)
    ensures var r := Attempts(Record([], [], start), attempts);
            RecordOk(r) && r.clock == if attempts == [] then start else attempts[|attempts| - 1].recordAt
  {
    if attempts != [] {
      var n := |attempts| - 1;
      AttemptsKeep(attempts[..n], start);
      TryKeeps(Attempts(Record([], [], start), attempts[..n]), attempts[n]);
    }
  }

  // ---------------------------------------------------------------------
  // A refund request, undisturbed
  // ---------------------------------------------------------------------

  datatype RefundReply =
    | Replayed(journal: Option<nat>) | Refunded(journal: Option<nat>)
    | NotFound | Conflict | OverCap | ClaimConflict

  class RefundDesk {
    var book: Book
    var orders: seq<N.Order>
    var audits: seq<M.RefundAudit>

    constructor ()
      ensures book == [] && orders == [] && audits == []
    {
      book, orders, audits := [], [], [];
    }

    function Desk(): N.Desk
      reads this
    {
      N.Desk(book, orders)
    }

    /** Replay, or check, claim, refund and audit, with nobody in between. */
    method RefundOrder(id: nat, key: Uuid, cap: Naira, token: Uuid, now: int) returns (r: RefundReply)
      modifies this
      ensures !r.Refunded? ==> Desk() == old(Desk()) && audits == old(audits)
      ensures r.Replayed? <==> id < |old(orders)| && M.Audited(old(audits), id, key)
      ensures r.Replayed? ==> r.journal == orders[id].refunded
      ensures r.NotFound? <==> id >= |old(orders)|
      ensures !r.Replayed? && !r.NotFound? ==>
        var o := old(orders)[id];
        if o.refunded.Some? || !o.status.Held() then r == Conflict
        else if o.price > cap then r == OverCap
        else if o.claim.Some? && o.claim.value.until >= now then r == ClaimConflict
        else r.Refunded?
      ensures r.Refunded? ==>
        && N.RefundMove(old(Desk()), Desk(), id)
        && orders[id].status == N.Cancelled && r.journal == orders[id].refunded
        && audits == old(audits) + [M.RefundAudit(id, key, r.journal)]
    {
      if id >= |orders| {
        return NotFound;
      }
      if M.Audited(audits, id, key) {
        return Replayed(orders[id].refunded);
      }
      var row := orders[id];
      if row.refunded.Some? || !row.status.Held() {
        return Conflict;
      }
      if row.price > cap {
        return OverCap;
      }
      if !N.CanClaimHeld(row, now) {
        return ClaimConflict;
      }
      ghost var before := Desk();
      var granted := N.Grant(row, token, now);
      orders := orders[id := granted];
      assert Desk() == N.Put(before, id, granted);
      assert "operator"[0] == 'o';
      var moved := N.Apply(Desk(), id, Some(token), M.GIVE_BACK, now);
      N.RefundAfterNote(before, id, granted, N.Cancelled);
      book, orders := moved.desk.book, moved.desk.orders;
      audits := audits + [M.RefundAudit(id, key, orders[id].refunded)];
      return Refunded(orders[id].refunded);
    }
  }
}
