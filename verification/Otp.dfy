/**
 One-time codes: a cooldown on the destination, one live challenge at a time, and
 a bounded number of guesses at each. Instants are milliseconds.
 */
module Otp {
  import opened Base

  const COOLDOWN_SECONDS: int := 60
  const TTL_MS: int := 10 * 60 * 1000
  const MAX_ATTEMPTS: nat := 5

  /** A row of `otp_challenges`. `code` stands for its hash: a guess matches it or does not. */
  datatype Challenge = Challenge(
    id: nat, code: string, expiresAt: int, attempts: nat, consumedAt: Option<int>, lastSentAt: int)

  datatype OtpError =
    | AlreadyUsed | Expired | TooManyAttempts | Incorrect(remaining: nat)
    | Throttled(retryAfter: int) | SendFailed | Conflict

  /** Whole seconds in a duration, rounded toward zero. */
  function Seconds(ms: int): int {
    if ms >= 0 then ms / 1000 else -((-ms) / 1000)
  }

  datatype Checked = Checked(challenge: Challenge, error: Option<OtpError>)

  /** State checks come before the comparison; the attempt is counted before the guess is looked at. */
  function Verify(c: Challenge, guess: string, now: int): Checked {
    if c.consumedAt.Some? then Checked(c, Some(AlreadyUsed))
    else if now > c.expiresAt then Checked(c, Some(Expired))
    else if c.attempts >= MAX_ATTEMPTS then Checked(c, Some(TooManyAttempts))
    else
      var counted := c.(attempts := c.attempts + 1);
      if guess == c.code then Checked(counted.(consumedAt := Some(now)), None)
      else Checked(counted, Some(Incorrect(MAX_ATTEMPTS - counted.attempts)))
  }

  // ---------------------------------------------------------------------
  // One destination's rows
  // ---------------------------------------------------------------------

  function LastSent(rows: seq<Challenge>): (r: Option<int>)
    ensures r.None? <==> rows == []
    ensures r.Some? ==> forall i :: 0 <= i < |rows| ==> rows[i].lastSentAt <= r.value
  {
    if rows == [] then None
    else
      var rest := LastSent(rows[..|rows| - 1]);
      var last := rows[|rows| - 1].lastSentAt;
      if rest.Some? && rest.value > last then rest else Some(last)
  }

  function LiveAt(rows: seq<Challenge>): (r: Option<nat>)
    ensures r.Some? ==> r.value < |rows| && rows[r.value].consumedAt.None?
    ensures r.None? ==> forall i :: 0 <= i < |rows| ==> rows[i].consumedAt.Some?
  {
    if rows == [] then None
    else if rows[|rows| - 1].consumedAt.None? then Some(|rows| - 1)
    else LiveAt(rows[..|rows| - 1])
  }

  /** The rows a new request keeps: the used ones. */
  function Used(rows: seq<Challenge>): seq<Challenge> {
    if rows == [] then []
    else
      var last := rows[|rows| - 1];
      Used(rows[..|rows| - 1]) + (if last.consumedAt.Some? then [last] else [])
  }

  datatype Requested = Requested(rows: seq<Challenge>, error: Option<OtpError>)

  /** The send happens before the commit, so a failed delivery leaves no trace. */
  function Request(rows: seq<Challenge>, id: nat, code: string, delivered: bool, now: int): Requested {
    var last := LastSent(rows);
    if last.Some? && Seconds(now - last.value) < COOLDOWN_SECONDS
    then Requested(rows, Some(Throttled(COOLDOWN_SECONDS - Seconds(now - last.value))))
    else if !delivered then Requested(rows, Some(SendFailed))
    else Requested(Used(rows) + [Challenge(id, code, now + TTL_MS, 0, None, now)], None)
  }

  datatype Guessed = Guessed(rows: seq<Challenge>, id: Option<nat>, error: Option<OtpError>)

  /**
   The attempt is stored whatever the outcome. If the code was right but the sign-in
   then stops at an identity conflict, the transaction is abandoned and even the
   attempt is forgotten.
   */
  function Guess(rows: seq<Challenge>, guess: string, conflict: bool, now: int): Guessed {
    match LiveAt(rows)
    case None => Guessed(rows, None, Some(Expired))
    case Some(i) =>
      var c := Verify(rows[i], guess, now);
      if c.error.None? && conflict then Guessed(rows, Some(rows[i].id), Some(Conflict))
      else Guessed(rows[i := c.challenge], Some(rows[i].id), c.error)
  }

  // ---------------------------------------------------------------------
  // Every destination, and what happened there
  // ---------------------------------------------------------------------

  /**
   One destination: its rows, how many challenges it was ever issued (which numbers
   them), when the committed sends happened, how many wrong guesses were counted,
   and which challenges were used to sign in.
   */
  datatype Box = Box(rows: seq<Challenge>, issued: nat, sends: seq<int>, wrongs: nat, rights: seq<nat>)

  const EMPTY_BOX: Box := Box([], 0, [], 0, [])

  datatype Step =
    | DoRequest(destination: string, code: string, delivered: bool, now: int)
    | DoGuess(destination: string, guess: string, conflict: bool, now: int)

  function BoxNext(b: Box, s: Step): Box {
    match s
    case DoRequest(_, code, delivered, now) =>
      var r := Request(b.rows, b.issued, code, delivered, now);
      if r.error.Some? then b else b.(rows := r.rows, issued := b.issued + 1, sends := b.sends + [now])
    case DoGuess(_, guess, conflict, now) =>
      var g := Guess(b.rows, guess, conflict, now);
      var after := b.(rows := g.rows);
      if g.id.Some? && g.error.None? then after.(rights := b.rights + [g.id.value])
      else if g.id.Some? && g.error.value.Incorrect? then after.(wrongs := b.wrongs + 1)
      else after
  }

  type World = map<string, Box>

  function At(w: World, d: string): Box {
    if d in w then w[d] else EMPTY_BOX
  }

  function Next(w: World, s: Step): World {
    w[s.destination := BoxNext(At(w, s.destination), s)]
  }

  function Run(w: World, steps: seq<Step>): World {
    if steps == [] then w else Next(Run(w, steps[..|steps| - 1]), steps[|steps| - 1])
  }

  // ---------------------------------------------------------------------
  // The invariant
  // ---------------------------------------------------------------------

  /** Every row but the newest is used. */
  ghost predicate OneLive(rows: seq<Challenge>) {
    forall i :: 0 <= i < |rows| - 1 ==> rows[i].consumedAt.Some?
  }

  ghost predicate Ordered(rows: seq<Challenge>, issued: nat) {
    && (forall i :: 0 <= i < |rows| ==> rows[i].attempts <= MAX_ATTEMPTS && rows[i].id < issued)
    && (forall i, k :: 0 <= i < k < |rows| ==> rows[i].id < rows[k].id && rows[i].lastSentAt <= rows[k].lastSentAt)
  }

  ghost predicate Spaced(sends: seq<int>) {
    forall i :: 0 <= i < |sends| - 1 ==> sends[i + 1] - sends[i] >= COOLDOWN_SECONDS * 1000
  }

  /** The newest row is the last send. */
  ghost predicate NewestIsLast(rows: seq<Challenge>, sends: seq<int>) {
    && (rows == [] <==> sends == [])
    && (rows != [] ==> rows[|rows| - 1].lastSentAt == sends[|sends| - 1])
  }

  function Unspent(rows: seq<Challenge>): int {
    if rows == [] then 0 else MAX_ATTEMPTS - rows[|rows| - 1].attempts
  }

  /** A challenge used to sign in is marked used, and was used once. */
  ghost predicate RightsOk(b: Box) {
    && (forall i :: 0 <= i < |b.rights| ==> b.rights[i] < b.issued)
    && (forall i, k :: 0 <= i < |b.rights| && 0 <= k < |b.rows| && b.rows[k].id == b.rights[i] ==>
          b.rows[k].consumedAt.Some?)
    && (forall i, k :: 0 <= i < k < |b.rights| ==> b.rights[i] != b.rights[k])
  }

  ghost predicate BoxOk(b: Box) {
    && OneLive(b.rows) && Ordered(b.rows, b.issued)
    && NewestIsLast(b.rows, b.sends) && Spaced(b.sends)
    && b.issued == |b.sends| && b.wrongs + Unspent(b.rows) <= MAX_ATTEMPTS * |b.sends|
    && RightsOk(b)
  }

  // ---------------------------------------------------------------------
  // Keeping it
  // ---------------------------------------------------------------------

  /** A new request drops the newest row if it was never used, and nothing else. */
  lemma {:induction false} UsedOfOneLive(rows: seq<Challenge>)
    requires OneLive(rows)
    ensures Used(rows) == if rows != [] && rows[|rows| - 1].consumedAt.None? then rows[..|rows| - 1] else rows
  {
    if rows != [] {
      var front := rows[..|rows| - 1];
      AllUsed(front);
      assert front + [] == front && rows == front + [rows[|rows| - 1]];
    }
  }

  lemma {:induction false} AllUsed(rows: seq<Challenge>)
    requires forall i :: 0 <= i < |rows| ==> rows[i].consumedAt.Some?
    ensures Used(rows) == rows
  {
    if rows != [] {
      AllUsed(rows[..|rows| - 1]);
      assert rows == rows[..|rows| - 1] + [rows[|rows| - 1]];
    }
  }

  lemma {:induction false} LastSentIsSome(rows: seq<Challenge>)
    requires rows != []
    ensures exists i :: 0 <= i < |rows| && LastSent(rows) == Some(rows[i].lastSentAt)
  {
    if |rows| > 1 {
      var front := rows[..|rows| - 1];
      LastSentIsSome(front);
      var k :| 0 <= k < |front| && LastSent(front) == Some(front[k].lastSentAt);
      assert front[k] == rows[k];
    }
    assert LastSent(rows) == Some(rows[|rows| - 1].lastSentAt) || LastSent(rows) == LastSent(rows[..|rows| - 1]);
  }

  lemma LastSentIsLast(rows: seq<Challenge>, issued: nat)
    requires rows != [] && Ordered(rows, issued)
    ensures LastSent(rows) == Some(rows[|rows| - 1].lastSentAt)
  {
    LastSentIsSome(rows);
  }

  lemma {:induction false} RequestKeeps(b: Box, s: Step)
    requires BoxOk(b) && s.DoRequest?
    ensures BoxOk(BoxNext(b, s))
  {
    var after := BoxNext(b, s);
    if after != b {
      var newest := Challenge(b.issued, s.code, s.now + TTL_MS, 0, None, s.now);
      RequestIs(b, s, newest);
      UsedOfOneLive(b.rows);
      if b.rows != [] {
        CooldownHeld(b, s);
      }
      Replaced(b, after, Used(b.rows), newest);
    }
  }

  lemma RequestIs(b: Box, s: Step, newest: Challenge)
    requires s.DoRequest? && BoxNext(b, s) != b
    requires newest == Challenge(b.issued, s.code, s.now + TTL_MS, 0, None, s.now)
    ensures BoxNext(b, s) == b.(rows := Used(b.rows) + [newest], issued := b.issued + 1, sends := b.sends + [s.now])
  {
  }

  lemma {:induction false} Replaced(b: Box, after: Box, kept: seq<Challenge>, newest: Challenge)
    requires BoxOk(b) && kept <= b.rows && (forall i :: 0 <= i < |kept| ==> kept[i].consumedAt.Some?)
    requires newest.id == b.issued && newest.attempts == 0
    requires b.sends != [] ==> newest.lastSentAt - b.sends[|b.sends| - 1] >= COOLDOWN_SECONDS * 1000
    requires after == b.(rows := kept + [newest], issued := b.issued + 1, sends := b.sends + [newest.lastSentAt])
    ensures BoxOk(after)
  {
    if kept != [] { assert kept[|kept| - 1] == b.rows[|kept| - 1]; }
    OrderedSnoc(kept, newest, b.issued);
    SpacedSnoc(b.sends, newest.lastSentAt);
    RightsAfterRequest(b, after, kept, newest);
    UnspentIsSome(b.rows, b.issued);
  }

  lemma UnspentIsSome(rows: seq<Challenge>, issued: nat)
    requires Ordered(rows, issued)
    ensures Unspent(rows) >= 0
  {
  }

  /** A request that was not refused comes a whole cooldown after the last send. */
  lemma CooldownHeld(b: Box, s: Step)
    requires Ordered(b.rows, b.issued) && NewestIsLast(b.rows, b.sends) && s.DoRequest? && BoxNext(b, s) != b
    requires b.rows != []
    ensures s.now - b.sends[|b.sends| - 1] >= COOLDOWN_SECONDS * 1000
  {
    LastSentIsLast(b.rows, b.issued);
  }

  lemma OrderedSnoc(kept: seq<Challenge>, newest: Challenge, issued: nat)
    requires Ordered(kept, issued) && newest.id == issued && newest.attempts == 0
    requires kept != [] ==> kept[|kept| - 1].lastSentAt <= newest.lastSentAt
    ensures Ordered(kept + [newest], issued + 1)
  {
  }

  lemma SpacedSnoc(sends: seq<int>, now: int)
    requires Spaced(sends) && (sends != [] ==> now - sends[|sends| - 1] >= COOLDOWN_SECONDS * 1000)
    ensures Spaced(sends + [now])
  {
  }

  lemma RightsAfterRequest(b: Box, after: Box, kept: seq<Challenge>, newest: Challenge)
    requires RightsOk(b) && kept <= b.rows && newest.id == b.issued
    requires after.rows == kept + [newest] && after.rights == b.rights && after.issued == b.issued + 1
    ensures RightsOk(after)
  {
  }

  lemma {:induction false} GuessKeeps(b: Box, s: Step)
    requires BoxOk(b) && s.DoGuess?
    ensures BoxOk(BoxNext(b, s))
  {
    match LiveAt(b.rows)
    case None =>
    case Some(i) =>
      assert i == |b.rows| - 1;
      RightsAfterGuess(b, s, i);
      NewestReplaced(b.rows, b.issued, b.sends, Verify(b.rows[i], s.guess, s.now).challenge);
      assert b.rows[i := b.rows[i]] == b.rows;
  }

  lemma NewestReplaced(rows: seq<Challenge>, issued: nat, sends: seq<int>, c: Challenge)
    requires rows != [] && OneLive(rows) && Ordered(rows, issued) && NewestIsLast(rows, sends)
    requires c.id == rows[|rows| - 1].id && c.lastSentAt == rows[|rows| - 1].lastSentAt && c.attempts <= MAX_ATTEMPTS
    ensures var after := rows[|rows| - 1 := c]; OneLive(after) && Ordered(after, issued) && NewestIsLast(after, sends)
  {
  }

  lemma RightsAfterGuess(b: Box, s: Step, i: nat)
    requires RightsOk(b) && Ordered(b.rows, b.issued) && s.DoGuess? && LiveAt(b.rows) == Some(i)
    ensures RightsOk(BoxNext(b, s))
  {
    assert forall k :: 0 <= k < |b.rights| ==> b.rights[k] != b.rows[i].id;
  }

  lemma {:induction false} RunKeeps(steps: seq<Step>, d: string)
    ensures BoxOk(At(Run(map[], steps), d))
  {
    if steps != [] {
      var s := steps[|steps| - 1];
      RunKeeps(steps[..|steps| - 1], d);
      if s.destination == d {
        var b := At(Run(map[], steps[..|steps| - 1]), d);
        if s.DoRequest? {
          RequestKeeps(b, s);
        } else {
          GuessKeeps(b, s);
        }
      }
    }
  }

  // ---------------------------------------------------------------------
  // Over every run
  // ---------------------------------------------------------------------

  lemma {:induction false} SpacedApart(sends: seq<int>, i: nat, k: nat)
    requires Spaced(sends) && i <= k < |sends|
    ensures sends[k] - sends[i] >= COOLDOWN_SECONDS * 1000 * (k - i)
    decreases k - i
  {
    if i < k {
      SpacedApart(sends, i, k - 1);
    }
  }

  /** How many of the sends fall between two instants, both included. */
  function Within(sends: seq<int>, from: int, to: int): nat {
    if sends == [] then 0
    else
      var last := sends[|sends| - 1];
      Within(sends[..|sends| - 1], from, to) + (if from <= last <= to then 1 else 0)
  }

  ghost predicate Reaches(sends: seq<int>, from: int, to: int, k: int, count: nat) {
    0 <= k < |sends| && from <= sends[k] <= to && COOLDOWN_SECONDS * 1000 * (count - 1) <= sends[k] - from
  }

  /** Counting n sends in a window takes n - 1 cooldowns, measured at some send in it. */
  lemma {:induction false} WithinReaches(sends: seq<int>, from: int, to: int)
    requires Spaced(sends) && Within(sends, from, to) > 0
    ensures exists k :: Reaches(sends, from, to, k, Within(sends, from, to))
  {
    var n := |sends| - 1;
    var front := sends[..n];
    if Within(front, from, to) > 0 {
      WithinReaches(front, from, to);
      var k :| Reaches(front, from, to, k, Within(front, from, to));
      if from <= sends[n] <= to {
        SpacedApart(sends, k, n);
        assert Reaches(sends, from, to, n, Within(sends, from, to));
      } else {
        assert Reaches(sends, from, to, k, Within(sends, from, to));
      }
    } else {
      assert Reaches(sends, from, to, n, Within(sends, from, to));
    }
  }

  /**
   Committed sends to a destination in any window of T milliseconds number at most
   1 + T / cooldown, whatever clocks the handlers read: an early clock is throttled.
   */
  lemma SendsAreRateLimited(steps: seq<Step>, d: string, from: int, T: nat)
    ensures Within(At(Run(map[], steps), d).sends, from, from + T) <= 1 + T / 60_000
  {
    RunKeeps(steps, d);
    var sends := At(Run(map[], steps), d).sends;
    if Within(sends, from, from + T) > 0 {
      WithinReaches(sends, from, from + T);
    }
  }

  /** At most one challenge is live; wrong guesses fit five to a challenge; no challenge succeeds twice. */
  lemma GuessesAreBounded(steps: seq<Step>, d: string)
    ensures var b := At(Run(map[], steps), d);
      && (forall i, k :: 0 <= i < k < |b.rows| ==> b.rows[i].consumedAt.Some? || b.rows[k].consumedAt.Some?)
      && b.wrongs <= 5 * |b.sends|
      && (forall i, k :: 0 <= i < k < |b.rights| ==> b.rights[i] != b.rights[k])
      && (forall i :: 0 <= i < |b.rights| ==> b.rights[i] < |b.sends|)
  {
    RunKeeps(steps, d);
  }

  lemma {:induction false} RightsGrow(b: Box, s: Step)
    ensures b.rights <= BoxNext(b, s).rights
  {
  }

  lemma {:induction false} RightsOnlyGrow(steps: seq<Step>, more: seq<Step>, d: string)
    ensures At(Run(map[], steps), d).rights <= At(Run(map[], steps + more), d).rights
  {
    if more == [] {
      assert steps + more == steps;
    } else {
      var n := |more| - 1;
      assert (steps + more)[..|steps + more| - 1] == steps + more[..n];
      RightsOnlyGrow(steps, more[..n], d);
      RightsGrow(At(Run(map[], steps + more[..n]), d), more[n]);
    }
  }

  /**
   A challenge that signed someone in never does so again: however the run goes on, later sign-ins
   are other challenges'.
   */
  lemma {:induction false} UsedCodesStayUsed(steps: seq<Step>, more: seq<Step>, d: string, i: nat, k: nat)
    requires i < |At(Run(map[], steps), d).rights| <= k < |At(Run(map[], steps + more), d).rights|
    ensures At(Run(map[], steps + more), d).rights[k] != At(Run(map[], steps), d).rights[i]
  {
    RightsOnlyGrow(steps, more, d);
    RunKeeps(steps + more, d);
  }

  // ---------------------------------------------------------------------
  // What a request and a guess are told
  // ---------------------------------------------------------------------

  /** Some row was sent less than sixty seconds before. */
  predicate SentWithin(rows: seq<Challenge>, now: int, ms: int) {
    exists i :: 0 <= i < |rows| && now - rows[i].lastSentAt < ms
  }

  /** What is left of a minute since the last send, in whole seconds rounded up; a clock that went back rounds down. */
  predicate ToWait(sent: int, now: int, seconds: int) {
    var left := sent + 60_000 - now;
    if now >= sent then left <= 1000 * seconds < left + 1000 else left - 1000 < 1000 * seconds <= left
  }

  /** A request is throttled exactly within a minute of the last send; else it fails, or replaces what was unused. */
  lemma {:induction false} ARequestIsAnsweredBy(rows: seq<Challenge>, id: nat, code: string, delivered: bool, now: int)
    ensures var r := Request(rows, id, code, delivered, now);
      && (r.error.Some? && r.error.value.Throttled? <==> SentWithin(rows, now, 60 * 1000))
      && (r.error.Some? && r.error.value.Throttled? ==> ToWait(LastSent(rows).value, now, r.error.value.retryAfter))
      && (r.error == Some(SendFailed) <==> !SentWithin(rows, now, 60 * 1000) && !delivered)
      && (r.error.None? <==> !SentWithin(rows, now, 60 * 1000) && delivered)
      && (r.error.Some? ==> r.rows == rows)
      && (r.error.None? ==>
            && r.rows != []
            && r.rows[|r.rows| - 1] == Challenge(id, code, now + 10 * 60 * 1000, 0, None, now)
            && (forall c :: c in r.rows[..|r.rows| - 1] <==> c in rows && c.consumedAt.Some?))
  {
    UsedAre(rows);
    if rows != [] { LastSentIsSome(rows); }
    if delivered && !SentWithin(rows, now, 60 * 1000) {
      var newest := Challenge(id, code, now + 10 * 60 * 1000, 0, None, now);
      assert (Used(rows) + [newest])[..|Used(rows)|] == Used(rows);
    }
  }

  lemma {:induction false} UsedAre(rows: seq<Challenge>)
    ensures forall c :: c in Used(rows) <==> c in rows && c.consumedAt.Some?
  {
    if rows != [] {
      var n := |rows| - 1;
      UsedAre(rows[..n]);
      assert rows == rows[..n] + [rows[n]];
    }
  }

  /**
   What each guess is told: right, exactly for the code of an unused challenge sent less than five
   wrong guesses and at most ten minutes ago, and no identity conflict.
   */
  lemma AGuessIsAnsweredBy(rows: seq<Challenge>, guess: string, conflict: bool, now: int)
    ensures var g := Guess(rows, guess, conflict, now);
      match LiveAt(rows)
      case None => g.error == Some(Expired)
      case Some(i) =>
        && (g.error == None <==> now <= rows[i].expiresAt && rows[i].attempts < 5 && guess == rows[i].code && !conflict)
        && (g.error == Some(Conflict)
            <==> now <= rows[i].expiresAt && rows[i].attempts < 5 && guess == rows[i].code && conflict)
        && (g.error == Some(Expired) <==> now > rows[i].expiresAt)
        && (g.error == Some(TooManyAttempts) <==> now <= rows[i].expiresAt && rows[i].attempts >= 5)
        && (g.error.Some? && g.error.value.Incorrect? <==>
              now <= rows[i].expiresAt && rows[i].attempts < 5 && guess != rows[i].code)
        && (g.error.Some? && g.error.value.Incorrect? ==> g.error.value.remaining + rows[i].attempts == 4)
  {
  }

  /** Every code there is was sent ten minutes before it expires. */
  ghost predicate TenMinutes(b: Box) {
    forall i :: 0 <= i < |b.rows| ==> b.rows[i].expiresAt == b.rows[i].lastSentAt + 10 * 60 * 1000
  }

  lemma {:induction false} TenMinutesStay(b: Box, s: Step)
    requires TenMinutes(b)
    ensures TenMinutes(BoxNext(b, s))
  {
    if s.DoRequest? {
      UsedAre(b.rows);
      var r := Request(b.rows, b.issued, s.code, s.delivered, s.now);
      if r.error.None? {
        forall i | 0 <= i < |r.rows| ensures r.rows[i].expiresAt == r.rows[i].lastSentAt + 10 * 60 * 1000 {
          if i < |r.rows| - 1 { assert Used(b.rows)[i] in Used(b.rows); }
        }
      }
    }
  }

  lemma {:induction false} RunTenMinutes(steps: seq<Step>, d: string)
    ensures TenMinutes(At(Run(map[], steps), d))
  {
    if steps != [] {
      RunTenMinutes(steps[..|steps| - 1], d);
      TenMinutesStay(At(Run(map[], steps[..|steps| - 1]), d), steps[|steps| - 1]);
    }
  }

  /** In any run, a guess that signs someone in is made no later than ten minutes after the destination's last send. */
  lemma {:induction false} CodesLastTenMinutes(steps: seq<Step>, d: string, guess: string, conflict: bool, now: int)
    ensures var b := At(Run(map[], steps), d);
      var g := Guess(b.rows, guess, conflict, now);
      g.error == None ==> b.sends != [] && now <= b.sends[|b.sends| - 1] + 10 * 60 * 1000
  {
    RunKeeps(steps, d);
    RunTenMinutes(steps, d);
    var b := At(Run(map[], steps), d);
    if Guess(b.rows, guess, conflict, now).error == None {
      assert LiveAt(b.rows) == Some(|b.rows| - 1);
    }
  }

  /** A challenge whose guesses are looked at: neither expired nor out of attempts. */
  predicate Open(c: Challenge, now: int) {
    now <= c.expiresAt && c.attempts < MAX_ATTEMPTS
  }

  /**
   A guess leaves no trace exactly when there is no live challenge, when the challenge is
   expired or out of attempts, or when the code is right and meets an identity conflict.
   Any other guess costs an attempt, and a right code then leaves a challenge that refuses
   every guess.
   */
  lemma AGuessLeavesNoTraceIff(rows: seq<Challenge>, guess: string, conflict: bool, now: int)
    ensures Guess(rows, guess, conflict, now).rows == rows
       <==> LiveAt(rows) == None
            || !Open(rows[LiveAt(rows).value], now)
            || (guess == rows[LiveAt(rows).value].code && conflict)
    ensures var after := Guess(rows, guess, conflict, now).rows;
      after != rows ==>
        var i := LiveAt(rows).value;
        && after == rows[i := after[i]] && after[i].attempts == rows[i].attempts + 1
        && (after[i].consumedAt.Some? <==> guess == rows[i].code)
        && (guess == rows[i].code ==>
              forall again, later :: Verify(after[i], again, later) == Checked(after[i], Some(AlreadyUsed)))
  {
    if LiveAt(rows).Some? {
      var i := LiveAt(rows).value;
      var c := Verify(rows[i], guess, now).challenge;
      assert rows[i := c][i] == c;
    }
  }

  // ---------------------------------------------------------------------
  // The handlers
  // ---------------------------------------------------------------------

  class OtpStore {
    var rows: map<string, seq<Challenge>>
    var issued: nat

    constructor ()
      ensures rows == map[] && issued == 0
    {
      rows, issued := map[], 0;
    }

    function For(d: string): seq<Challenge>
      reads this
    {
      if d in rows then rows[d] else []
    }

    method RequestOtp(d: string, code: string, delivered: bool, now: int) returns (error: Option<OtpError>)
      modifies this
      ensures Requested(For(d), error) == Request(old(For(d)), old(issued), code, delivered, now)
      ensures error.Some? ==> rows == old(rows) && issued == old(issued)
      ensures error.None? ==> issued == old(issued) + 1
      ensures forall e :: e != d ==> For(e) == old(For(e))
    {
      var existing := LastSent(For(d));
      if existing.Some? {
        var elapsed := Seconds(now - existing.value);
        if elapsed < COOLDOWN_SECONDS {
          return Some(Throttled(COOLDOWN_SECONDS - elapsed));
        }
      }
      if !delivered {
        return Some(SendFailed);
      }
      rows := rows[d := Used(For(d)) + [Challenge(issued, code, now + TTL_MS, 0, None, now)]];
      issued := issued + 1;
      return None;
    }

    method VerifyOtp(d: string, guess: string, conflict: bool, now: int) returns (error: Option<OtpError>)
      modifies this
      ensures For(d) == Guess(old(For(d)), guess, conflict, now).rows
      ensures error == Guess(old(For(d)), guess, conflict, now).error
      ensures forall e :: e != d ==> For(e) == old(For(e))
      ensures issued == old(issued)
    {
      var live := LiveAt(For(d));
      if live.None? {
        return Some(Expired);
      }
      var checked := Verify(For(d)[live.value], guess, now);
      if checked.error.None? && conflict {
        return Some(Conflict);
      }
      rows := rows[d := For(d)[live.value := checked.challenge]];
      return checked.error;
    }
  }
}
