/**
 Refresh tokens: one family per login, rotated on every use. Presenting a token
 that was already exchanged revokes the whole family, as does signing out.
 */
module Sessions {
  import opened Base

  /** A row of `sessions`. The token itself is never stored, only its hash. */
  datatype Session = Session(
    user: Uuid, family: Uuid, hash: string, expiresAt: int,
    rotatedAt: Option<int>, revokedAt: Option<int>)

  const REFRESH_TTL: int := 30 * 24 * 3600

  datatype Outcome = Rotate(user: Uuid, family: Uuid) | ReuseDetected(family: Uuid) | Rejected

  /** Reuse is looked for before revocation and expiry. */
  function EvaluateRefresh(s: Session, now: int): Outcome {
    if s.rotatedAt.Some? then ReuseDetected(s.family)
    else if s.revokedAt.Some? || now >= s.expiresAt then Rejected
    else Rotate(s.user, s.family)
  }

  // ---------------------------------------------------------------------
  // The table
  // ---------------------------------------------------------------------

  function Find(rows: seq<Session>, hash: string): (r: Option<nat>)
    ensures r.Some? ==> r.value < |rows| && rows[r.value].hash == hash
    ensures r.None? ==> forall i :: 0 <= i < |rows| ==> rows[i].hash != hash
  {
    if rows == [] then None
    else if rows[|rows| - 1].hash == hash then Some(|rows| - 1)
    else Find(rows[..|rows| - 1], hash)
  }

  function RevokeFamily(rows: seq<Session>, family: Uuid, now: int): (r: seq<Session>)
    ensures |r| == |rows|
  {
    seq(|rows|, i requires 0 <= i < |rows| =>
      if rows[i].family == family && rows[i].revokedAt.None? then rows[i].(revokedAt := Some(now)) else rows[i])
  }

  /** A login: a fresh family with one token. The database refuses a repeated hash. */
  function SignIn(rows: seq<Session>, user: Uuid, family: Uuid, hash: string, now: int): seq<Session> {
    if (exists i :: 0 <= i < |rows| && (rows[i].hash == hash || rows[i].family == family)) then rows
    else rows + [Session(user, family, hash, now + REFRESH_TTL, None, None)]
  }

  datatype Refreshed = Refreshed(rows: seq<Session>, outcome: Option<Outcome>)

  /**
   Exchange a token for the next one in its family. A repeated hash for the next token fails the
   insert and undoes the rest.
   */
  function Refresh(rows: seq<Session>, presented: string, next: string, now: int): Refreshed {
    match Find(rows, presented)
    case None => Refreshed(rows, None)
    case Some(i) =>
      match EvaluateRefresh(rows[i], now)
      case ReuseDetected(family) => Refreshed(RevokeFamily(rows, family, now), Some(ReuseDetected(family)))
      case Rejected => Refreshed(rows, Some(Rejected))
      case Rotate(user, family) =>
        if Find(rows, next).Some? then Refreshed(rows, None)
        else Refreshed(rows[i := rows[i].(rotatedAt := Some(now))]
                         + [Session(user, family, next, now + REFRESH_TTL, None, None)],
                       Some(Rotate(user, family)))
  }

  function Logout(rows: seq<Session>, presented: string, now: int): seq<Session> {
    match Find(rows, presented)
    case None => rows
    case Some(i) => RevokeFamily(rows, rows[i].family, now)
  }

  // ---------------------------------------------------------------------
  // Families
  // ---------------------------------------------------------------------

  predicate Live(s: Session) {
    s.rotatedAt.None? && s.revokedAt.None?
  }

  ghost predicate Inv(rows: seq<Session>) {
    && (forall i, k :: 0 <= i < k < |rows| ==> rows[i].hash != rows[k].hash)
    && (forall i, k :: 0 <= i < k < |rows| && rows[i].family == rows[k].family ==>
          rows[i].user == rows[k].user && !(Live(rows[i]) && Live(rows[k])))
  }

  /** Every token of the family is revoked. */
  ghost predicate Dead(rows: seq<Session>, family: Uuid) {
    forall i :: 0 <= i < |rows| && rows[i].family == family ==> rows[i].revokedAt.Some?
  }

  ghost predicate Seen(rows: seq<Session>, family: Uuid) {
    exists i :: 0 <= i < |rows| && rows[i].family == family
  }

  /** Rows only gain marks: a token once exchanged or revoked stays so, and identities never change. */
  ghost predicate Marks(a: seq<Session>, b: seq<Session>) {
    |a| <= |b| && forall i :: 0 <= i < |a| ==>
      && a[i].user == b[i].user && a[i].family == b[i].family
      && a[i].hash == b[i].hash && a[i].expiresAt == b[i].expiresAt
      && (a[i].rotatedAt.Some? ==> b[i].rotatedAt == a[i].rotatedAt)
      && (a[i].revokedAt.Some? ==> b[i].revokedAt == a[i].revokedAt)
  }

  datatype Step =
    | DoSignIn(user: Uuid, family: Uuid, hash: string, now: int)
    | DoRefresh(presented: string, next: string, now: int)
    | DoLogout(presented: string, now: int)

  function Next(rows: seq<Session>, s: Step): seq<Session> {
    match s
    case DoSignIn(user, family, hash, now) => SignIn(rows, user, family, hash, now)
    case DoRefresh(presented, next, now) => Refresh(rows, presented, next, now).rows
    case DoLogout(presented, now) => Logout(rows, presented, now)
  }

  function Run(rows: seq<Session>, steps: seq<Step>): seq<Session> {
    if steps == [] then rows else Next(Run(rows, steps[..|steps| - 1]), steps[|steps| - 1])
  }

  lemma RevokeKeeps(rows: seq<Session>, family: Uuid, now: int)
    requires Inv(rows)
    ensures Inv(RevokeFamily(rows, family, now)) && Marks(rows, RevokeFamily(rows, family, now))
  {
  }

  lemma RotateKeeps(rows: seq<Session>, i: nat, next: Session, now: int)
    requires Inv(rows) && i < |rows| && Live(rows[i])
    requires next.user == rows[i].user && next.family == rows[i].family
    requires forall k :: 0 <= k < |rows| ==> rows[k].hash != next.hash
    ensures var after := rows[i := rows[i].(rotatedAt := Some(now))] + [next]; Inv(after) && Marks(rows, after)
  {
    var after := rows[i := rows[i].(rotatedAt := Some(now))] + [next];
    forall k, l | 0 <= k < l < |after| && after[k].family == after[l].family
      ensures after[k].user == after[l].user && !(Live(after[k]) && Live(after[l]))
    {
      if l < |rows| {
        assert rows[k].family == rows[l].family;
      } else if k < i {
        assert rows[k].family == rows[i].family;
      } else if i < k {
        assert rows[i].family == rows[k].family;
      }
    }
  }

  lemma SignInKeeps(rows: seq<Session>, user: Uuid, family: Uuid, hash: string, now: int)
    requires Inv(rows)
    ensures Inv(SignIn(rows, user, family, hash, now)) && Marks(rows, SignIn(rows, user, family, hash, now))
  {
  }

  lemma RefreshKeeps(rows: seq<Session>, presented: string, next: string, now: int)
    requires Inv(rows)
    ensures var after := Refresh(rows, presented, next, now).rows; Inv(after) && Marks(rows, after)
  {
    if Find(rows, presented).Some? {
      var i := Find(rows, presented).value;
      match EvaluateRefresh(rows[i], now)
      case ReuseDetected(family) => RevokeKeeps(rows, family, now);
      case Rejected =>
      case Rotate(user, family) =>
        if Find(rows, next).None? {
          RotateKeeps(rows, i, Session(user, family, next, now + REFRESH_TTL, None, None), now);
        }
    }
  }

  lemma {:induction false} NextKeeps(rows: seq<Session>, s: Step)
    requires Inv(rows)
    ensures Inv(Next(rows, s)) && Marks(rows, Next(rows, s))
  {
    match s
    case DoSignIn(user, family, hash, now) => SignInKeeps(rows, user, family, hash, now);
    case DoRefresh(presented, next, now) => RefreshKeeps(rows, presented, next, now);
    case DoLogout(presented, now) =>
      if Find(rows, presented).Some? {
        RevokeKeeps(rows, rows[Find(rows, presented).value].family, now);
      }
  }

  lemma {:induction false} MarksTransitive(a: seq<Session>, b: seq<Session>, c: seq<Session>)
    requires Marks(a, b) && Marks(b, c)
    ensures Marks(a, c)
  {
    forall i | 0 <= i < |a|
      ensures a[i].user == c[i].user && a[i].family == c[i].family && a[i].hash == c[i].hash
      ensures a[i].expiresAt == c[i].expiresAt
      ensures a[i].rotatedAt.Some? ==> c[i].rotatedAt == a[i].rotatedAt
      ensures a[i].revokedAt.Some? ==> c[i].revokedAt == a[i].revokedAt
    {
      assert a[i].hash == b[i].hash && b[i].hash == c[i].hash;
    }
  }

  lemma {:induction false} RunKeeps(rows: seq<Session>, steps: seq<Step>)
    requires Inv(rows)
    ensures Inv(Run(rows, steps)) && Marks(rows, Run(rows, steps))
  {
    if steps != [] {
      var before := Run(rows, steps[..|steps| - 1]);
      RunKeeps(rows, steps[..|steps| - 1]);
      NextKeeps(before, steps[|steps| - 1]);
      MarksTransitive(rows, before, Run(rows, steps));
    }
  }

  /** Throughout any run a family has one user and at most one token that can still be exchanged. */
  lemma {:induction false} OneLiveTokenPerFamily(steps: seq<Step>)
    ensures Inv(Run([], steps))
  {
    RunKeeps([], steps);
  }

  // ---------------------------------------------------------------------
  // Death of a family
  // ---------------------------------------------------------------------

  /** Reuse and logout both leave the family dead. */
  lemma ReuseKills(rows: seq<Session>, presented: string, next: string, now: int)
    requires Find(rows, presented).Some? && rows[Find(rows, presented).value].rotatedAt.Some?
    ensures var family := rows[Find(rows, presented).value].family;
            var r := Refresh(rows, presented, next, now);
            && r.outcome == Some(ReuseDetected(family))
            && Dead(r.rows, family) && Seen(r.rows, family)
            && (forall i :: 0 <= i < |rows| && rows[i].family != family ==> r.rows[i] == rows[i])
  {
    var i := Find(rows, presented).value;
    assert RevokeFamily(rows, rows[i].family, now)[i].family == rows[i].family;
  }

  lemma LogoutKills(rows: seq<Session>, presented: string, now: int)
    requires Find(rows, presented).Some?
    ensures var family := rows[Find(rows, presented).value].family;
            && Dead(Logout(rows, presented, now), family) && Seen(Logout(rows, presented, now), family)
            && (forall i :: 0 <= i < |rows| && rows[i].family != family ==> Logout(rows, presented, now)[i] == rows[i])
  {
    var i := Find(rows, presented).value;
    assert Logout(rows, presented, now)[i].family == rows[i].family;
  }

  ghost predicate NoneIssued(a: seq<Session>, b: seq<Session>, family: Uuid) {
    |a| <= |b| && forall i :: |a| <= i < |b| ==> b[i].family != family
  }

  lemma {:induction false} DeadUnderRevoke(rows: seq<Session>, other: Uuid, now: int, family: Uuid)
    requires Dead(rows, family)
    ensures Dead(RevokeFamily(rows, other, now), family) && NoneIssued(rows, RevokeFamily(rows, other, now), family)
  {
  }

  lemma {:induction false} DeadUnderRefresh(rows: seq<Session>, presented: string, next: string, now: int, family: Uuid)
    requires Dead(rows, family)
    ensures var after := Refresh(rows, presented, next, now).rows;
            Dead(after, family) && NoneIssued(rows, after, family)
  {
    if Find(rows, presented).Some? {
      DeadUnderRevoke(rows, rows[Find(rows, presented).value].family, now, family);
    }
  }

  lemma {:induction false} DeadStays(rows: seq<Session>, s: Step, family: Uuid)
    requires Dead(rows, family) && Seen(rows, family)
    ensures Dead(Next(rows, s), family) && Seen(Next(rows, s), family) && NoneIssued(rows, Next(rows, s), family)
  {
    var i :| 0 <= i < |rows| && rows[i].family == family;
    assert Next(rows, s)[i].family == family;
    match s
    case DoSignIn(_, _, _, _) =>
    case DoRefresh(presented, next, now) => DeadUnderRefresh(rows, presented, next, now, family);
    case DoLogout(presented, now) =>
      if Find(rows, presented).Some? {
        DeadUnderRevoke(rows, rows[Find(rows, presented).value].family, now, family);
      }
  }

  /** Once a family is dead, no step of any later run issues a token in it. */
  lemma {:induction false} DeadFamiliesIssueNothing(rows: seq<Session>, steps: seq<Step>, family: Uuid)
    requires Dead(rows, family) && Seen(rows, family)
    ensures Dead(Run(rows, steps), family) && Seen(Run(rows, steps), family)
    ensures NoneIssued(rows, Run(rows, steps), family)
  {
    if steps != [] {
      DeadFamiliesIssueNothing(rows, steps[..|steps| - 1], family);
      DeadStays(Run(rows, steps[..|steps| - 1]), steps[|steps| - 1], family);
    }
  }

  /** No token is ever exchanged twice: the second time, however much later, finds the theft and kills the family. */
  lemma ATokenIsExchangedOnce(rows: seq<Session>, steps: seq<Step>, presented: string, next: string, again: string,
                              now: int, later: int)
    requires Inv(rows)
    requires Refresh(rows, presented, next, now).outcome.Some?
    requires Refresh(rows, presented, next, now).outcome.value.Rotate?
    ensures var family := Refresh(rows, presented, next, now).outcome.value.family;
            var before := Run(Refresh(rows, presented, next, now).rows, steps);
            var r := Refresh(before, presented, again, later);
            r.outcome == Some(ReuseDetected(family)) && Dead(r.rows, family)
  {
    var i := Find(rows, presented).value;
    var first := Refresh(rows, presented, next, now).rows;
    var before := Run(first, steps);
    NextKeeps(rows, DoRefresh(presented, next, now));
    RunKeeps(first, steps);
    assert first[i].rotatedAt.Some? && first[i].hash == presented;
    assert before[i].hash == presented;
    FoundAt(before, presented, i);
    ReuseKills(before, presented, again, later);
  }

  lemma FoundAt(rows: seq<Session>, hash: string, i: nat)
    requires Inv(rows) && i < |rows| && rows[i].hash == hash
    ensures Find(rows, hash) == Some(i)
  {
  }

  // ---------------------------------------------------------------------
  // Which tokens are exchanged
  // ---------------------------------------------------------------------

  /** The token is known, was neither exchanged nor revoked, and its time is not up. */
  predicate Good(rows: seq<Session>, presented: string, now: int) {
    && Find(rows, presented).Some?
    && var s := rows[Find(rows, presented).value];
       s.rotatedAt == None && s.revokedAt == None && now < s.expiresAt
  }

  predicate NewHash(rows: seq<Session>, hash: string) {
    forall i :: 0 <= i < |rows| ==> rows[i].hash != hash
  }

  predicate Exchanged(r: Refreshed) {
    r.outcome.Some? && r.outcome.value.Rotate?
  }

  /**
   A token is exchanged exactly when it is good and the next hash is new. The next token then
   belongs to the same user and family and is good for thirty days. Anything else issues nothing.
   */
  lemma RotatesIff(rows: seq<Session>, presented: string, next: string, now: int)
    ensures var r := Refresh(rows, presented, next, now);
      && (Exchanged(r) <==> Good(rows, presented, now) && NewHash(rows, next))
      && (Exchanged(r) ==>
            var i := Find(rows, presented).value;
            var s := rows[i];
            && r.outcome.value == Rotate(s.user, s.family)
            && r.rows == rows[i := s.(rotatedAt := Some(now))]
                         + [Session(s.user, s.family, next, now + 30 * 24 * 3600, None, None)])
      && (!Exchanged(r) ==> |r.rows| == |rows|)
  {
  }

  /** A token presented again is theft; a revoked or expired one is refused and changes nothing. */
  lemma RefusedTokens(rows: seq<Session>, presented: string, next: string, now: int)
    requires Find(rows, presented).Some?
    ensures var s := rows[Find(rows, presented).value];
      var r := Refresh(rows, presented, next, now);
      && (r.outcome == Some(ReuseDetected(s.family)) <==> s.rotatedAt.Some?)
      && (r.outcome == Some(Rejected) <==> s.rotatedAt == None && (s.revokedAt.Some? || now >= s.expiresAt))
      && (s.rotatedAt == None && !Exchanged(r) ==> r.rows == rows)
  {
  }

  /** The hash of the token a sign-in or an exchange issues. */
  function IssuedHash(s: Step): string
    requires !s.DoLogout?
  {
    if s.DoSignIn? then s.hash else s.next
  }

  /**
   However the run goes on, a token issued at t is exchanged exactly before t + 30 days, while it
   is neither exchanged nor revoked, for a new hash.
   */
  lemma {:induction false} ATokenLastsThirtyDays(rows: seq<Session>, s: Step, more: seq<Step>, next: string, later: int)
    requires Inv(rows) && !s.DoLogout? && |Next(rows, s)| > |rows|
    ensures var after := Run(Next(rows, s), more);
      && |after| > |rows| && after[|rows|].hash == IssuedHash(s)
      && (Exchanged(Refresh(after, IssuedHash(s), next, later))
          <==> later < s.now + 30 * 24 * 3600
               && after[|rows|].rotatedAt == None && after[|rows|].revokedAt == None && NewHash(after, next))
  {
    var first := Next(rows, s);
    var after := Run(first, more);
    NextKeeps(rows, s);
    RunKeeps(first, more);
    assert first[|rows|].hash == IssuedHash(s) && first[|rows|].expiresAt == s.now + 30 * 24 * 3600;
    assert after[|rows|].hash == first[|rows|].hash && after[|rows|].expiresAt == first[|rows|].expiresAt;
    FoundAt(after, IssuedHash(s), |rows|);
    RotatesIff(after, IssuedHash(s), next, later);
  }

  // ---------------------------------------------------------------------
  // The handlers
  // ---------------------------------------------------------------------

  datatype AuthError = Unauthorized | PinInvalid

  ghost predicate Unused(rows: seq<Session>, family: Uuid, hash: string) {
    forall i :: 0 <= i < |rows| ==> rows[i].hash != hash && rows[i].family != family
  }

  /**
   The family's tokens are revoked, the earlier revocations among them untouched, and every other
   row is as it was.
   */
  ghost predicate Revoked(before: seq<Session>, after: seq<Session>, family: Uuid, now: int) {
    |before| == |after| && forall i :: 0 <= i < |before| ==>
      if before[i].family != family || before[i].revokedAt.Some? then after[i] == before[i]
      else after[i] == before[i].(revokedAt := Some(now))
  }

  /** The known token's owner has set this PIN. */
  predicate PinMatches(rows: seq<Session>, presented: string, pins: map<Uuid, string>, pin: string) {
    && Find(rows, presented).Some?
    && var user := rows[Find(rows, presented).value].user; user in pins && pins[user] == pin
  }

  /** Whose PIN is asked for: the owner of a known, unrevoked token, if a PIN is set. */
  function Knocks(rows: seq<Session>, presented: string, pins: map<Uuid, string>): (user: Option<Uuid>)
    ensures user.Some? ==> user.value in pins
  {
    match Find(rows, presented)
    case None => None
    case Some(i) => if rows[i].revokedAt.Some? || rows[i].user !in pins then None else Some(rows[i].user)
  }

  class SessionStore {
    var rows: seq<Session>

    constructor ()
      ensures rows == []
    {
      rows := [];
    }

    method StartSession(user: Uuid, family: Uuid, hash: string, now: int)
      modifies this
      ensures rows == SignIn(old(rows), user, family, hash, now)
      ensures Unused(old(rows), family, hash) ==>
        rows == old(rows) + [Session(user, family, hash, now + REFRESH_TTL, None, None)]
      ensures !Unused(old(rows), family, hash) ==> rows == old(rows)
      ensures old(Inv(rows)) ==> Inv(rows)
    {
      NextKeepsIf(rows, DoSignIn(user, family, hash, now));
      if exists i :: 0 <= i < |rows| && (rows[i].hash == hash || rows[i].family == family) {
        return;
      }
      rows := rows + [Session(user, family, hash, now + REFRESH_TTL, None, None)];
    }

    /** Ok carries the user the next token was issued to. */
    method RefreshToken(presented: string, next: string, now: int) returns (r: Result<Uuid, AuthError>)
      modifies this
      ensures rows == Refresh(old(rows), presented, next, now).rows
      ensures match Refresh(old(rows), presented, next, now).outcome
              case Some(Rotate(user, _)) => r == Ok(user)
              case _ => r == Err(Unauthorized)
      ensures r.Ok? <==> Good(old(rows), presented, now) && NewHash(old(rows), next)
      ensures r.Ok? ==> r.value == old(rows)[Find(old(rows), presented).value].user
      ensures r.Err? ==> r.error == Unauthorized && |rows| == |old(rows)|
      ensures old(Inv(rows)) ==> Inv(rows)
    {
      RotatesIff(rows, presented, next, now);
      NextKeepsIf(rows, DoRefresh(presented, next, now));
      var found := Find(rows, presented);
      if found.None? {
        return Err(Unauthorized);
      }
      var i := found.value;
      match EvaluateRefresh(rows[i], now) {
        case ReuseDetected(family) =>
          rows := RevokeFamily(rows, family, now);
          return Err(Unauthorized);
        case Rejected =>
          return Err(Unauthorized);
        case Rotate(user, family) =>
          if Find(rows, next).Some? {
            return Err(Unauthorized);
          }
          rows := rows[i := rows[i].(rotatedAt := Some(now))];
          rows := rows + [Session(user, family, next, now + REFRESH_TTL, None, None)];
          return Ok(user);
      }
    }

    /** A live token and its owner's PIN together open the door; the token is then exchanged as in any refresh. */
    method Unlock(presented: string, pins: map<Uuid, string>, pin: string, next: string, now: int)
      returns (r: Result<Uuid, AuthError>)
      modifies this
      ensures r.Ok? ==> r.value in pins && pins[r.value] == pin
      ensures match Knocks(old(rows), presented, pins)
              case None => r == Err(Unauthorized) && rows == old(rows)
              case Some(user) =>
                if pins[user] != pin then r == Err(PinInvalid) && rows == old(rows)
                else
                  && rows == Refresh(old(rows), presented, next, now).rows
                  && r == match Refresh(old(rows), presented, next, now).outcome
                          case Some(Rotate(owner, _)) => Ok(owner)
                          case _ => Err(Unauthorized)
      ensures r.Ok? <==> Good(old(rows), presented, now) && NewHash(old(rows), next)
                         && PinMatches(old(rows), presented, pins, pin)
      ensures r == Err(PinInvalid) <==>
        Find(old(rows), presented).Some?
        && var s := old(rows)[Find(old(rows), presented).value];
           s.revokedAt == None && s.user in pins && pins[s.user] != pin
      ensures r.Err? ==> |rows| == |old(rows)|
      ensures old(Inv(rows)) ==> Inv(rows)
    {
      var found := Find(rows, presented);
      if found.None? || rows[found.value].revokedAt.Some? || rows[found.value].user !in pins {
        return Err(Unauthorized);
      }
      if pins[rows[found.value].user] != pin {
        return Err(PinInvalid);
      }
      r := RefreshToken(presented, next, now);
    }

    method SignOut(presented: Option<string>, now: int)
      modifies this
      ensures presented.None? || Find(old(rows), presented.value).None? ==> rows == old(rows)
      ensures presented.Some? && Find(old(rows), presented.value).Some? ==>
        Revoked(old(rows), rows, old(rows)[Find(old(rows), presented.value).value].family, now)
      ensures old(Inv(rows)) ==> Inv(rows)
    {
      if presented.Some? {
        NextKeepsIf(rows, DoLogout(presented.value, now));
        var found := Find(rows, presented.value);
        if found.Some? {
          rows := RevokeFamily(rows, rows[found.value].family, now);
        }
      }
    }
  }

  lemma NextKeepsIf(rows: seq<Session>, s: Step)
    ensures Inv(rows) ==> Inv(Next(rows, s))
  {
    if Inv(rows) {
      NextKeeps(rows, s);
    }
  }
}
