/**
 Top-ups: the life cycle of an intent, what the provider's answer means, and the
 credit that must reach the ledger once per provider reference.
 */
module Funding {
  import opened Base
  import opened Ledger

  // ---------------------------------------------------------------------
  // The provider
  // ---------------------------------------------------------------------

  datatype ChargeState =
    | ChargePending
    | ChargeSucceeded(amount: Naira)
    | ChargeFailed(reason: string)

  /** What came back over the wire. `kobo` is the provider's own integer figure. */
  datatype Reply =
    | NoReply
    | NoData
    | Data(status: string, kobo: int, gatewayResponse: Option<string>)

  datatype Verdict = Unreachable | Answered(state: ChargeState)

  datatype Provider = Paystack | Stub

  function Verify(provider: Provider, reply: Reply, intentAmount: Naira): Verdict {
    match provider
    case Stub => Answered(ChargeSucceeded(intentAmount))
    case Paystack =>
      match reply
      case NoReply => Unreachable
      case NoData => Answered(ChargePending)
      case Data(status, kobo, gateway) =>
        if status == "success" then Answered(ChargeSucceeded(kobo as real / 100.0))
        else if status == "failed" || status == "reversed" then
          Answered(ChargeFailed(if gateway.Some? then gateway.value else "the bank declined that card"))
        else Answered(ChargePending)
  }

  /** A live provider's own figure is credited, never the figure the intent asked for. */
  lemma LiveAnswerIgnoresTheIntent(reply: Reply, asked: Naira, other: Naira)
    ensures Verify(Paystack, reply, asked) == Verify(Paystack, reply, other)
    ensures var v := Verify(Paystack, reply, asked);
      v.Answered? && v.state.ChargeSucceeded? ==>
        reply.Data? && reply.status == "success" && v.state.amount * 100.0 == reply.kobo as real
    ensures var v := Verify(Paystack, reply, asked);
      v.Answered? && v.state.ChargeFailed? ==>
        reply.Data? && (reply.gatewayResponse == Some(v.state.reason)
                        || (reply.gatewayResponse == None && v.state.reason == "the bank declined that card"))
  {
  }

  // ---------------------------------------------------------------------
  // Intents
  // ---------------------------------------------------------------------

  datatype Status = Pending | Succeeded | Failed | Abandoned

  /** A row of `ngn_deposits`. Rows are never deleted: the position in the table is the id. */
  datatype Intent = Intent(
    user: Uuid, amount: Naira, provider: Provider, reference: string,
    status: Status, credited: Option<nat>, createdAt: int)

  datatype Funds = Funds(book: Book, intents: seq<Intent>)

  datatype FundingError = BadAmount | DuplicateReference | ZeroCredit | AmountRejected | NotFound

  const MIN_FUNDING_NGN: Naira := 100.0
  const MAX_FUNDING_NGN: Naira := 1000000.0

  predicate ReferenceTaken(intents: seq<Intent>, reference: string) {
    exists i :: 0 <= i < |intents| && intents[i].reference == reference
  }

  /** How many digits an amount may be written with after the point: whole kobo. */
  const MAX_SCALE: nat := 2

  function Create(f: Funds, user: Uuid, amount: Naira, scale: nat, provider: Provider, reference: string,
                  now: int): Result<Funds, FundingError> {
    if amount < MIN_FUNDING_NGN || amount > MAX_FUNDING_NGN || scale > MAX_SCALE then Err(BadAmount)
    else if ReferenceTaken(f.intents, reference) then Err(DuplicateReference)
    else Ok(f.(intents := f.intents + [Intent(user, amount, provider, reference, Pending, None, now)]))
  }

  function CreditJournal(user: Uuid, reference: string, amount: Naira): Journal {
    Journal(NgnDeposit, reference, CreditKey(reference),
            [Entry(Account(NgnFloat, None), Ngn, amount),
             Entry(Account(UserNgn, Some(user)), Ngn, -amount)])
  }

  /**
   The credit transaction. A zero amount builds no journal. The row's own check
   refuses a non-positive amount, which undoes the whole transaction; but the row
   is only written while it is still pending.
   */
  function Credit(f: Funds, id: nat, user: Uuid, reference: string, amount: Naira): Result<Funds, FundingError>
    requires id < |f.intents|
  {
    var row := f.intents[id];
    if amount == 0.0 then Err(ZeroCredit)
    else
      var posting := Post(f.book, CreditJournal(user, reference, amount));
      if row.status != Pending then Ok(f.(book := posting.book))
      else if amount <= 0.0 then Err(AmountRejected)
      else Ok(Funds(posting.book,
                    f.intents[id := row.(status := Succeeded, amount := amount, credited := Some(posting.id))]))
  }

  function Fail(f: Funds, id: nat): Funds
    requires id < |f.intents|
  {
    if f.intents[id].status == Pending
    then f.(intents := f.intents[id := f.intents[id].(status := Failed)])
    else f
  }

  datatype Settled = Settled(funds: Funds, reported: Result<Status, FundingError>)

  /** What the provider's answer does to the tables, and the status the caller is told. */
  function Settle(f: Funds, id: nat, user: Uuid, reference: string, verdict: Verdict): Settled
    requires id < |f.intents|
  {
    match verdict
    case Unreachable => Settled(f, Ok(Pending))
    case Answered(ChargePending) => Settled(f, Ok(Pending))
    case Answered(ChargeFailed(_)) => Settled(Fail(f, id), Ok(Failed))
    case Answered(ChargeSucceeded(amount)) =>
      match Credit(f, id, user, reference, amount)
      case Ok(after) => Settled(after, Ok(Succeeded))
      case Err(e) => Settled(f, Err(e))
  }

  const ABANDON_AFTER: int := 24 * 3600
  const SETTLE_AFTER: int := 20

  predicate Stale(i: Intent, now: int) {
    i.status == Pending && i.provider == Paystack && i.createdAt < now - ABANDON_AFTER
  }

  /** One bulk update: every pending row past the window is closed out. */
  function Abandon(f: Funds, now: int): (r: Funds)
    ensures r.book == f.book && |r.intents| == |f.intents|
  {
    f.(intents := seq(|f.intents|, i requires 0 <= i < |f.intents| =>
      if Stale(f.intents[i], now) then f.intents[i].(status := Abandoned) else f.intents[i]))
  }

  // ---------------------------------------------------------------------
  // What one row may do
  // ---------------------------------------------------------------------

  /** Who and what a row is about never changes, and a closed row never changes at all. */
  ghost predicate RowAdvances(a: Intent, b: Intent) {
    && a.user == b.user && a.reference == b.reference
    && a.provider == b.provider && a.createdAt == b.createdAt
    && (a.status != Pending ==> b == a)
    && (b.status == Pending ==> b == a)
  }

  ghost predicate TableAdvances(a: seq<Intent>, b: seq<Intent>) {
    |a| <= |b| && forall i :: 0 <= i < |a| ==> RowAdvances(a[i], b[i])
  }

  lemma TableAdvancesTransitive(a: seq<Intent>, b: seq<Intent>, c: seq<Intent>)
    requires TableAdvances(a, b) && TableAdvances(b, c)
    ensures TableAdvances(a, c)
  {
    forall i | 0 <= i < |a| ensures RowAdvances(a[i], c[i]) {
      assert RowAdvances(a[i], b[i]) && RowAdvances(b[i], c[i]);
    }
  }

  /**
   When a confirmed charge is written, the row ends `succeeded` exactly when it
   was still pending or had succeeded before. The caller hears "succeeded" and
   the ledger holds the credit either way, so a row already abandoned or failed
   keeps its status although its user was credited.
   */
  lemma ReportedSuccessMatchesTheRow(f: Funds, id: nat, user: Uuid, reference: string, amount: Naira)
    requires id < |f.intents| && amount > 0.0
    ensures var s := Settle(f, id, user, reference, Answered(ChargeSucceeded(amount)));
            && s.reported == Ok(Succeeded)
            && Find(s.funds.book, CreditKey(reference)).Some?
            && (s.funds.intents[id].status == Succeeded
                <==> f.intents[id].status == Pending || f.intents[id].status == Succeeded)
  {
    var p := Post(f.book, CreditJournal(user, reference, amount));
    assert p.book[p.id].key == CreditKey(reference);
  }

  /**
   For every answer of the provider: the status reported is the status the row then has
   exactly when the row was pending or already had it. Anything else was closed by
   someone else between the read and the write.
   */
  lemma ReportIsTheRowsIff(f: Funds, id: nat, user: Uuid, reference: string, verdict: Verdict)
    requires id < |f.intents|
    ensures var s := Settle(f, id, user, reference, verdict);
      s.reported.Ok? ==>
        (s.funds.intents[id].status == s.reported.value
         <==> f.intents[id].status == Pending || f.intents[id].status == s.reported.value)
    ensures var s := Settle(f, id, user, reference, verdict);
      s.reported.Err? ==> s.funds == f
  {
  }

  /**
   The caller is told what the provider said, whatever the row was: only an amount that cannot be
   credited, or a negative one for a row still pending, is an error instead.
   */
  lemma TheCallerHearsTheProvider(f: Funds, id: nat, user: Uuid, reference: string, verdict: Verdict)
    requires id < |f.intents|
    ensures var told := Settle(f, id, user, reference, verdict).reported;
      match verdict
      case Unreachable => told == Ok(Pending)
      case Answered(ChargePending) => told == Ok(Pending)
      case Answered(ChargeFailed(_)) => told == Ok(Failed)
      case Answered(ChargeSucceeded(amount)) =>
        && (told == Err(ZeroCredit) <==> amount == 0.0)
        && (told == Err(AmountRejected) <==> amount < 0.0 && f.intents[id].status == Pending)
        && (told == Ok(Succeeded) <==> amount > 0.0 || (amount < 0.0 && f.intents[id].status != Pending))
  {
  }

  /**
   What a pending top-up becomes by the provider's reply, field by field: failed exactly when
   the charge failed or was reversed, succeeded for the provider's kobo exactly when it succeeded
   with a positive figure, and as it was, reported pending, when nothing definite came back.
   */
  lemma AReplySettles(f: Funds, id: nat, user: Uuid, reference: string, reply: Reply, asked: Naira)
    requires id < |f.intents| && f.intents[id].status == Pending
    ensures var s := Settle(f, id, user, reference, Verify(Paystack, reply, asked));
      && s.funds.intents == f.intents[id := s.funds.intents[id]]
      && (s.funds.intents[id].status == Failed
          <==> reply.Data? && (reply.status == "failed" || reply.status == "reversed"))
      && (s.funds.intents[id].status == Succeeded <==> reply.Data? && reply.status == "success" && reply.kobo > 0)
      && (s.funds.intents[id].status == Succeeded ==> s.funds.intents[id].amount * 100.0 == reply.kobo as real)
      && (s.reported == Ok(s.funds.intents[id].status) || (s.reported.Err? && s.funds == f))
      && (s.reported.Err? <==> reply.Data? && reply.status == "success" && reply.kobo <= 0)
      && (!(reply.Data? && reply.status in ["success", "failed", "reversed"]) ==> s == Settled(f, Ok(Pending)))
  {
    assert f.intents[id := f.intents[id]] == f.intents;
    if reply.Data? && reply.status == "success" {
      assert (reply.kobo as real / 100.0 > 0.0) <==> reply.kobo > 0;
    }
  }

  /** What the ledger gains from a reply: at most one journal, that user's credit of the provider's kobo. */
  lemma AReplyCredits(f: Funds, id: nat, user: Uuid, reference: string, reply: Reply, asked: Naira)
    requires id < |f.intents| && f.intents[id].status == Pending
    ensures var s := Settle(f, id, user, reference, Verify(Paystack, reply, asked));
      && (s.funds.intents[id].status != Succeeded ==> s.funds.book == f.book)
      && (s.funds.intents[id].status == Succeeded && Find(f.book, CreditKey(reference)).None? ==>
            reply.Data? && |s.funds.book| == |f.book| + 1 && f.book <= s.funds.book
            && var j := s.funds.book[|f.book|];
               && j.kind == NgnDeposit && j.reference == reference && Render(j.key) == reference + ":credit"
               && |j.entries| == 2
               && j.entries[0] == Entry(Account(NgnFloat, None), Ngn, reply.kobo as real / 100.0)
               && j.entries[1] == Entry(Account(UserNgn, Some(user)), Ngn, -(reply.kobo as real / 100.0)))
  {
  }

  /** The stand-in provider confirms what was asked for. */
  lemma TheStubConfirms(f: Funds, id: nat, user: Uuid, reference: string, reply: Reply, asked: Naira)
    requires id < |f.intents| && f.intents[id].status == Pending && asked > 0.0
    ensures var s := Settle(f, id, user, reference, Verify(Stub, reply, asked));
      s.reported == Ok(Succeeded) && s.funds.intents[id].status == Succeeded && s.funds.intents[id].amount == asked
  {
  }

  /** An intent is opened exactly for 100 to 1,000,000 naira in whole kobo under a reference nobody has. */
  lemma AnIntentIsOpenedIff(f: Funds, user: Uuid, amount: Naira, scale: nat, provider: Provider, reference: string,
                            now: int)
    ensures var r := Create(f, user, amount, scale, provider, reference, now);
      && (r == Err(BadAmount) <==> amount < 100.0 || amount > 1_000_000.0 || scale > 2)
      && (r == Err(DuplicateReference) <==>
            100.0 <= amount <= 1_000_000.0 && scale <= 2
            && exists i :: 0 <= i < |f.intents| && f.intents[i].reference == reference)
      && (r.Err? ==> r.error == BadAmount || r.error == DuplicateReference)
      && (r.Ok? ==>
            && r.value.book == f.book && |r.value.intents| == |f.intents| + 1 && f.intents <= r.value.intents
            && var x := r.value.intents[|f.intents|];
               && x.user == user && x.amount == amount && x.provider == provider && x.reference == reference
               && x.status == Pending && x.credited == None && x.createdAt == now)
  {
  }

  /** The bulk update abandons exactly the live provider's pending rows older than twenty-four hours. */
  lemma ATopUpIsAbandonedIff(f: Funds, now: int, i: nat)
    requires i < |f.intents|
    ensures var a, b := f.intents[i], Abandon(f, now).intents[i];
      if a.status == Pending && a.provider == Paystack && a.createdAt < now - 24 * 60 * 60
      then b == a.(status := Abandoned) else b == a
  {
  }

  // ---------------------------------------------------------------------
  // The handlers, transaction by transaction
  // ---------------------------------------------------------------------

  class FundingStore {
    var book: Book
    var intents: seq<Intent>

    function State(): Funds
      reads this
    {
      Funds(book, intents)
    }

    constructor ()
      ensures State() == Funds([], [])
    {
      book, intents := [], [];
    }

    method CreateIntent(user: Uuid, amount: Naira, scale: nat, provider: Provider, reference: string, now: int)
      returns (r: Result<nat, FundingError>)
      modifies this
      ensures Create(old(State()), user, amount, scale, provider, reference, now) ==
              if r.Ok? then Ok(State()) else Err(r.error)
      ensures r.Ok? ==> r.value == |old(intents)| && intents[r.value].status == Pending && book == old(book)
      ensures r.Err? ==> State() == old(State())
    {
      if amount < MIN_FUNDING_NGN || amount > MAX_FUNDING_NGN || scale > MAX_SCALE {
        return Err(BadAmount);
      }
      if ReferenceTaken(intents, reference) {
        return Err(DuplicateReference);
      }
      r := Ok(|intents|);
      intents := intents + [Intent(user, amount, provider, reference, Pending, None, now)];
    }

    /** Post the credit, then write the row: both or neither. */
    method CreditDeposit(id: nat, user: Uuid, reference: string, amount: Naira) returns (r: Result<(), FundingError>)
      requires id < |intents|
      modifies this
      ensures Credit(old(State()), id, user, reference, amount) ==
              if r.Ok? then Ok(State()) else Err(r.error)
      ensures r.Err? ==> State() == old(State())
      ensures TableAdvances(old(intents), intents)
    {
      if amount == 0.0 {
        return Err(ZeroCredit);
      }
      var before := book;
      var posting := Post(book, CreditJournal(user, reference, amount));
      book := posting.book;
      if intents[id].status == Pending {
        if amount <= 0.0 {
          book := before;
          return Err(AmountRejected);
        }
        intents := intents[id := intents[id].(status := Succeeded, amount := amount, credited := Some(posting.id))];
      }
      return Ok(());
    }

    /** One answer of the provider, applied to its intent. */
    method SettleIntent(id: nat, user: Uuid, reference: string, verdict: Verdict)
      returns (r: Result<Status, FundingError>)
      requires id < |intents|
      modifies this
      ensures Settled(State(), r) == Settle(old(State()), id, user, reference, verdict)
      ensures |intents| == |old(intents)| && TableAdvances(old(intents), intents)
    {
      match verdict {
        case Unreachable =>
          return Ok(Pending);
        case Answered(ChargePending) =>
          return Ok(Pending);
        case Answered(ChargeFailed(_)) =>
          if intents[id].status == Pending {
            intents := intents[id := intents[id].(status := Failed)];
          }
          return Ok(Failed);
        case Answered(ChargeSucceeded(amount)) =>
          var credited := CreditDeposit(id, user, reference, amount);
          match credited {
            case Ok(_) => return Ok(Succeeded);
            case Err(e) => return Err(e);
          }
      }
    }

    /** The page poll, undisturbed: a closed intent is reported as stored, an open one is settled first. */
    method GetIntent(id: nat, user: Uuid, provider: Provider, reply: Reply) returns (r: Result<Status, FundingError>)
      modifies this
      ensures id >= |old(intents)| || old(intents)[id].user != user ==> r == Err(NotFound) && State() == old(State())
      ensures id < |old(intents)| && old(intents)[id].user == user ==>
        var row := old(intents)[id];
        if row.status == Pending
        then Settled(State(), r) == Settle(old(State()), id, user, row.reference, Verify(provider, reply, row.amount))
        else State() == old(State()) && r == Ok(row.status)
      ensures id < |old(intents)| && old(intents)[id].user == user && old(intents)[id].status == Pending
              && provider == Paystack ==>
        && |intents| == |old(intents)|
        && (intents[id].status == Failed
            <==> reply.Data? && (reply.status == "failed" || reply.status == "reversed"))
        && (intents[id].status == Succeeded <==> reply.Data? && reply.status == "success" && reply.kobo > 0)
        && (intents[id].status == Succeeded ==> intents[id].amount * 100.0 == reply.kobo as real)
        && (!(reply.Data? && reply.status in ["success", "failed", "reversed"]) ==>
              State() == old(State()) && r == Ok(Pending))
    {
      if id >= |intents| || intents[id].user != user {
        return Err(NotFound);
      }
      var row := intents[id];
      if row.status == Pending {
        AReplySettles(State(), id, user, row.reference, reply, row.amount);
        r := SettleIntent(id, user, row.reference, Verify(provider, reply, row.amount));
      } else {
        r := Ok(row.status);
      }
    }
  }
}
