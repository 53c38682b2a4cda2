/**
 The operator audit log. Each row's hash covers the previous hash and the row's
 fields run together with nothing between them; the head hash still pins down the
 whole log, or else exhibits two different texts with the same hash.
 */
module AuditChain {
  import opened Base
  import opened Json

  const ACTIONS: set<string> := {"number_recheck", "number_refund", "sell_settings"}

  /** What an operator did. `before` and `after` are JSON objects. */
  datatype Entry = Entry(actor: Uuid, action: string, target: Uuid, before: Fields, after: Fields)

  predicate IsHash(s: string) {
    |s| == 64 && forall i :: 0 <= i < 64 ==> IsHexDigit(s[i])
  }

  /** The digest, of which nothing is known but the shape of its output. */
  type Digest = string -> string

  ghost predicate HexDigest(h: Digest) {
    forall s :: IsHash(h(s))
  }

  function Payload(prev: Option<string>, e: Entry): string {
    (if prev.Some? then prev.value else "")
    + "admin" + e.actor + e.action + e.target + Print(Object(e.before)) + Print(Object(e.after))
  }

  function Head(h: Digest, log: seq<Entry>): Option<string> {
    if log == [] then None
    else Some(h(Payload(Head(h, log[..|log| - 1]), log[|log| - 1])))
  }

  // ---------------------------------------------------------------------
  // Unique decoding
  // ---------------------------------------------------------------------

  /** No action name begins another, so the name ends where it must. */
  lemma ActionsPrefixFree(a: string, x: string, b: string, y: string)
    requires a in ACTIONS && b in ACTIONS && a + x == b + y
    ensures a == b && x == y
  {
    assert (a + x)[0] == a[0] && (b + y)[0] == b[0];
    assert (a + x)[9] == a[9] && (b + y)[9] == b[9];
    SplitEqual(a, x, b, y);
  }

  function Body(e: Entry): string {
    e.actor + (e.action + (e.target + (Print(Object(e.before)) + Print(Object(e.after)))))
  }

  lemma PayloadParts(prev: Option<string>, e: Entry)
    ensures Payload(prev, e) == (if prev.Some? then prev.value else "") + ("admin" + Body(e))
  {
  }

  lemma BodyUnique(e: Entry, f: Entry)
    requires Body(e) == Body(f) && e.action in ACTIONS && f.action in ACTIONS
    ensures e == f
  {
    var e3 := Print(Object(e.before)) + Print(Object(e.after));
    var f3 := Print(Object(f.before)) + Print(Object(f.after));
    SplitEqual(e.actor, e.action + (e.target + e3), f.actor, f.action + (f.target + f3));
    ActionsPrefixFree(e.action, e.target + e3, f.action, f.target + f3);
    SplitEqual(e.target, e3, f.target, f3);
    PrintUnique(Object(e.before), Print(Object(e.after)), Object(f.before), Print(Object(f.after)));
    assert Print(Object(e.after)) + "" == Print(Object(f.after)) + "";
    PrintUnique(Object(e.after), "", Object(f.after), "");
  }

  /** The hashed text determines whether there was a previous hash, that hash, and every field of the row. */
  lemma PayloadUnique(p: Option<string>, e: Entry, q: Option<string>, f: Entry)
    requires p.Some? ==> IsHash(p.value)
    requires q.Some? ==> IsHash(q.value)
    requires e.action in ACTIONS && f.action in ACTIONS
    requires Payload(p, e) == Payload(q, f)
    ensures p == q && e == f
  {
    var s := Payload(p, e);
    PayloadParts(p, e);
    PayloadParts(q, f);
    assert if p.Some? then IsHexDigit(s[2]) else s[2] == 'm';
    assert if q.Some? then IsHexDigit(s[2]) else s[2] == 'm';
    if p.Some? <==> q.Some? {
      SplitEqual(if p.Some? then p.value else "", "admin" + Body(e),
                 if q.Some? then q.value else "", "admin" + Body(f));
      SplitEqual("admin", Body(e), "admin", Body(f));
      BodyUnique(e, f);
    }
  }

  /** Where each field stands in the hashed text: the previous hash, "admin", actor, action, target, before, after. */
  lemma PayloadLayout(p: Option<string>, e: Entry)
    requires p.Some? ==> |p.value| == 64
    ensures var s := Payload(p, e);
      var n := if p.Some? then 64 else 0;
      var k := n + 41 + |e.action|;
      var before, after := Print(Object(e.before)), Print(Object(e.after));
      && |s| == k + 36 + |before| + |after|
      && (p.Some? ==> s[..64] == p.value) && s[n..n + 5] == "admin" && s[n + 5..n + 41] == e.actor
      && s[n + 41..k] == e.action && s[k..k + 36] == e.target
      && s[k + 36..k + 36 + |before|] == before && s[k + 36 + |before|..] == after
  {
    var x := if p.Some? then p.value else "";
    var a := x + "admin";
    var b := a + e.actor;
    var c := b + e.action;
    var d := c + e.target;
    var f := d + Print(Object(e.before));
    assert Payload(p, e) == f + Print(Object(e.after));
  }

  // ---------------------------------------------------------------------
  // The head pins the log
  // ---------------------------------------------------------------------

  ghost predicate WellFormed(log: seq<Entry>) {
    forall i :: 0 <= i < |log| ==> log[i].action in ACTIONS
  }

  datatype Collision = Collision(left: string, right: string)

  ghost predicate Collides(h: Digest, c: Option<Collision>) {
    c.Some? && c.value.left != c.value.right && h(c.value.left) == h(c.value.right)
  }

  /** Two logs with the same head are the same log, or the walk back from the head finds a collision of the digest. */
  lemma {:induction false} HeadPinsTheLog(h: Digest, a: seq<Entry>, b: seq<Entry>)
    returns (collision: Option<Collision>)
    requires HexDigest(h) && WellFormed(a) && WellFormed(b) && Head(h, a) == Head(h, b)
    ensures a == b || Collides(h, collision)
    decreases |a|
  {
    collision := None;
    if a != [] && b != [] {
      var n, m := |a| - 1, |b| - 1;
      var p, q := Head(h, a[..n]), Head(h, b[..m]);
      if Payload(p, a[n]) != Payload(q, b[m]) {
        collision := Some(Collision(Payload(p, a[n]), Payload(q, b[m])));
      } else {
        PayloadUnique(p, a[n], q, b[m]);
        collision := HeadPinsTheLog(h, a[..n], b[..m]);
        assert a == a[..n] + [a[n]] && b == b[..m] + [b[m]];
      }
    }
  }

  // ---------------------------------------------------------------------
  // The table
  // ---------------------------------------------------------------------

  datatype Row = Row(entry: Entry, prev: Option<string>, hash: string)

  function Entries(rows: seq<Row>): (r: seq<Entry>)
    ensures |r| == |rows| && forall i :: 0 <= i < |r| ==> r[i] == rows[i].entry
  {
    seq(|rows|, i requires 0 <= i < |rows| => rows[i].entry)
  }

  ghost predicate Link(h: Digest, log: seq<Entry>, row: Row, i: nat)
    requires i < |log|
  {
    row.prev == Head(h, log[..i]) && Some(row.hash) == Head(h, log[..i + 1])
  }

  /** Each row stores the head before it and the head after it. */
  ghost predicate Chained(h: Digest, rows: seq<Row>) {
    forall i :: 0 <= i < |rows| ==> Link(h, Entries(rows), rows[i], i)
  }

  class AuditLog {
    const h: Digest
    var rows: seq<Row>

    constructor (h: Digest)
      ensures this.h == h && rows == []
    {
      this.h := h;
      rows := [];
    }

    /** Read the newest hash, hash the new row with it, insert: one append at a time. */
    method InsertAudit(e: Entry) returns (id: nat)
      modifies this
      ensures id == |old(rows)| && Entries(rows) == Entries(old(rows)) + [e] && old(rows) <= rows
      ensures old(Chained(h, rows)) ==> Chained(h, rows)
    {
      var prev := if rows == [] then None else Some(rows[|rows| - 1].hash);
      ghost var before := Entries(rows);
      id := |rows|;
      rows := rows + [Row(e, prev, h(Payload(prev, e)))];
      assert Entries(rows) == before + [e];
      if old(Chained(h, rows)) {
        ChainedPush(h, old(rows), rows[id]);
      }
    }
  }

  lemma {:induction false} ChainedPush(h: Digest, rows: seq<Row>, row: Row)
    requires Chained(h, rows)
    requires row.prev == (if rows == [] then None else Some(rows[|rows| - 1].hash))
    requires row.hash == h(Payload(row.prev, row.entry))
    ensures Chained(h, rows + [row])
  {
    var n, more := |rows|, rows + [row];
    assert Entries(more) == Entries(rows) + [row.entry];
    HeadOf(h, rows);
    forall i | 0 <= i < |more| ensures Link(h, Entries(more), more[i], i) {
      if i < n {
        LinkLonger(h, Entries(rows), row.entry, rows[i], i);
      } else {
        NewLink(h, Entries(rows), row);
      }
    }
  }

  lemma {:induction false} LinkLonger(h: Digest, log: seq<Entry>, e: Entry, row: Row, i: nat)
    requires i < |log| && Link(h, log, row, i)
    ensures Link(h, log + [e], row, i)
  {
    assert (log + [e])[..i] == log[..i] && (log + [e])[..i + 1] == log[..i + 1];
  }

  lemma {:induction false} NewLink(h: Digest, log: seq<Entry>, row: Row)
    requires row.prev == Head(h, log) && row.hash == h(Payload(row.prev, row.entry))
    ensures Link(h, log + [row.entry], row, |log|)
  {
    var more := log + [row.entry];
    assert more[..|log|] == log && more[..|log| + 1] == more;
  }

  /** The stored head. */
  lemma {:induction false} HeadOf(h: Digest, rows: seq<Row>)
    requires Chained(h, rows)
    ensures Head(h, Entries(rows)) == if rows == [] then None else Some(rows[|rows| - 1].hash)
  {
    assert Entries(rows)[..|rows|] == Entries(rows);
    assert rows != [] ==> Link(h, Entries(rows), rows[|rows| - 1], |rows| - 1);
  }

  /** In the table: the same last hash means the same history of operator actions. */
  lemma {:induction false} LastHashPinsTheTable(h: Digest, a: seq<Row>, b: seq<Row>)
    returns (collision: Option<Collision>)
    requires HexDigest(h) && Chained(h, a) && Chained(h, b)
    requires WellFormed(Entries(a)) && WellFormed(Entries(b))
    requires a != [] && b != [] && a[|a| - 1].hash == b[|b| - 1].hash
    ensures a == b || Collides(h, collision)
  {
    HeadOf(h, a);
    HeadOf(h, b);
    collision := HeadPinsTheLog(h, Entries(a), Entries(b));
    if Entries(a) == Entries(b) {
      EntriesDetermineRows(h, a, b);
    }
  }

  /** The stored hashes add nothing to the entries. */
  lemma EntriesDetermineRows(h: Digest, a: seq<Row>, b: seq<Row>)
    requires Chained(h, a) && Chained(h, b) && Entries(a) == Entries(b)
    ensures a == b
  {
    forall i | 0 <= i < |a| ensures a[i] == b[i] {
      assert a[i].entry == Entries(a)[i] && b[i].entry == Entries(b)[i];
      assert Link(h, Entries(a), a[i], i) && Link(h, Entries(b), b[i], i);
    }
  }
}
