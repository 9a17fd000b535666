/** Webhook deliveries and redirect verifications of one payment: they may be repeated and arrive in
    any order, and the rows end up the same. */
module Convergence {
  import opened Common
  import opened Schema
  import opened Payments

  datatype Kind = ChargeSucceeded | ChargeFailed | VerifiedPaid(asExpected: bool)

  datatype Delivery = Delivery(kind: Kind, at: nat)

  /** What a delivery says of the payment. */
  function Verdict(d: Delivery): Status {
    if d.kind.ChargeFailed? then Failed else Success
  }

  ghost function Deliver(w: World, ref: string, t: nat, trxId: string, d: Delivery): World {
    var v := w.(now := d.at);
    match d.kind
    case ChargeSucceeded => FlutterwaveHook(v, ref, ChargeCompleted(Successful, trxId)).world
    case ChargeFailed => FlutterwaveHook(v, ref, ChargeCompleted(Unsuccessful, trxId)).world
    case VerifiedPaid(asExpected) => Verify(v, ref, t, Paid(asExpected), trxId).world
  }

  ghost function DeliverAll(w: World, ref: string, t: nat, trxId: string, ds: seq<Delivery>): World
    decreases |ds|
  {
    if ds == [] then w else DeliverAll(Deliver(w, ref, t, trxId, ds[0]), ref, t, trxId, ds[1..])
  }

  // ---------------------------------------------------------------- the settled state

  function Rank(status: Status): nat {
    match status
    case Success => 2
    case Failed => 1
    case _ => 0
  }

  function Higher(x: Status, y: Status): Status {
    if Rank(x) < Rank(y) then y else x
  }

  function Highest(status: Status, ds: seq<Delivery>): Status
    decreases |ds|
  {
    if ds == [] then status else Highest(Higher(status, Verdict(ds[0])), ds[1..])
  }

  /** The ledger once transaction `t` has reached `status`. */
  function Settled(l: Ledger, t: nat, trxId: string, status: Status): Ledger
    requires t in l.trxs
  {
    if status == l.trxs[t].status then l
    else if status == Success then ActivateRelated(SetStatus(l, t, Success, trxId), t)
    else SetStatus(l, t, status, trxId)
  }

  ghost predicate IsOnly(l: Ledger, ref: string, t: nat) {
    HasReference(l, ref, t) && forall u :: HasReference(l, ref, u) ==> u == t
  }

  lemma SettledRow(l: Ledger, ref: string, t: nat, trxId: string, status: Status)
    requires IsOnly(l, ref, t)
    ensures var m := Settled(l, t, trxId, status);
      && IsOnly(m, ref, t) && m.trxs[t].status == status
      && m.trxs[t].createdAt == l.trxs[t].createdAt && m.trxs[t].subscriptionId == l.trxs[t].subscriptionId
      && m.subs.Keys == l.subs.Keys && m.nextTrx == l.nextTrx && m.nextSub == l.nextSub
  {
    var m := Settled(l, t, trxId, status);
    assert forall u :: u in m.trxs ==> u in l.trxs && m.trxs[u].referenceCode == l.trxs[u].referenceCode;
    forall u | HasReference(m, ref, u) ensures u == t {
      assert HasReference(l, ref, u);
    }
  }

  lemma NewestOnly(l: Ledger, ref: string, t: nat)
    requires IsOnly(l, ref, t)
    ensures Newest(l, ref) == Some(t)
  {
  }

  lemma SettledTwice(l: Ledger, t: nat, trxId: string, x: Status, y: Status)
    requires t in l.trxs && l.trxs[t].status != Success
    requires x == l.trxs[t].status || x == Failed
    requires y == Success || (y == Failed && Rank(x) < Rank(y))
    ensures Settled(Settled(l, t, trxId, x), t, trxId, y) == Settled(l, t, trxId, y)
  {
    var m := Settled(l, t, trxId, x);
    if x != l.trxs[t].status {
      assert SetStatus(m, t, y, trxId) == SetStatus(l, t, y, trxId) by {
        assert m.trxs[t := SetStatus(l, t, y, trxId).trxs[t]] == l.trxs[t := SetStatus(l, t, y, trxId).trxs[t]];
      }
    }
  }

  /** Once paid, the subscription is active and a further activation does nothing. */
  lemma SettledIsActive(l: Ledger, t: nat, trxId: string)
    requires t in l.trxs && l.trxs[t].status != Success
    ensures var m := Settled(l, t, trxId, Success); ActivateRelated(m, t) == m
  {
  }

  lemma DeliverOne(w: World, l: Ledger, ref: string, t: nat, trxId: string, b: Status, d: Delivery)
    requires IsOnly(l, ref, t) && l.trxs[t].status != Success && (b == l.trxs[t].status || b == Failed || b == Success)
    requires w.ledger == Settled(l, t, trxId, b) && !IsNewCharge(l.trxs[t], d.at)
    ensures Deliver(w, ref, t, trxId, d) == w.(ledger := Settled(l, t, trxId, Higher(b, Verdict(d))), now := d.at)
  {
    hide Settled, IsOnly, SetStatus, ActivateRelated, Newest;
    var m := w.ledger;
    SettledRow(l, ref, t, trxId, b);
    NewestOnly(m, ref, t);
    assert t in m.trxs && HasReference(m, ref, t) by { IsOnlyHas(m, ref, t); }
    if b == Success {
      assert t in l.trxs by { IsOnlyHas(l, ref, t); }
      SettledIsActive(l, t, trxId);
      PaidAgain(m, t, trxId);
    } else {
      assert t in l.trxs by { IsOnlyHas(l, ref, t); }
      SettledTwice(l, t, trxId, b, Success);
      SettledDef(m, t, trxId);
      if Rank(b) < Rank(Failed) {
        SettledTwice(l, t, trxId, b, Failed);
      } else {
        assert b == Failed;
      }
    }
  }

  lemma IsOnlyHas(l: Ledger, ref: string, t: nat)
    requires IsOnly(l, ref, t)
    ensures HasReference(l, ref, t)
  {
  }

  lemma PaidAgain(m: Ledger, t: nat, trxId: string)
    requires t in m.trxs && m.trxs[t].status == Success
    ensures SetStatus(m, t, Success, trxId) == m
  {
  }

  lemma SettledDef(m: Ledger, t: nat, trxId: string)
    requires t in m.trxs && m.trxs[t].status != Success
    ensures t in SetStatus(m, t, Success, trxId).trxs
    ensures ActivateRelated(SetStatus(m, t, Success, trxId), t) == Settled(m, t, trxId, Success)
    ensures SetStatus(m, t, Failed, trxId) == Settled(m, t, trxId, Failed)
    ensures m.trxs[t].status == Failed ==> SetStatus(m, t, Failed, trxId) == m
  {
  }

  lemma {:induction false} DeliverRest(w: World, l: Ledger, ref: string, t: nat, trxId: string, b: Status, ds: seq<Delivery>)
    requires IsOnly(l, ref, t) && l.trxs[t].status != Success && (b == l.trxs[t].status || b == Failed || b == Success)
    requires w.ledger == Settled(l, t, trxId, b)
    requires forall d :: d in ds ==> !IsNewCharge(l.trxs[t], d.at)
    ensures var v := DeliverAll(w, ref, t, trxId, ds); v == w.(ledger := Settled(l, t, trxId, Highest(b, ds)), now := v.now)
    decreases |ds|
  {
    hide Settled, Deliver, IsNewCharge;
    if ds != [] {
      DeliverOne(w, l, ref, t, trxId, b, ds[0]);
      DeliverRest(Deliver(w, ref, t, trxId, ds[0]), l, ref, t, trxId, Higher(b, Verdict(ds[0])), ds[1..]);
    }
  }

  /** Every list of deliveries of a payment that is not confirmed yet and not a renewal settles the
      ledger at the highest status under initiated, pending < failed < success, and changes nothing
      else but the clock. */
  lemma DeliveriesSettle(w: World, ref: string, t: nat, trxId: string, ds: seq<Delivery>)
    requires IsOnly(w.ledger, ref, t) && w.ledger.trxs[t].status != Success
    requires forall d :: d in ds ==> !IsNewCharge(w.ledger.trxs[t], d.at)
    ensures var v := DeliverAll(w, ref, t, trxId, ds);
      v == w.(ledger := Settled(w.ledger, t, trxId, Highest(w.ledger.trxs[t].status, ds)), now := v.now)
  {
    DeliverRest(w, w.ledger, ref, t, trxId, w.ledger.trxs[t].status, ds);
  }

  // ---------------------------------------------------------------- order and repetition

  /** The highest status is at least as high as the start and every verdict, and is one of them. */
  lemma {:induction false} HighestIsMaximum(status: Status, ds: seq<Delivery>)
    ensures Rank(Highest(status, ds)) >= Rank(status)
    ensures forall d :: d in ds ==> Rank(Highest(status, ds)) >= Rank(Verdict(d))
    ensures Highest(status, ds) == status || exists d :: d in ds && Verdict(d) == Highest(status, ds)
    ensures Rank(Highest(status, ds)) == Rank(status) ==> Highest(status, ds) == status
    decreases |ds|
  {
    if ds != [] {
      HighestIsMaximum(Higher(status, Verdict(ds[0])), ds[1..]);
      assert ds[0] in ds;
      assert forall d :: d in ds ==> d == ds[0] || d in ds[1..];
      assert forall d :: d in ds[1..] ==> d in ds;
    }
  }

  /** Every verdict of `ds` is also one of `es`. */
  ghost predicate Covers(es: seq<Delivery>, ds: seq<Delivery>) {
    forall d :: d in ds ==> exists e :: e in es && Verdict(e) == Verdict(d)
  }

  lemma HighestCovered(status: Status, ds: seq<Delivery>, es: seq<Delivery>)
    requires Covers(es, ds)
    ensures Rank(Highest(status, ds)) <= Rank(Highest(status, es))
  {
    hide Highest;
    HighestIsMaximum(status, ds);
    HighestIsMaximum(status, es);
    if Highest(status, ds) != status {
      var d :| d in ds && Verdict(d) == Highest(status, ds);
      var e :| e in es && Verdict(e) == Verdict(d);
    }
  }

  lemma HighestIgnoresOrder(status: Status, ds: seq<Delivery>, es: seq<Delivery>)
    requires Covers(es, ds) && Covers(ds, es)
    ensures Highest(status, ds) == Highest(status, es)
  {
    hide Highest, Covers;
    HighestCovered(status, ds, es);
    HighestCovered(status, es, ds);
    HighestIsMaximum(status, ds);
    HighestIsMaximum(status, es);
  }

  /** Two lists of deliveries with the same verdicts, in whatever order, however often repeated and
      at whatever times within the window, leave the same rows. */
  lemma DeliveriesConverge(w: World, ref: string, t: nat, trxId: string, ds: seq<Delivery>, es: seq<Delivery>)
    requires IsOnly(w.ledger, ref, t) && w.ledger.trxs[t].status != Success
    requires forall d :: d in ds || d in es ==> !IsNewCharge(w.ledger.trxs[t], d.at)
    requires Covers(es, ds) && Covers(ds, es)
    ensures DeliverAll(w, ref, t, trxId, ds).(now := w.now) == DeliverAll(w, ref, t, trxId, es).(now := w.now)
  {
    DeliveriesSettle(w, ref, t, trxId, ds);
    DeliveriesSettle(w, ref, t, trxId, es);
    HighestIgnoresOrder(w.ledger.trxs[t].status, ds, es);
  }
}
