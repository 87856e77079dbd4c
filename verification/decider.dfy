/**
 The payment decider of the newer generation: an in-memory store of
 payment-request, payment and delivery records, the filtered sums over
 them, the cost per byte, and the decision whether to pay a peer.
 */
module Decider {
  import opened Ledger

  /** A payment request as the client builds it before asking the decider;
      the same record is stored as the payment once the decider agrees. */
  datatype PaymentRequest = PaymentRequest(
    sourceAmount: real,
    publicKey: PublicKey,
    destinationAccount: string,
    torrentHash: string,
    torrentBytesRemaining: int,
    timestamp: string)

  /** Bytes received from a peer for a torrent. */
  datatype Delivery = Delivery(publicKey: PublicKey, torrentHash: string, bytes: nat)

  /** A record in a store, under the unique id the store gave it. */
  datatype Stored<T> = Stored(id: nat, record: T)

  /** A store query: every field that is given must be equal. */
  datatype Filter = Filter(publicKey: Option<PublicKey>, torrentHash: Option<string>)

  /** The filter the decision uses: one peer on one torrent. */
  function PeerOnTorrent(publicKey: PublicKey, torrentHash: string): Filter
  {
    Filter(Some(publicKey), Some(torrentHash))
  }

  predicate Matches(f: Filter, publicKey: PublicKey, torrentHash: string)
  {
    && (f.publicKey.Some? ==> f.publicKey.value == publicKey)
    && (f.torrentHash.Some? ==> f.torrentHash.value == torrentHash)
  }

  function PaymentMatches(f: Filter): Stored<PaymentRequest> -> bool
  {
    (s: Stored<PaymentRequest>) => Matches(f, s.record.publicKey, s.record.torrentHash)
  }

  function DeliveryMatches(f: Filter): Stored<Delivery> -> bool
  {
    (s: Stored<Delivery>) => Matches(f, s.record.publicKey, s.record.torrentHash)
  }

  function SourceAmount(s: Stored<PaymentRequest>): real
  {
    s.record.sourceAmount
  }

  function DeliveredBytes(s: Stored<Delivery>): real
  {
    s.record.bytes as real
  }

  // ---------------------------------------------------------------------
  // Store queries

  /** The records of `xs` that `keep` accepts, in store order. */
  function Where<T(!new)>(xs: seq<T>, keep: T -> bool): (r: seq<T>)
    ensures |r| <= |xs|
    ensures forall x :: x in r <==> x in xs && keep(x)
  {
    if xs == [] then [] else
      var init := xs[..|xs| - 1];
      Where(init, keep) + (if keep(xs[|xs| - 1]) then [xs[|xs| - 1]] else [])
  }

  /** The exact sum of `value` over `xs` (the helper `sum`). */
  function Sum<T(!new)>(xs: seq<T>, value: T -> real): (r: real)
    ensures (forall x :: x in xs ==> value(x) >= 0.0) ==> r >= 0.0
  {
    if xs == [] then 0.0 else Sum(xs[..|xs| - 1], value) + value(xs[|xs| - 1])
  }

  /** The accumulator loop of the helper `sum`, proved to compute `Sum`. */
  method SumItems<T(!new)>(items: seq<T>, value: T -> real) returns (total: real)
    ensures total == Sum(items, value)
  {
    total := 0.0;
    for i := 0 to |items|
      invariant total == Sum(items[..i], value)
    {
      assert items[..i + 1][..i] == items[..i];
      total := total + value(items[i]);
    }
    assert items[..|items|] == items;
  }

  /** Total amount sent over the payments matching the filter: the
      specification of `Decider.GetTotalSent`. */
  function TotalSent(payments: seq<Stored<PaymentRequest>>, f: Filter): real
  {
    Sum(Where(payments, PaymentMatches(f)), SourceAmount)
  }

  /** Total bytes delivered over the deliveries matching the filter. */
  function BytesDelivered(deliveries: seq<Stored<Delivery>>, f: Filter): (r: real)
    ensures r >= 0.0
  {
    Sum(Where(deliveries, DeliveryMatches(f)), DeliveredBytes)
  }

  /** A BigNumber quotient: a finite value, or Infinity after a division by zero. */
  datatype Rate = Finite(value: real) | NonFinite

  /** Cost per byte: 0 while nothing was sent, otherwise total sent over
      bytes delivered, which is not finite when no byte was delivered. */
  function CostPerByte(payments: seq<Stored<PaymentRequest>>, deliveries: seq<Stored<Delivery>>, f: Filter): (r: Rate)
    ensures TotalSent(payments, f) == 0.0 ==> r == Finite(0.0)
    ensures TotalSent(payments, f) != 0.0 ==> (r.NonFinite? <==> BytesDelivered(deliveries, f) == 0.0)
    ensures r.Finite? ==> r.value * BytesDelivered(deliveries, f) == TotalSent(payments, f)
  {
    var totalSent := TotalSent(payments, f);
    var bytesDelivered := BytesDelivered(deliveries, f);
    if totalSent == 0.0 then Finite(0.0)
    else if bytesDelivered == 0.0 then NonFinite
    else Finite(totalSent / bytesDelivered)
  }

  /** The decision of `shouldSendPayment` for a request from `publicKey` on
      `torrentHash`: pay unless the cost per byte is not finite, that is,
      unless money was sent and no byte came back. */
  function Decide(payments: seq<Stored<PaymentRequest>>, deliveries: seq<Stored<Delivery>>,
                  publicKey: PublicKey, torrentHash: string): (pay: bool)
    ensures !pay <==> TotalSent(payments, PeerOnTorrent(publicKey, torrentHash)) != 0.0
                      && BytesDelivered(deliveries, PeerOnTorrent(publicKey, torrentHash)) == 0.0
  {
    CostPerByte(payments, deliveries, PeerOnTorrent(publicKey, torrentHash)).Finite?
  }

  /** Ejects the record with the given id. */
  function Eject<T(!new)>(xs: seq<Stored<T>>, id: nat): (r: seq<Stored<T>>)
    ensures forall s :: s in r <==> s in xs && s.id != id
  {
    Where(xs, (s: Stored<T>) => s.id != id)
  }

  ghost predicate IdsBelow<T>(xs: seq<Stored<T>>, bound: nat)
  {
    forall s :: s in xs ==> s.id < bound
  }

  // ---------------------------------------------------------------------
  // Lemmas about the queries

  /** A query keeps each accepted record exactly as many times as the store
      holds it, and no other record. */
  lemma {:induction false} WhereCounts<T(!new)>(xs: seq<T>, keep: T -> bool)
    ensures forall x :: multiset(Where(xs, keep))[x] == if keep(x) then multiset(xs)[x] else 0
  {
    if xs != [] {
      var init := xs[..|xs| - 1];
      assert xs == init + [xs[|xs| - 1]];
      WhereCounts(init, keep);
    }
  }

  /** Ejecting an id drops every record with that id and keeps every other
      record exactly as many times as it was stored. */
  lemma EjectCounts<T(!new)>(xs: seq<Stored<T>>, id: nat)
    ensures forall s :: multiset(Eject(xs, id))[s] == if s.id != id then multiset(xs)[s] else 0
  {
    WhereCounts(xs, (s: Stored<T>) => s.id != id);
  }

  lemma WhereSnoc<T(!new)>(xs: seq<T>, x: T, keep: T -> bool)
    ensures Where(xs + [x], keep) == Where(xs, keep) + (if keep(x) then [x] else [])
  {
    assert (xs + [x])[..|xs|] == xs;
  }

  lemma SumSnoc<T(!new)>(xs: seq<T>, x: T, value: T -> real)
    ensures Sum(xs + [x], value) == Sum(xs, value) + value(x)
  {
    assert (xs + [x])[..|xs|] == xs;
  }

  /** A query that keeps every record returns the whole store. */
  lemma {:induction false} WhereAll<T(!new)>(xs: seq<T>, keep: T -> bool)
    requires forall x :: x in xs ==> keep(x)
    ensures Where(xs, keep) == xs
  {
    if xs != [] {
      var init, last := xs[..|xs| - 1], xs[|xs| - 1];
      assert xs == init + [last];
      assert keep(last);
      forall x | x in init ensures keep(x) {
        assert x in xs;
      }
      WhereAll(init, keep);
      assert Where(xs, keep) == init + [last];
    }
  }

  /** A query that matches no record returns nothing. */
  lemma WhereNone<T(!new)>(xs: seq<T>, keep: T -> bool)
    requires forall x :: x in xs ==> !keep(x)
    ensures Where(xs, keep) == []
  {
  }

  /** Recording a payment adds its amount to exactly the totals of the
      filters it matches. */
  lemma TotalSentAfterRecord(payments: seq<Stored<PaymentRequest>>, s: Stored<PaymentRequest>, f: Filter)
    ensures TotalSent(payments + [s], f)
            == TotalSent(payments, f)
               + (if Matches(f, s.record.publicKey, s.record.torrentHash) then s.record.sourceAmount else 0.0)
  {
    var keep := PaymentMatches(f);
    WhereSnoc(payments, s, keep);
    if keep(s) {
      SumSnoc(Where(payments, keep), s, SourceAmount);
    } else {
      assert Where(payments + [s], keep) == Where(payments, keep);
    }
  }

  /** Recording a delivery of `b` bytes raises the bytes delivered by
      exactly `b` for the filters it matches, and by nothing for the others. */
  lemma BytesDeliveredAfterRecord(deliveries: seq<Stored<Delivery>>, s: Stored<Delivery>, f: Filter)
    ensures BytesDelivered(deliveries + [s], f)
            == BytesDelivered(deliveries, f)
               + (if Matches(f, s.record.publicKey, s.record.torrentHash) then s.record.bytes as real else 0.0)
  {
    var keep := DeliveryMatches(f);
    WhereSnoc(deliveries, s, keep);
    if keep(s) {
      SumSnoc(Where(deliveries, keep), s, DeliveredBytes);
    } else {
      assert Where(deliveries + [s], keep) == Where(deliveries, keep);
    }
  }

  /** With no matching payment, the total sent is 0. */
  lemma TotalSentWithoutMatch(payments: seq<Stored<PaymentRequest>>, f: Filter)
    requires forall s :: s in payments ==> !Matches(f, s.record.publicKey, s.record.torrentHash)
    ensures TotalSent(payments, f) == 0.0
  {
    WhereNone(payments, PaymentMatches(f));
  }

  /** A peer never paid on a torrent is always paid on its first request,
      whatever was delivered. */
  lemma FirstPaymentApproved(payments: seq<Stored<PaymentRequest>>, deliveries: seq<Stored<Delivery>>,
                             publicKey: PublicKey, torrentHash: string)
    requires forall s :: s in payments ==> s.record.publicKey != publicKey || s.record.torrentHash != torrentHash
    ensures Decide(payments, deliveries, publicKey, torrentHash)
  {
    TotalSentWithoutMatch(payments, PeerOnTorrent(publicKey, torrentHash));
  }

  /** Ejecting under an id that no record carries leaves the store as it was. */
  lemma EjectAbsent<T(!new)>(xs: seq<Stored<T>>, id: nat)
    requires forall s :: s in xs ==> s.id != id
    ensures Eject(xs, id) == xs
  {
    WhereAll(xs, (s: Stored<T>) => s.id != id);
  }

  /** Recording a payment under a fresh id and then ejecting that id
      restores the store, so every total sent returns to its prior value. */
  lemma RecordThenEjectRestores(payments: seq<Stored<PaymentRequest>>, p: PaymentRequest, id: nat)
    requires forall s :: s in payments ==> s.id != id
    ensures Eject(payments + [Stored(id, p)], id) == payments
    ensures forall f :: TotalSent(Eject(payments + [Stored(id, p)], id), f) == TotalSent(payments, f)
  {
    var xs := payments + [Stored(id, p)];
    WhereSnoc(payments, Stored(id, p), (s: Stored<PaymentRequest>) => s.id != id);
    EjectAbsent(payments, id);
  }

  // ---------------------------------------------------------------------
  // The store object

  /** The decider's three in-memory stores. `nextId` stands for the unique
      id generator: every stored record has an id below it. */
  class Decider {
    var paymentRequests: seq<Stored<PaymentRequest>>
    var payments: seq<Stored<PaymentRequest>>
    var deliveries: seq<Stored<Delivery>>
    var nextId: nat

    ghost predicate Valid()
      reads this
    {
      && IdsBelow(paymentRequests, nextId)
      && IdsBelow(payments, nextId)
      && IdsBelow(deliveries, nextId)
    }

    constructor ()
      ensures Valid()
      ensures paymentRequests == [] && payments == [] && deliveries == []
    {
      paymentRequests, payments, deliveries := [], [], [];
      nextId := 0;
    }

    method RecordPaymentRequest(r: PaymentRequest) returns (id: nat)
      requires Valid()
      modifies this
      ensures Valid()
      ensures id == old(nextId) && paymentRequests == old(paymentRequests) + [Stored(id, r)]
      ensures payments == old(payments) && deliveries == old(deliveries)
      ensures nextId == old(nextId) + 1
    {
      id := nextId;
      paymentRequests := paymentRequests + [Stored(id, r)];
      nextId := nextId + 1;
    }

    /** Stores a payment under a fresh id, which is returned. */
    method RecordPayment(p: PaymentRequest) returns (id: nat)
      requires Valid()
      modifies this
      ensures Valid()
      ensures id == old(nextId) && payments == old(payments) + [Stored(id, p)]
      ensures forall s :: s in old(payments) ==> s.id != id
      ensures paymentRequests == old(paymentRequests) && deliveries == old(deliveries)
      ensures nextId == old(nextId) + 1
    {
      id := nextId;
      payments := payments + [Stored(id, p)];
      nextId := nextId + 1;
    }

    /** Ejects the payment stored under `id`. */
    method RecordFailedPayment(id: nat)
      requires Valid()
      modifies this
      ensures Valid()
      ensures payments == Eject(old(payments), id)
      ensures paymentRequests == old(paymentRequests) && deliveries == old(deliveries)
      ensures nextId == old(nextId)
    {
      payments := Eject(payments, id);
    }

    method RecordDelivery(d: Delivery) returns (id: nat)
      requires Valid()
      modifies this
      ensures Valid()
      ensures id == old(nextId) && deliveries == old(deliveries) + [Stored(id, d)]
      ensures paymentRequests == old(paymentRequests) && payments == old(payments)
      ensures nextId == old(nextId) + 1
    {
      id := nextId;
      deliveries := deliveries + [Stored(id, d)];
      nextId := nextId + 1;
    }

    method GetTotalSent(f: Filter) returns (total: real)
      ensures total == TotalSent(payments, f)
    {
      var matching := Where(payments, PaymentMatches(f));
      total := SumItems(matching, SourceAmount);
    }

    method GetBytesDelivered(f: Filter) returns (bytes: real)
      ensures bytes == BytesDelivered(deliveries, f)
    {
      var matching := Where(deliveries, DeliveryMatches(f));
      bytes := SumItems(matching, DeliveredBytes);
    }

    method GetCostPerByte(f: Filter) returns (r: Rate)
      ensures r == CostPerByte(payments, deliveries, f)
    {
      var totalSent := GetTotalSent(f);
      var bytesDelivered := GetBytesDelivered(f);
      if totalSent == 0.0 {
        r := Finite(0.0);
      } else if bytesDelivered == 0.0 {
        r := NonFinite;
      } else {
        r := Finite(totalSent / bytesDelivered);
      }
    }

    /** Records the request, then refuses exactly when the cost per byte of
        that peer on that torrent is not finite. */
    method ShouldSendPayment(r: PaymentRequest) returns (decision: bool)
      requires Valid()
      modifies this
      ensures Valid()
      ensures paymentRequests == old(paymentRequests) + [Stored(old(nextId), r)]
      ensures payments == old(payments) && deliveries == old(deliveries)
      ensures nextId == old(nextId) + 1
      ensures decision == Decide(payments, deliveries, r.publicKey, r.torrentHash)
    {
      var _ := RecordPaymentRequest(r);
      var costPerByte := GetCostPerByte(PeerOnTorrent(r.publicKey, r.torrentHash));
      decision := costPerByte.Finite?;
    }
  }
}
