/**
 The newer generation's client: it charges peers per requested byte
 against their balance, asks them for payment when the balance does not
 cover a request, pays the peers it downloads from when the decider
 agrees, and credits peers when settlement confirms their payments.
 Calls on a wire and emitted events are recorded as effects; the choke
 state of each wire is kept in a map.
 */
module WtIlp {
  import opened Ledger
  import Decider

  /** The smallest amount the ledger can move. */
  const MIN_LEDGER_AMOUNT: real := 0.0001

  /** The payment asked of a peer whose balance does not cover a request:
      the amount to charge, raised to the ledger's floor. */
  function RequestedPayment(amountToCharge: real): (r: real)
    ensures r >= amountToCharge && r >= MIN_LEDGER_AMOUNT
    ensures r == amountToCharge || r == MIN_LEDGER_AMOUNT
  {
    if amountToCharge > MIN_LEDGER_AMOUNT then amountToCharge else MIN_LEDGER_AMOUNT
  }

  /** The outcome of charging for a request: whether it is served, the
      balances after, what was earned, and the payment asked for otherwise. */
  datatype Charge = Charge(served: bool, balances: Balances, earned: real, requested: real)

  /** Charges `price` per requested byte, and only when the balance is
      strictly greater than that amount. */
  function ChargeForRequest(m: Balances, key: PublicKey, price: real, bytesRequested: nat): (c: Charge)
    ensures c.served <==> BalanceOf(m, key) > price * bytesRequested as real
    ensures c.served ==> c.earned == price * bytesRequested as real
                         && BalanceOf(c.balances, key) > 0.0
                         && c.balances.Keys == m.Keys + {key}
    ensures !c.served ==> c.balances == m && c.earned == 0.0
                          && c.requested == RequestedPayment(price * bytesRequested as real)
    ensures BalanceOf(c.balances, key) + c.earned == BalanceOf(m, key)
    ensures forall j :: j != key ==> BalanceOf(c.balances, j) == BalanceOf(m, j)
  {
    var amountToCharge := price * bytesRequested as real;
    var balance := BalanceOf(m, key);
    if balance > amountToCharge then
      Charge(true, m[key := balance - amountToCharge], amountToCharge, 0.0)
    else
      Charge(false, m, 0.0, RequestedPayment(amountToCharge))
  }

  /** A request whose amount equals the balance, or any positive-cost
      request from a peer never credited, is refused and changes nothing. */
  lemma {:induction false} UncoveredRequestRefused(m: Balances, key: PublicKey, price: real, bytesRequested: nat)
    requires BalanceOf(m, key) == price * bytesRequested as real
             || (key !in m && price * bytesRequested as real > 0.0)
    ensures !ChargeForRequest(m, key, price, bytesRequested).served
    ensures ChargeForRequest(m, key, price, bytesRequested).balances == m
  {
    var amount := price * bytesRequested as real;
    assert BalanceOf(m, key) <= amount;
  }

  // ---------------------------------------------------------------------
  // Runs of requests and incoming credits

  datatype Event = Request(peer: PublicKey, bytes: nat) | Incoming(credit: Credit)

  function Step(m: Balances, price: real, e: Event): Balances
  {
    match e
    case Request(peer, bytes) => ChargeForRequest(m, peer, price, bytes).balances
    case Incoming(c) => ApplyCredit(m, c)
  }

  function Run(m: Balances, price: real, events: seq<Event>): Balances
    decreases |events|
  {
    if events == [] then m else Run(Step(m, price, events[0]), price, events[1..])
  }

  /** Sum of the credits tagged with `k`. */
  function CreditedTo(events: seq<Event>, k: PublicKey): real
  {
    if events == [] then 0.0
    else (if events[0].Incoming? then CreditTo(events[0].credit, k) else 0.0) + CreditedTo(events[1..], k)
  }

  /** What event `e`, applied to `m`, charges peer `k`. */
  function ChargedBy(m: Balances, price: real, e: Event, k: PublicKey): real
  {
    if e.Request? && e.peer == k then ChargeForRequest(m, k, price, e.bytes).earned else 0.0
  }

  /** Sum of the amounts charged to `k` along the run. */
  function ChargedFrom(m: Balances, price: real, events: seq<Event>, k: PublicKey): real
    decreases |events|
  {
    if events == [] then 0.0
    else ChargedBy(m, price, events[0], k) + ChargedFrom(Step(m, price, events[0]), price, events[1..], k)
  }

  /** Conservation: a peer's balance is what it started with, plus what was
      credited to it, minus what was charged for its requests. */
  lemma {:induction false} Conservation(m: Balances, price: real, events: seq<Event>, k: PublicKey)
    ensures BalanceOf(Run(m, price, events), k)
            == BalanceOf(m, k) + CreditedTo(events, k) - ChargedFrom(m, price, events, k)
    decreases |events|
  {
    if events != [] {
      var e := events[0];
      Conservation(Step(m, price, e), price, events[1..], k);
      match e {
        case Request(peer, bytes) =>
        case Incoming(c) =>
      }
    }
  }

  /** Balances never go negative: a served request leaves a positive
      balance, and credits of non-negative amounts only add. */
  lemma {:induction false} BalancesStayNonNegative(m: Balances, price: real, events: seq<Event>)
    requires NonNegative(m)
    requires forall i :: 0 <= i < |events| && events[i].Incoming? ==> events[i].credit.amount >= 0.0
    ensures NonNegative(Run(m, price, events))
    decreases |events|
  {
    if events != [] {
      var e := events[0];
      var next := Step(m, price, e);
      match e {
        case Request(peer, bytes) =>
          forall j | j in next ensures next[j] >= 0.0 {
            assert next[j] == BalanceOf(next, j);
            if j != peer {
              assert BalanceOf(m, j) >= 0.0;
            }
          }
        case Incoming(c) =>
          ApplyCreditKeepsNonNegative(m, c);
      }
      BalancesStayNonNegative(next, price, events[1..]);
    }
  }

  // ---------------------------------------------------------------------
  // Wires

  type WireId = nat

  /** A connection, with the key and account its peer announced. */
  datatype Wire = Wire(id: WireId, peerPublicKey: PublicKey, peerAccount: string)

  /** The wires registered for each peer key by handshakes. */
  type Registry = map<PublicKey, seq<Wire>>

  /** The wires registered for `k`; none for a key never seen. */
  function WiresOf(reg: Registry, k: PublicKey): seq<Wire>
  {
    if k in reg then reg[k] else []
  }

  /** Appends a wire to the list of `k`, creating the list on first sight. */
  function Register(reg: Registry, k: PublicKey, w: Wire): (r: Registry)
    ensures WiresOf(r, k) == WiresOf(reg, k) + [w]
    ensures r.Keys == reg.Keys + {k}
    ensures forall j :: j != k ==> WiresOf(r, j) == WiresOf(reg, j)
  {
    reg[k := WiresOf(reg, k) + [w]]
  }

  datatype ChokeState = Choked | Unchoked

  function WireIds(ws: seq<Wire>): set<WireId>
  {
    set w | w in ws :: w.id
  }

  /** Unchokes every wire of `ws`. */
  function UnchokeAll(states: map<WireId, ChokeState>, ws: seq<Wire>): (r: map<WireId, ChokeState>)
    ensures r.Keys == states.Keys + WireIds(ws)
    ensures forall id :: id in WireIds(ws) ==> r[id] == Unchoked
    ensures forall id :: id in states && id !in WireIds(ws) ==> r[id] == states[id]
  {
    if ws == [] then states
    else
      var init := ws[..|ws| - 1];
      assert ws == init + [ws[|ws| - 1]];
      assert WireIds(ws) == WireIds(init) + {ws[|ws| - 1].id};
      UnchokeAll(states, init)[ws[|ws| - 1].id := Unchoked]
  }

  /** Settlement parameters of an outgoing payment. */
  datatype PaymentParams = PaymentParams(
    sourceAmount: real,
    destinationAccount: string,
    destinationMemoKey: PublicKey,
    sourceMemoKey: PublicKey)

  /** What the client does to the outside world, in order. */
  datatype Effect =
    | Unchoke(wire: WireId)                          // payment extension unchoke
    | ForceChoke(wire: WireId)                       // payment extension force-choke
    | SendPaymentRequest(wire: WireId, amount: real) // ask the peer to pay
    | WireUnchoke(wire: WireId)                      // transport-level unchoke
    | OutgoingPayment(peer: PublicKey, amount: real) // `outgoing_payment` event
    | IncomingPayment(peer: PublicKey, amount: real) // `incoming_payment` event
    | SendPayment(params: PaymentParams)             // submission to the settlement client

  /** The transport-level unchokes of `ws`, in order. */
  function WireUnchokes(ws: seq<Wire>): (r: seq<Effect>)
    ensures |r| == |ws|
    ensures forall i :: 0 <= i < |ws| ==> r[i] == WireUnchoke(ws[i].id)
  {
    if ws == [] then [] else WireUnchokes(ws[..|ws| - 1]) + [WireUnchoke(ws[|ws| - 1].id)]
  }

  /** Unchoking the next wire of a list extends both the choke map and the
      effects by that one wire. */
  lemma UnchokeNext(states: map<WireId, ChokeState>, ws: seq<Wire>, i: nat)
    requires i < |ws|
    ensures UnchokeAll(states, ws[..i + 1]) == UnchokeAll(states, ws[..i])[ws[i].id := Unchoked]
    ensures WireUnchokes(ws[..i + 1]) == WireUnchokes(ws[..i]) + [WireUnchoke(ws[i].id)]
  {
    assert ws[..i + 1][..i] == ws[..i];
  }

  // ---------------------------------------------------------------------
  // Outgoing payments

  /** The request built for a payment asked by a peer on a torrent. */
  function PaymentRequestFor(wire: Wire, infoHash: string, bytesRemaining: int,
                             requestedAmount: real, timestamp: string): Decider.PaymentRequest
  {
    Decider.PaymentRequest(requestedAmount, wire.peerPublicKey, wire.peerAccount,
                           infoHash, bytesRemaining, timestamp)
  }

  /** The rollback as written: it ejects under the payment parameters,
      which carry no id, so no stored payment is removed. */
  function RollbackAsWritten(payments: seq<Decider.Stored<Decider.PaymentRequest>>, params: PaymentParams)
    : seq<Decider.Stored<Decider.PaymentRequest>>
  {
    payments
  }

  /** After a failed send, the written rollback leaves the payment counted
      in every total it matches, while the id-based rollback restores them. */
  lemma RollbackAsWrittenKeepsFailedPayment(
    payments: seq<Decider.Stored<Decider.PaymentRequest>>, id: nat,
    p: Decider.PaymentRequest, params: PaymentParams, f: Decider.Filter)
    requires forall s :: s in payments ==> s.id != id
    requires Decider.Matches(f, p.publicKey, p.torrentHash)
    ensures Decider.TotalSent(RollbackAsWritten(payments + [Decider.Stored(id, p)], params), f)
            == Decider.TotalSent(payments, f) + p.sourceAmount
    ensures Decider.TotalSent(Decider.Eject(payments + [Decider.Stored(id, p)], id), f)
            == Decider.TotalSent(payments, f)
  {
    Decider.TotalSentAfterRecord(payments, Decider.Stored(id, p), f);
    Decider.RecordThenEjectRestores(payments, p, id);
  }

  // ---------------------------------------------------------------------
  // The objects

  /** A transfer; the client adds the running total it earned from it. */
  class Torrent {
    const infoHash: string
    const length: int
    var downloaded: int
    var totalEarned: real

    constructor (infoHash: string, length: int)
      ensures this.infoHash == infoHash && this.length == length
      ensures downloaded == 0 && totalEarned == 0.0
    {
      this.infoHash := infoHash;
      this.length := length;
      downloaded := 0;
      totalEarned := 0.0;
    }
  }

  class WebTorrentIlp {
    const price: real             // per byte
    const publicKey: PublicKey    // our own key, sent in payment memos
    const decider: Decider.Decider
    var peerBalances: Balances
    var peerWires: Registry
    var wireStates: map<WireId, ChokeState>
    var effects: seq<Effect>

    ghost predicate Valid()
      reads this, decider
    {
      decider.Valid()
    }

    constructor (price: real, publicKey: PublicKey)
      ensures Valid() && fresh(decider)
      ensures this.price == price && this.publicKey == publicKey
      ensures peerBalances == map[] && peerWires == map[] && wireStates == map[] && effects == []
      ensures decider.payments == [] && decider.deliveries == [] && decider.paymentRequests == []
    {
      this.price := price;
      this.publicKey := publicKey;
      decider := new Decider.Decider();
      peerBalances, peerWires, wireStates, effects := map[], map[], map[], [];
    }

    /** Starts the earnings of a transfer at zero. */
    method SetupTorrent(torrent: Torrent)
      modifies torrent
      ensures torrent.totalEarned == 0.0 && torrent.downloaded == old(torrent.downloaded)
    {
      torrent.totalEarned := 0.0;
    }

    /** A new wire starts force-choked. */
    method SetupWire(wire: Wire)
      modifies this
      ensures wireStates == old(wireStates)[wire.id := Choked]
      ensures effects == old(effects) + [ForceChoke(wire.id)]
      ensures peerBalances == old(peerBalances) && peerWires == old(peerWires)
    {
      wireStates := wireStates[wire.id := Choked];
      effects := effects + [ForceChoke(wire.id)];
    }

    /** Registers the wire under the key announced in its handshake. */
    method OnHandshake(wire: Wire, handshakeKey: PublicKey)
      modifies this
      ensures peerWires == Register(old(peerWires), handshakeKey, wire)
      ensures peerBalances == old(peerBalances) && wireStates == old(wireStates) && effects == old(effects)
    {
      if handshakeKey !in peerWires {
        peerWires := peerWires[handshakeKey := []];
      }
      peerWires := peerWires[handshakeKey := peerWires[handshakeKey] + [wire]];
    }

    /** Records the bytes a wire delivered for a torrent. */
    method OnDownload(wire: Wire, torrent: Torrent, bytes: nat)
      requires Valid()
      modifies decider
      ensures Valid()
      ensures decider.deliveries
              == old(decider.deliveries) + [Decider.Stored(old(decider.nextId),
                                                           Decider.Delivery(wire.peerPublicKey, torrent.infoHash, bytes))]
      ensures decider.payments == old(decider.payments)
      ensures decider.paymentRequests == old(decider.paymentRequests)
    {
      var _ := decider.RecordDelivery(Decider.Delivery(wire.peerPublicKey, torrent.infoHash, bytes));
    }

    /** Serves a request when the peer's balance strictly exceeds its cost;
        otherwise asks for payment and chokes the wire. */
    method ChargePeerForRequest(wire: Wire, torrent: Torrent, bytesRequested: nat)
      modifies this, torrent
      ensures var c := ChargeForRequest(old(peerBalances), wire.peerPublicKey, price, bytesRequested);
              && peerBalances == c.balances
              && torrent.totalEarned == old(torrent.totalEarned) + c.earned
              && (c.served ==> wireStates == old(wireStates)[wire.id := Unchoked]
                               && effects == old(effects) + [Unchoke(wire.id)])
              && (!c.served ==> wireStates == old(wireStates)[wire.id := Choked]
                                && effects == old(effects) + [SendPaymentRequest(wire.id, c.requested),
                                                              ForceChoke(wire.id)])
      ensures peerWires == old(peerWires) && torrent.downloaded == old(torrent.downloaded)
    {
      var peerPublicKey := wire.peerPublicKey;
      var peerBalance := if peerPublicKey in peerBalances then peerBalances[peerPublicKey] else 0.0;
      var amountToCharge := price * bytesRequested as real;
      if peerBalance > amountToCharge {
        var newBalance := peerBalance - amountToCharge;
        peerBalances := peerBalances[peerPublicKey := newBalance];
        torrent.totalEarned := torrent.totalEarned + amountToCharge;
        wireStates := wireStates[wire.id := Unchoked];
        effects := effects + [Unchoke(wire.id)];
      } else {
        var requested := if amountToCharge > MIN_LEDGER_AMOUNT then amountToCharge else MIN_LEDGER_AMOUNT;
        effects := effects + [SendPaymentRequest(wire.id, requested)];
        wireStates := wireStates[wire.id := Choked];
        effects := effects + [ForceChoke(wire.id)];
      }
    }

    /** Answers a peer's payment request: asks the decider, and when it
        agrees records the payment and submits it. */
    method PayPeer(wire: Wire, torrent: Torrent, requestedAmount: real, timestamp: string, sendSucceeded: bool)
      returns (decision: bool)
      requires Valid()
      modifies this, decider
      ensures Valid()
      ensures decision == Decider.Decide(old(decider.payments), old(decider.deliveries),
                                         wire.peerPublicKey, torrent.infoHash)
      ensures decider.paymentRequests
              == old(decider.paymentRequests)
                 + [Decider.Stored(old(decider.nextId),
                                   PaymentRequestFor(wire, torrent.infoHash, torrent.length - torrent.downloaded,
                                                     requestedAmount, timestamp))]
      ensures decision && sendSucceeded ==>
                decider.payments
                == old(decider.payments)
                   + [Decider.Stored(old(decider.nextId) + 1,
                                     PaymentRequestFor(wire, torrent.infoHash, torrent.length - torrent.downloaded,
                                                       requestedAmount, timestamp))]
      ensures !(decision && sendSucceeded) ==> decider.payments == old(decider.payments)
      ensures decision ==>
                effects == old(effects) + [OutgoingPayment(wire.peerPublicKey, requestedAmount),
                                           SendPayment(PaymentParams(requestedAmount, wire.peerAccount,
                                                                     publicKey, wire.peerPublicKey))]
      ensures !decision ==> effects == old(effects)
      ensures decider.deliveries == old(decider.deliveries)
      ensures peerBalances == old(peerBalances) && peerWires == old(peerWires) && wireStates == old(wireStates)
    {
      var paymentRequest := PaymentRequestFor(wire, torrent.infoHash, torrent.length - torrent.downloaded,
                                              requestedAmount, timestamp);
      decision := decider.ShouldSendPayment(paymentRequest);
      if decision {
        SendApprovedPayment(paymentRequest, requestedAmount, sendSucceeded);
      }
    }

    /** Records an approved payment, announces it and submits it;
        `sendSucceeded` is the settlement client's answer, and a failed
        submission ejects the recorded payment again by its id. */
    method SendApprovedPayment(paymentRequest: Decider.PaymentRequest, sourceAmount: real, sendSucceeded: bool)
      requires Valid()
      modifies this, decider
      ensures Valid()
      ensures sendSucceeded ==>
                decider.payments == old(decider.payments) + [Decider.Stored(old(decider.nextId), paymentRequest)]
      ensures !sendSucceeded ==> decider.payments == old(decider.payments)
      ensures effects == old(effects) + [OutgoingPayment(paymentRequest.publicKey, sourceAmount),
                                         SendPayment(PaymentParams(sourceAmount, paymentRequest.destinationAccount,
                                                                   publicKey, paymentRequest.publicKey))]
      ensures decider.paymentRequests == old(decider.paymentRequests)
      ensures decider.deliveries == old(decider.deliveries)
      ensures peerBalances == old(peerBalances) && peerWires == old(peerWires) && wireStates == old(wireStates)
    {
      ghost var payments0 := decider.payments;
      var id := decider.RecordPayment(paymentRequest);
      var paymentParams := PaymentParams(sourceAmount, paymentRequest.destinationAccount,
                                         publicKey, paymentRequest.publicKey);
      effects := effects + [OutgoingPayment(paymentRequest.publicKey, sourceAmount), SendPayment(paymentParams)];
      if !sendSucceeded {
        decider.RecordFailedPayment(id);
        Decider.RecordThenEjectRestores(payments0, paymentRequest, id);
      }
    }

    /** Credits the peer a settlement names and unchokes all its wires; a
        credit without a usable key changes nothing. */
    method HandleIncomingPayment(credit: Credit)
      modifies this
      ensures peerBalances == ApplyCredit(old(peerBalances), credit)
      ensures CreditedPeer(credit).None? ==> wireStates == old(wireStates) && effects == old(effects)
      ensures CreditedPeer(credit).Some? ==>
                var k := CreditedPeer(credit).value;
                var ws := WiresOf(old(peerWires), k);
                && wireStates == UnchokeAll(old(wireStates), ws)
                && effects == old(effects) + [IncomingPayment(k, credit.amount)] + WireUnchokes(ws)
      ensures peerWires == old(peerWires)
    {
      if credit.memo.None? {
        return;
      }
      var peerPublicKey := credit.memo.value.publicKey;
      if !Present(peerPublicKey) {
        return;
      }
      var k := peerPublicKey.value;
      var previousBalance := if k in peerBalances then peerBalances[k] else 0.0;
      peerBalances := peerBalances[k := previousBalance + credit.amount];
      effects := effects + [IncomingPayment(k, credit.amount)];
      UnchokeWires(WiresOf(peerWires, k));
    }

    /** Unchokes every wire of the list at the transport level, in order. */
    method UnchokeWires(ws: seq<Wire>)
      modifies this
      ensures wireStates == UnchokeAll(old(wireStates), ws)
      ensures effects == old(effects) + WireUnchokes(ws)
      ensures peerBalances == old(peerBalances) && peerWires == old(peerWires)
    {
      for i := 0 to |ws|
        invariant peerBalances == old(peerBalances) && peerWires == old(peerWires)
        invariant wireStates == UnchokeAll(old(wireStates), ws[..i])
        invariant effects == old(effects) + WireUnchokes(ws[..i])
      {
        UnchokeNext(old(wireStates), ws, i);
        wireStates := wireStates[ws[i].id := Unchoked];
        effects := effects + [WireUnchoke(ws[i].id)];
      }
      assert ws[..|ws|] == ws;
    }
  }
}
