/**
 The older generation's balance ledger: a flat price per request, charged
 when the balance is at least the price, and credits tagged by the memo's
 `public_key`.
 */
module PaymentManager {
  import opened Ledger

  /** Whether a request from `key` can be paid: false without a key,
      otherwise whether the balance (0 if unseen) covers the price. */
  function Sufficient(m: Balances, price: real, key: Option<PublicKey>): (ok: bool)
    ensures !Present(key) ==> !ok
    ensures Present(key) ==> (ok <==> BalanceOf(m, key.value) >= price)
    ensures ok && key.value !in m ==> price <= 0.0
  {
    Present(key) && BalanceOf(m, key.value) >= price
  }

  /** The outcome of a charge: whether it was taken, and the balances after. */
  datatype Charge = Charge(charged: bool, balances: Balances)

  /** A charge of the flat price against `key`'s balance. */
  function ApplyCharge(m: Balances, price: real, key: Option<PublicKey>): (c: Charge)
    ensures c.charged <==> Sufficient(m, price, key)
    ensures !c.charged ==> c.balances == m
    ensures c.charged ==>
              && BalanceOf(c.balances, key.value) == BalanceOf(m, key.value) - price
              && BalanceOf(c.balances, key.value) >= 0.0
              && c.balances.Keys == m.Keys + {key.value}
    ensures forall j :: key != Some(j) ==> BalanceOf(c.balances, j) == BalanceOf(m, j)
  {
    if Sufficient(m, price, key) then
      var k := key.value;
      Charge(true, m[k := BalanceOf(m, k) - price])
    else
      Charge(false, m)
  }

  /** The charge exactly as written: the new balance is computed from the
      stored entry, which does not exist for a peer never credited. */
  datatype Attempt = Completed(charge: Charge) | Crashed

  function ChargeRequestAsWritten(m: Balances, price: real, key: Option<PublicKey>): (a: Attempt)
    ensures a.Completed? && a.charge.charged ==> key.Some? && key.value in m
  {
    if !Sufficient(m, price, key) then Completed(Charge(false, m))
    else if key.value !in m then Crashed
    else Completed(Charge(true, m[key.value := m[key.value] - price]))
  }

  /** The written charge fails exactly for a free or negative price and a
      peer that was never credited; in every other case it agrees with the
      corrected charge. */
  lemma AsWrittenCrashesOnlyForFreeUnseenPeer(m: Balances, price: real, key: Option<PublicKey>)
    ensures ChargeRequestAsWritten(m, price, key).Crashed?
            <==> Present(key) && key.value !in m && price <= 0.0
    ensures ChargeRequestAsWritten(m, price, key).Completed? ==>
              ChargeRequestAsWritten(m, price, key).charge == ApplyCharge(m, price, key)
  {
    if Present(key) && key.value in m {
      assert BalanceOf(m, key.value) == m[key.value];
    }
  }

  /** A concrete input: price 0 and a request from a peer never credited. */
  lemma FreeRequestFromUnseenPeerCrashes()
    ensures ChargeRequestAsWritten(map[], 0.0, Some("peer")).Crashed?
    ensures ApplyCharge(map[], 0.0, Some("peer")) == Charge(true, map["peer" := 0.0])
  {
    AsWrittenCrashesOnlyForFreeUnseenPeer(map[], 0.0, Some("peer"));
  }

  // ---------------------------------------------------------------------
  // Runs of charges and credits

  datatype Event = ChargeEvent(key: Option<PublicKey>) | CreditEvent(credit: Credit)

  function Step(m: Balances, price: real, e: Event): Balances
  {
    match e
    case ChargeEvent(key) => ApplyCharge(m, price, key).balances
    case CreditEvent(c) => ApplyCredit(m, c)
  }

  function Run(m: Balances, price: real, events: seq<Event>): Balances
    decreases |events|
  {
    if events == [] then m else Run(Step(m, price, events[0]), price, events[1..])
  }

  /** Sum of the credits tagged with `k`. */
  function CreditedTo(events: seq<Event>, k: PublicKey): real
  {
    if events == [] then 0.0
    else (if events[0].CreditEvent? then CreditTo(events[0].credit, k) else 0.0) + CreditedTo(events[1..], k)
  }

  /** Whether event `e`, applied to `m`, takes a charge from `k`. */
  predicate ChargesPeer(m: Balances, price: real, e: Event, k: PublicKey)
  {
    e.ChargeEvent? && e.key == Some(k) && ApplyCharge(m, price, e.key).charged
  }

  /** Number of successful charges against `k` along the run. */
  function ChargesOf(m: Balances, price: real, events: seq<Event>, k: PublicKey): nat
    decreases |events|
  {
    if events == [] then 0
    else (if ChargesPeer(m, price, events[0], k) then 1 else 0)
         + ChargesOf(Step(m, price, events[0]), price, events[1..], k)
  }

  /** Amount taken from `k` along the run. */
  function ChargedFrom(m: Balances, price: real, events: seq<Event>, k: PublicKey): real
    decreases |events|
  {
    if events == [] then 0.0
    else (if ChargesPeer(m, price, events[0], k) then price else 0.0)
         + ChargedFrom(Step(m, price, events[0]), price, events[1..], k)
  }

  /** `n` charges of `price`, added one at a time. */
  function PriceTimes(price: real, n: nat): real
  {
    if n == 0 then 0.0 else PriceTimes(price, n - 1) + price
  }

  lemma {:induction false} PriceTimesIsProduct(price: real, n: nat)
    ensures PriceTimes(price, n) == price * n as real
  {
    if n > 0 {
      PriceTimesIsProduct(price, n - 1);
      assert price * n as real == price * (n - 1) as real + price;
    }
  }

  /** Every charge takes exactly the flat price. */
  lemma {:induction false} ChargedIsPricePerCharge(m: Balances, price: real, events: seq<Event>, k: PublicKey)
    ensures ChargedFrom(m, price, events, k) == price * ChargesOf(m, price, events, k) as real
    decreases |events|
  {
    ChargedIsPriceTimesCharges(m, price, events, k);
    PriceTimesIsProduct(price, ChargesOf(m, price, events, k));
  }

  lemma {:induction false} ChargedIsPriceTimesCharges(m: Balances, price: real, events: seq<Event>, k: PublicKey)
    ensures ChargedFrom(m, price, events, k) == PriceTimes(price, ChargesOf(m, price, events, k))
    decreases |events|
  {
    if events != [] {
      ChargedIsPriceTimesCharges(Step(m, price, events[0]), price, events[1..], k);
    }
  }

  /** One event moves a peer's balance by what it credits minus what it
      charges. */
  lemma StepConservation(m: Balances, price: real, e: Event, k: PublicKey)
    ensures BalanceOf(Step(m, price, e), k)
            == BalanceOf(m, k) + (if e.CreditEvent? then CreditTo(e.credit, k) else 0.0)
               - (if ChargesPeer(m, price, e, k) then price else 0.0)
  {
  }

  /** Conservation: a peer's balance is what it started with, plus what was
      credited to it, minus the price of every charge taken from it. */
  lemma {:induction false} Conservation(m: Balances, price: real, events: seq<Event>, k: PublicKey)
    ensures BalanceOf(Run(m, price, events), k)
            == BalanceOf(m, k) + CreditedTo(events, k) - ChargedFrom(m, price, events, k)
    ensures BalanceOf(Run(m, price, events), k)
            == BalanceOf(m, k) + CreditedTo(events, k) - price * ChargesOf(m, price, events, k) as real
    decreases |events|
  {
    if events != [] {
      var next := Step(m, price, events[0]);
      Conservation(next, price, events[1..], k);
      StepConservation(m, price, events[0], k);
    }
    ChargedIsPricePerCharge(m, price, events, k);
  }

  /** Balances never go negative: charges never overdraw, and credits of
      non-negative amounts only add. */
  lemma {:induction false} BalancesStayNonNegative(m: Balances, price: real, events: seq<Event>)
    requires NonNegative(m)
    requires forall i :: 0 <= i < |events| && events[i].CreditEvent? ==> events[i].credit.amount >= 0.0
    ensures NonNegative(Run(m, price, events))
    decreases |events|
  {
    if events != [] {
      var e := events[0];
      var next := Step(m, price, e);
      match e {
        case ChargeEvent(key) =>
          forall j | j in next ensures next[j] >= 0.0 {
            assert next[j] == BalanceOf(next, j);
            if key != Some(j) {
              assert BalanceOf(m, j) >= 0.0;
            }
          }
        case CreditEvent(c) =>
          ApplyCreditKeepsNonNegative(m, c);
      }
      BalancesStayNonNegative(next, price, events[1..]);
    }
  }

  // ---------------------------------------------------------------------
  // The manager object

  class PaymentManager {
    const price: real
    var peerBalances: Balances

    constructor (price: real)
      ensures this.price == price && peerBalances == map[]
    {
      this.price := price;
      peerBalances := map[];
    }

    method GetBalance(key: PublicKey) returns (balance: real)
      ensures key in peerBalances ==> balance == peerBalances[key]
      ensures key !in peerBalances ==> balance == 0.0
    {
      if key in peerBalances {
        balance := peerBalances[key];
      } else {
        balance := 0.0;
      }
    }

    method HasSufficientBalance(key: Option<PublicKey>) returns (ok: bool)
      ensures ok == Sufficient(peerBalances, price, key)
    {
      if !Present(key) {
        return false;
      }
      var balance := GetBalance(key.value);
      ok := balance >= price;
    }

    /** Takes the price from the peer's balance when it covers it. */
    method ChargeRequest(key: Option<PublicKey>) returns (charged: bool)
      modifies this
      ensures charged == Sufficient(old(peerBalances), price, key)
      ensures peerBalances == ApplyCharge(old(peerBalances), price, key).balances
    {
      charged := HasSufficientBalance(key);
      if charged {
        var balance := GetBalance(key.value);
        peerBalances := peerBalances[key.value := balance - price];
      }
    }

    /** Credits the peer named in the memo; a credit without a usable key
        changes nothing. */
    method HandleIncomingCredit(credit: Credit)
      modifies this
      ensures peerBalances == ApplyCredit(old(peerBalances), credit)
    {
      if credit.memo.Some? && Present(credit.memo.value.publicKey) {
        var k := credit.memo.value.publicKey.value;
        if k !in peerBalances {
          peerBalances := peerBalances[k := 0.0];
        }
        peerBalances := peerBalances[k := peerBalances[k] + credit.amount];
      }
    }
  }
}
