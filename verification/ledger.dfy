/**
 Vocabulary shared by both generations of the payment accounting: peer
 keys, optional values, the per-peer balance map and settlement credits.
 Amounts are exact decimals in the ledger's unit, modelled as `real`.
 */
module Ledger {

  datatype Option<+T> = None | Some(value: T)

  /** A peer's public key, as carried by handshakes and payment memos. */
  type PublicKey = string

  /** JavaScript truthiness of a possibly missing key: a missing key and the
      empty string are both falsy. */
  predicate Present(k: Option<PublicKey>)
  {
    k.Some? && k.value != ""
  }

  /** Credit balance per remote peer. */
  type Balances = map<PublicKey, real>

  /** The balance held for a peer; a peer never seen has balance 0. */
  function BalanceOf(m: Balances, k: PublicKey): real
  {
    if k in m then m[k] else 0.0
  }

  ghost predicate NonNegative(m: Balances)
  {
    forall k :: k in m ==> m[k] >= 0.0
  }

  /** The memo of a settlement notification, already parsed: it may or may
      not carry the paying peer's `public_key`. */
  datatype Memo = Memo(publicKey: Option<PublicKey>)

  /** A settlement-confirmed incoming credit. `memo` is None when the
      notification has no memo usable as a record. */
  datatype Credit = Credit(amount: real, memo: Option<Memo>)

  /** The peer a credit is tagged with, when its memo carries a usable key. */
  function CreditedPeer(c: Credit): (r: Option<PublicKey>)
    ensures r.Some? <==> c.memo.Some? && Present(c.memo.value.publicKey)
    ensures r.Some? ==> r.value != "" && r == c.memo.value.publicKey
  {
    if c.memo.Some? && Present(c.memo.value.publicKey) then c.memo.value.publicKey else None
  }

  /** Applies an incoming credit to the balances: the tagged peer's balance
      (0 if unseen) grows by the credited amount, nothing else changes; an
      untagged credit changes nothing. */
  function ApplyCredit(m: Balances, c: Credit): (r: Balances)
    ensures CreditedPeer(c).None? ==> r == m
    ensures CreditedPeer(c).Some? ==>
              var k := CreditedPeer(c).value;
              BalanceOf(r, k) == BalanceOf(m, k) + c.amount && r.Keys == m.Keys + {k}
    ensures forall j :: CreditedPeer(c) != Some(j) ==> BalanceOf(r, j) == BalanceOf(m, j)
  {
    match CreditedPeer(c)
    case None => m
    case Some(k) => m[k := BalanceOf(m, k) + c.amount]
  }

  /** What a credit adds to the balance of peer `k`. */
  function CreditTo(c: Credit, k: PublicKey): (r: real)
    ensures c.amount >= 0.0 ==> r >= 0.0
    ensures CreditedPeer(c) != Some(k) ==> r == 0.0
  {
    if CreditedPeer(c) == Some(k) then c.amount else 0.0
  }

  /** A non-negative credit keeps every balance non-negative. */
  lemma ApplyCreditKeepsNonNegative(m: Balances, c: Credit)
    requires NonNegative(m) && c.amount >= 0.0
    ensures NonNegative(ApplyCredit(m, c))
  {
    var r := ApplyCredit(m, c);
    forall k | k in r ensures r[k] >= 0.0 {
      assert r[k] == BalanceOf(r, k);
    }
  }
}
