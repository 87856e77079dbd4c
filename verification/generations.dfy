/**
 The two generations charge under different rules on purpose: the
 per-byte client serves only a balance strictly above the cost, the
 flat-price manager also a balance exactly equal to it.
 */
module Generations {
  import opened Ledger
  import WtIlp
  import PaymentManager

  /** With a balance exactly equal to the cost of a request, the client
      refuses and asks for payment, while the manager charges and leaves the
      peer at zero. */
  lemma ChargeRulesDiffer(m: Balances, k: PublicKey, cost: real)
    requires k != "" && BalanceOf(m, k) == cost
    ensures !WtIlp.ChargeForRequest(m, k, cost, 1).served
    ensures WtIlp.ChargeForRequest(m, k, cost, 1).balances == m
    ensures PaymentManager.ApplyCharge(m, cost, Some(k)).charged
    ensures BalanceOf(PaymentManager.ApplyCharge(m, cost, Some(k)).balances, k) == 0.0
  {
    WtIlp.UncoveredRequestRefused(m, k, cost, 1);
  }
}
