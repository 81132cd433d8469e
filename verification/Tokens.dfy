/** The token ledger: core token balances by account. */
module Tokens {
  import opened Tables
  import opened Resources

  type Ledger = map<Name, int>

  function BalanceOf(tokens: Ledger, account: Name): int {
    if account in tokens then tokens[account] else 0
  }

  /** A transfer of a positive amount to another account; it aborts on an insufficient balance. */
  function Transfer(tokens: Ledger, from: Name, to: Name, amount: int): Option<Ledger> {
    var _ :- Need(from != to && 0 < amount && amount <= BalanceOf(tokens, from));
    Some(tokens[from := BalanceOf(tokens, from) - amount][to := BalanceOf(tokens, to) + amount])
  }

  ghost function BalanceIn(): (Name, int) -> int { (n: Name, balance: int) => balance }

  ghost predicate NonNegative(tokens: Ledger) {
    forall n | n in tokens :: 0 <= tokens[n]
  }

  /** Transfers neither create nor destroy tokens. */
  lemma TransferConserves(tokens: Ledger, from: Name, to: Name, amount: int)
    requires Transfer(tokens, from, to, amount).Some?
    ensures var t := Transfer(tokens, from, to, amount).value;
            && Sum(t, BalanceIn()) == Sum(tokens, BalanceIn())
            && (NonNegative(tokens) ==> NonNegative(t))
            && forall a: Name :: BalanceOf(t, a) ==
                 BalanceOf(tokens, a) + (if a == to then amount else 0) - (if a == from then amount else 0)
  {
    var t1 := tokens[from := BalanceOf(tokens, from) - amount];
    SumPut<Name, int>(tokens, from, BalanceOf(tokens, from) - amount, BalanceIn());
    SumPut<Name, int>(t1, to, BalanceOf(tokens, to) + amount, BalanceIn());
  }
}
