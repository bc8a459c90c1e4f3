/** Balances of standard tokens: the EIP-20 behaviour of MockERC20 in test/StreamVault.t.sol,
with 256-bit arithmetic.  Allowances are those given to the vault; totalSupply is a uint256 that
minting adds to. */
module Tokens {
  import opened Options
  import opened Abi

  datatype Ledger = Ledger(
    balances: map<(nat, nat), nat>,
    allowances: map<(nat, nat), nat>,
    supplies: map<nat, nat>)
  {
    function Bal(token: nat, who: nat): nat {
      if (token, who) in balances then balances[(token, who)] else 0
    }

    function Allowed(token: nat, who: nat): nat {
      if (token, who) in allowances then allowances[(token, who)] else 0
    }

    function TotalSupply(token: nat): nat {
      if token in supplies then supplies[token] else 0
    }

    function Put(token: nat, who: nat, amount: nat): Ledger {
      this.(balances := balances[(token, who) := amount])
    }
  }

  /** Checked subtraction from one balance, checked addition to the other. */
  function Transfer(l: Ledger, token: nat, from: nat, to: nat, amount: nat): Option<Ledger> {
    if l.Bal(token, from) < amount then None
    else
      var debited := l.Put(token, from, l.Bal(token, from) - amount);
      if debited.Bal(token, to) + amount >= TWO256 then None
      else Some(debited.Put(token, to, debited.Bal(token, to) + amount))
  }

  /** transferFrom called by the vault, which spends the allowance it was given. */
  function TransferFrom(l: Ledger, token: nat, from: nat, to: nat, amount: nat): Option<Ledger> {
    if l.Bal(token, from) < amount || l.Allowed(token, from) < amount then None
    else
      Transfer(l.(allowances := l.allowances[(token, from) := l.Allowed(token, from) - amount]),
               token, from, to, amount)
  }

  function Mint(l: Ledger, token: nat, to: nat, amount: nat): Option<Ledger> {
    if l.TotalSupply(token) + amount >= TWO256 then None
    else Some(l.Put(token, to, l.Bal(token, to) + amount)
              .(supplies := l.supplies[token := l.TotalSupply(token) + amount]))
  }

  // ---------------------------------------------------------------- supply

  /** The balances of the holders below n. */
  function Supply(l: Ledger, token: nat, n: nat): nat {
    if n == 0 then 0 else Supply(l, token, n - 1) + l.Bal(token, n - 1)
  }

  /** No partial sum of balances exceeds the total supply, and that is a uint256. */
  ghost predicate SupplyFits(l: Ledger) {
    && (forall token: nat :: l.TotalSupply(token) < TWO256)
    && (forall token: nat, n: nat :: Supply(l, token, n) <= l.TotalSupply(token))
  }

  ghost predicate SameBut(l: Ledger, m: Ledger, token: nat, who: nat) {
    forall h: nat :: h != who ==> m.Bal(token, h) == l.Bal(token, h)
  }

  lemma {:induction false} SupplyChange(l: Ledger, m: Ledger, token: nat, who: nat, n: nat)
    requires SameBut(l, m, token, who)
    ensures Supply(m, token, n) - Supply(l, token, n)
            == if who < n then m.Bal(token, who) - l.Bal(token, who) else 0
  {
    if n > 0 {
      SupplyChange(l, m, token, who, n - 1);
    }
  }

  lemma {:induction false} SupplyGrows(l: Ledger, token: nat, n: nat, m: nat)
    requires n <= m
    ensures Supply(l, token, n) <= Supply(l, token, m)
  {
    if n < m {
      SupplyGrows(l, token, n, m - 1);
    }
  }

  lemma {:induction false} SupplySame(l: Ledger, m: Ledger, token: nat, n: nat)
    requires forall h: nat :: m.Bal(token, h) == l.Bal(token, h)
    ensures Supply(m, token, n) == Supply(l, token, n)
  {
    if n > 0 {
      SupplySame(l, m, token, n - 1);
    }
  }

  /** Two holders together never hold more than the supply. */
  lemma TwoHolders(l: Ledger, token: nat, a: nat, b: nat)
    requires SupplyFits(l) && a != b
    ensures l.Bal(token, a) + l.Bal(token, b) < TWO256
  {
    var n := a + b + 1;
    var m := l.Put(token, a, 0);
    SupplyChange(l, m, token, a, n);
    SupplyGrows(m, token, b + 1, n);
    assert Supply(m, token, b + 1) >= m.Bal(token, b);
    assert Supply(l, token, n) <= l.TotalSupply(token);
  }

  /** What a successful transfer does to the token's balances. */
  ghost predicate Moved(l: Ledger, m: Ledger, token: nat, from: nat, to: nat, amount: nat) {
    && m.supplies == l.supplies
    && (forall t: nat, h: nat :: t != token || (h != from && h != to) ==> m.Bal(t, h) == l.Bal(t, h))
    && l.Bal(token, from) >= amount
    && (if from == to then m.Bal(token, from) == l.Bal(token, from)
        else m.Bal(token, from) == l.Bal(token, from) - amount
             && m.Bal(token, to) == l.Bal(token, to) + amount)
  }

  lemma TransferMoves(l: Ledger, token: nat, from: nat, to: nat, amount: nat)
    ensures var r := Transfer(l, token, from, to, amount);
            r.Some? ==> Moved(l, r.value, token, from, to, amount)
  {
  }

  lemma TransferFromMoves(l: Ledger, token: nat, from: nat, to: nat, amount: nat)
    ensures var r := TransferFrom(l, token, from, to, amount);
            r.Some? ==> Moved(l, r.value, token, from, to, amount)
  {
    if l.Allowed(token, from) >= amount {
      var spent := l.(allowances := l.allowances[(token, from) := l.Allowed(token, from) - amount]);
      TransferMoves(spent, token, from, to, amount);
    }
  }

  /** With the supply in range, lack of balance is the only reason a transfer can fail. */
  lemma TransferSucceeds(l: Ledger, token: nat, from: nat, to: nat, amount: nat)
    requires SupplyFits(l)
    ensures Transfer(l, token, from, to, amount).Some? <==> l.Bal(token, from) >= amount
  {
    if l.Bal(token, from) >= amount {
      if from == to {
        SupplyGrows(l, token, 0, from);
        assert Supply(l, token, from + 1) <= l.TotalSupply(token);
      } else {
        TwoHolders(l, token, from, to);
      }
    }
  }

  lemma MovedKeepsSupply(l: Ledger, m: Ledger, token: nat, from: nat, to: nat, amount: nat)
    requires SupplyFits(l) && Moved(l, m, token, from, to, amount)
    ensures SupplyFits(m)
  {
    forall t: nat ensures m.TotalSupply(t) < TWO256 {
      assert m.TotalSupply(t) == l.TotalSupply(t);
    }
    forall t: nat, n: nat ensures Supply(m, t, n) <= m.TotalSupply(t) {
      assert m.TotalSupply(t) == l.TotalSupply(t);
      if t != token || from == to {
        SupplySame(l, m, t, n);
        assert Supply(l, t, n) <= l.TotalSupply(t);
      } else {
        var k := n + from + to + 1;
        var mid := l.Put(token, from, l.Bal(token, from) - amount);
        SupplyChange(l, mid, token, from, k);
        SupplyChange(mid, m, token, to, k);
        SupplyGrows(m, token, n, k);
        assert Supply(l, token, k) <= l.TotalSupply(token);
      }
    }
  }

  lemma MintKeepsSupply(l: Ledger, token: nat, to: nat, amount: nat)
    requires SupplyFits(l)
    ensures var r := Mint(l, token, to, amount);
            r.Some? ==> SupplyFits(r.value)
  {
    if l.TotalSupply(token) + amount < TWO256 {
      var m := Mint(l, token, to, amount).value;
      forall t: nat ensures m.TotalSupply(t) < TWO256 {
        assert l.TotalSupply(t) < TWO256;
      }
      forall t: nat, n: nat ensures Supply(m, t, n) <= m.TotalSupply(t) {
        assert Supply(l, t, n) <= l.TotalSupply(t);
        if t != token {
          SupplySame(l, m, t, n);
        } else {
          SupplyChange(l, m, token, to, n);
        }
      }
    }
  }
}
