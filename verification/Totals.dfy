/** Sums over the unbounded set of account holders. */
module Totals {
  import opened Machine
  import opened VaultMachine

  ghost function Total(m: map<Pubkey, u64>): nat
    decreases |m|
  {
    if m == map[] then 0
    else
      var k :| k in m;
      m[k] + Total(m - {k})
  }

  /** LP recorded for each depositor. */
  function Positions(records: map<Pubkey, Position>): map<Pubkey, u64> {
    map u | u in records :: records[u].lp
  }

  lemma {:induction false} TotalWithout(m: map<Pubkey, u64>, k: Pubkey)
    requires k in m
    ensures Total(m) == m[k] + Total(m - {k})
    decreases |m|
  {
    var j :| j in m && Total(m) == m[j] + Total(m - {j});
    if j != k {
      TotalWithout(m - {j}, k);
      TotalWithout(m - {k}, j);
      assert m - {j} - {k} == m - {k} - {j};
    }
  }

  lemma TotalUpdate(m: map<Pubkey, u64>, k: Pubkey, v: u64)
    ensures Total(m[k := v]) == Total(m) - Held(m, k) + v
  {
    TotalWithout(m[k := v], k);
    if k in m {
      TotalWithout(m, k);
      assert m[k := v] - {k} == m - {k};
    } else {
      assert m[k := v] - {k} == m;
    }
  }

  lemma TotalCovers(m: map<Pubkey, u64>, k: Pubkey)
    ensures Held(m, k) <= Total(m)
  {
    if k in m {
      TotalWithout(m, k);
    }
  }

  lemma {:induction false} TotalOfZeroes(m: map<Pubkey, u64>)
    requires forall k | k in m :: m[k] == 0
    ensures Total(m) == 0
    decreases |m|
  {
    if m != map[] {
      var k :| k in m;
      TotalWithout(m, k);
      TotalOfZeroes(m - {k});
    }
  }

  lemma PositionsUpdate(records: map<Pubkey, Position>, user: Pubkey, position: Position)
    ensures Positions(records[user := position]) == Positions(records)[user := position.lp]
  {
  }
}
