/**
 * Sums of money held in a table: the total of a map's values and the total
 * amount of the transfer and expenditure logs.
 */
module Totals {
  import opened Ledger

  /** Some key of a non-empty map, the one Total takes first. */
  ghost function FirstKey<K>(m: map<K, int>): (k: K)
    requires |m| != 0
    ensures k in m
  {
    assert m.Keys != {} by { assert |m.Keys| == |m|; }
    var k :| k in m; k
  }

  /** The sum of all values of `m`, taken in an arbitrary key order. */
  ghost function Total<K>(m: map<K, int>): int
    decreases |m|
  {
    if |m| == 0 then 0
    else
      var k := FirstKey(m);
      assert |m - {k}| < |m| by { assert (m - {k}).Keys == m.Keys - {k}; }
      m[k] + Total(m - {k})
  }

  /** The order in which Total takes the keys does not matter: any key can come first. */
  lemma {:induction false} TotalRemove<K>(m: map<K, int>, k: K)
    requires k in m
    ensures Total(m) == m[k] + Total(m - {k})
    decreases |m|
  {
    var j := FirstKey(m);
    if j != k {
      assert m - {j} - {k} == m - {k} - {j};
      assert |m - {j}| < |m| by { assert (m - {j}).Keys == m.Keys - {j}; }
      assert |m - {k}| < |m| by { assert (m - {k}).Keys == m.Keys - {k}; }
      TotalRemove(m - {j}, k);
      TotalRemove(m - {k}, j);
    }
  }

  /** Removing a key forgets what it was last set to. */
  lemma UpdateThenRemove<K>(m: map<K, int>, k: K, v: int)
    ensures m[k := v] - {k} == m - {k}
  {
  }

  /** Removing a key that was just added gives back the map it was added to. */
  lemma InsertThenRemove<K>(m: map<K, int>, k: K, v: int)
    requires k !in m
    ensures m[k := v] - {k} == m
  {
  }

  /** Overwriting one entry changes the total by the difference of the two values. */
  lemma TotalUpdate<K>(m: map<K, int>, k: K, v: int)
    ensures Total(m[k := v]) == Total(m) - (if k in m then m[k] else 0) + v
  {
    if k in m {
      TotalRemove(m, k);
      TotalRemove(m[k := v], k);
      UpdateThenRemove(m, k, v);
    } else {
      TotalInsert(m, k, v);
    }
  }

  /** Adding a new entry adds its value to the total. */
  lemma TotalInsert<K>(m: map<K, int>, k: K, v: int)
    requires k !in m
    ensures Total(m[k := v]) == Total(m) + v
  {
    TotalRemove(m[k := v], k);
    InsertThenRemove(m, k, v);
  }

  /** Lowering one row by `amount` lowers the total of all rows by `amount`. */
  lemma DebitTotal<K>(m: map<K, Amount>, k: K, amount: Amount)
    requires k in m
    ensures Total(m[k := m[k] - amount]) == Total(m) - amount
  {
    TotalUpdate(m, k, m[k] - amount);
  }

  /**
   * A debit of `a` from row `k` that a log records (its total going from `e` to `e'`) leaves the
   * rows' total plus the log's total unchanged.
   */
  lemma DebitAccounted<K>(m: map<K, int>, m': map<K, int>, k: K, a: int, e: int, e': int)
    requires k in m && m' == m[k := m[k] - a] && e' == e + a
    ensures Total(m') == Total(m) - (e' - e)
  {
    DebitTotal(m, k, a);
  }

  /** An upsert credit of `a` recorded in a log raises the funds' total by what the log gains. */
  lemma CreditAccounted(funds: map<FundKey, Amount>, funds': map<FundKey, Amount>, k: FundKey, a: Amount, e: int, e': int)
    requires funds' == Credit(funds, k, a) && e' == e + a
    ensures Total(funds') == Total(funds) + (e' - e)
  {
    CreditTotal(funds, k, a);
  }

  /** The office-fund upsert raises the total of all balances by exactly the amount. */
  lemma CreditTotal(funds: map<FundKey, Amount>, k: FundKey, amount: Amount)
    ensures Total(Credit(funds, k, amount)) == Total(funds) + amount
  {
    if k in funds {
      TotalUpdate(funds, k, funds[k] + amount);
    } else {
      TotalUpdate(funds, k, amount);
    }
  }

  /** A map of non-negative values has a non-negative total. */
  lemma {:induction false} TotalNonNegative<K>(m: map<K, int>)
    requires forall k :: k in m ==> m[k] >= 0
    ensures Total(m) >= 0
    decreases |m|
  {
    if |m| != 0 {
      var k := FirstKey(m);
      assert |m - {k}| < |m| by { assert (m - {k}).Keys == m.Keys - {k}; }
      TotalNonNegative(m - {k});
    }
  }

  /** The sum of `amount` over the entries of a log, in log order. */
  function Sum<T>(xs: seq<T>, amount: T -> int): (r: int)
    ensures (forall i :: 0 <= i < |xs| ==> amount(xs[i]) >= 0) ==> r >= 0
  {
    if xs == [] then 0 else Sum(xs[..|xs| - 1], amount) + amount(xs[|xs| - 1])
  }

  /** Appending an entry adds its amount to the sum. */
  lemma SumAppend<T>(xs: seq<T>, x: T, amount: T -> int)
    ensures Sum(xs + [x], amount) == Sum(xs, amount) + amount(x)
  {
    assert (xs + [x])[..|xs|] == xs;
  }

  function TransferAmount(t: TransferRecord): int { t.amount }

  function ExpenditureAmount(e: Expenditure): int { e.amount }
}
