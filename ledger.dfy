/** Sums over transactions shared by the ledger views. */
module Ledger {
  import opened Types
  import opened Folds

  function TotalIncome(s: seq<Transaction>): int { Sum(s, IncomeAmount) }
  function TotalExpense(s: seq<Transaction>): int { Sum(s, ExpenseAmount) }

  /** The net effect of transactions on a balance. */
  function Net(s: seq<Transaction>): int { Sum(s, Signed) }

  /** The net effect is income minus expense. */
  lemma {:induction false} NetIsIncomeMinusExpense(s: seq<Transaction>)
    ensures Net(s) == TotalIncome(s) - TotalExpense(s)
  {
    if s != [] {
      NetIsIncomeMinusExpense(s[..|s| - 1]);
    }
  }

  /** Every amount is a non-negative magnitude. */
  predicate NonNegativeAmounts(s: seq<Transaction>)
  {
    forall i :: 0 <= i < |s| ==> s[i].amount >= 0
  }

  /** `part / total * 100`, or 0 when the total is zero. */
  function Percent(part: int, total: int): real
  {
    if total == 0 then 0.0 else (part as real) / (total as real) * 100.0
  }

  /** A part between 0 and a positive total is between 0 and 100 percent of it. */
  lemma PercentBounds(part: int, total: int)
    requires 0 <= part <= total
    ensures 0.0 <= Percent(part, total) <= 100.0
  {
    if total != 0 {
      assert (part as real) / (total as real) <= 1.0;
    }
  }

  /** A part no larger than a non-negative total is at most 100 percent of it. */
  lemma PercentAtMostHundred(part: int, total: int)
    requires part <= total && 0 <= total
    ensures Percent(part, total) <= 100.0
  {
    if total != 0 {
      assert (part as real) / (total as real) <= 1.0;
    }
  }

  /** The same part of a larger base is a smaller percentage. */
  lemma PercentOfLargerBase(part: int, small: int, large: int)
    requires 0 <= part && 0 < small <= large
    ensures Percent(part, large) <= Percent(part, small)
  {
    var a, p, q := part as real, small as real, large as real;
    var x, y := a / q, a / p;
    assert x * q == a && y * p == a;
    assert x >= 0.0;
    assert x * (q - p) >= 0.0;
    assert x * q - x * p == x * (q - p);
    assert (y - x) * p == y * p - x * p;
    assert (y - x) * p >= 0.0;
  }

  function Amount(t: Transaction): int { t.amount }
  function DueTime(t: Transaction): int { t.dueDate.time }
  function CompetenceTime(t: Transaction): int { t.competenceDate.time }

  /** A later instant never falls on an earlier day. */
  lemma DayKeyMonotone(a: Date, b: Date)
    requires a.time <= b.time
    ensures DayKey(a) <= DayKey(b)
  {
    var qa, qb := a.time / MsPerDay, b.time / MsPerDay;
    assert qa * MsPerDay <= a.time < qa * MsPerDay + MsPerDay;
    assert qb * MsPerDay <= b.time < qb * MsPerDay + MsPerDay;
  }
}
