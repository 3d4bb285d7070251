/** The per-category delinquency panel (src/Dashboard.tsx): open receivables are
    tallied per category into a total and an overdue part, each category gets a
    delinquency rate, the categories are ranked by it, and an overall figure is
    taken over the ranked list. */
module CategoryDelinquency {
  import opened Wrappers
  import opened Types
  import opened Folds
  import opened Records
  import opened Sorting
  import opened Ledger

  /** Income not yet reconciled, whatever its status. */
  predicate Considered(t: Transaction)
  {
    t.txType == Income && !t.reconciled
  }

  function OpenIncome(ts: seq<Transaction>): seq<Transaction>
  {
    Filter(ts, Considered)
  }

  /** Due strictly before the reference instant `now`. */
  predicate Late(t: Transaction, now: int)
  {
    t.dueDate.time < now
  }

  /** One category's accumulator. */
  datatype CategoryRisk = CategoryRisk(
    name: string, totalAmount: int, overdueAmount: int, transactions: nat, overdueTransactions: nat)

  function RiskName(c: CategoryRisk): string { c.name }
  function RiskTotal(c: CategoryRisk): int { c.totalAmount }
  function RiskOverdue(c: CategoryRisk): int { c.overdueAmount }
  function RiskOverdueCount(c: CategoryRisk): int { c.overdueTransactions }

  /** The share of a category's open amount that is overdue, in percent; 0 for a
      category whose total is zero. */
  function Rate(c: CategoryRisk): real
  {
    Percent(c.overdueAmount, c.totalAmount)
  }

  /** A transaction counted into its category's accumulator. */
  function Charged(c: CategoryRisk, t: Transaction, now: int): CategoryRisk
  {
    var late := Late(t, now);
    CategoryRisk(c.name, c.totalAmount + t.amount,
      if late then c.overdueAmount + t.amount else c.overdueAmount,
      c.transactions + 1,
      if late then c.overdueTransactions + 1 else c.overdueTransactions)
  }

  /** One transaction of the loop: skipped without a category, otherwise counted
      into its category's entry, which is created at zero on first sight. */
  function Tallied(cs: seq<CategoryRisk>, t: Transaction, now: int): seq<CategoryRisk>
  {
    if t.category == "" then cs
    else match IndexOf(cs, RiskName, t.category)
      case None => cs + [Charged(CategoryRisk(t.category, 0, 0, 0, 0), t, now)]
      case Some(k) => cs[k := Charged(cs[k], t, now)]
  }

  /** The accumulators, in first-seen order, after the transactions `p`. */
  function Risks(p: seq<Transaction>, now: int): seq<CategoryRisk>
  {
    if p == [] then [] else Tallied(Risks(p[..|p| - 1], now), p[|p| - 1], now)
  }

  /** `delinquencyAnalysis`: the categories ranked by rate, highest first. */
  function DelinquencyAnalysis(ts: seq<Transaction>, now: int): seq<CategoryRisk>
  {
    RankBy(Risks(OpenIncome(ts), now), Rate)
  }

  /** The loop that fills the per-category map, then the ranking. */
  method AnalyseDelinquency(ts: seq<Transaction>, now: int) returns (r: seq<CategoryRisk>)
    ensures r == DelinquencyAnalysis(ts, now)
  {
    var open := OpenIncome(ts);
    var cs: seq<CategoryRisk> := [];
    for i := 0 to |open|
      invariant cs == Risks(open[..i], now)
    {
      assert open[..i + 1][..i] == open[..i];
      cs := CountInto(cs, open[i], now);
    }
    assert open[..|open|] == open;
    r := RankBy(cs, Rate);
  }

  /** The body of the loop: one transaction counted into its category's entry. */
  method CountInto(cs: seq<CategoryRisk>, t: Transaction, now: int) returns (updated: seq<CategoryRisk>)
    ensures updated == Tallied(cs, t, now)
  {
    updated := cs;
    if t.category != "" {
      var k := IndexOf(updated, RiskName, t.category);
      if k.None? {
        updated := updated + [CategoryRisk(t.category, 0, 0, 0, 0)];
        k := Some(|updated| - 1);
      }
      var c := updated[k.value];
      c := c.(totalAmount := c.totalAmount + t.amount, transactions := c.transactions + 1);
      if t.dueDate.time < now {
        c := c.(overdueAmount := c.overdueAmount + t.amount, overdueTransactions := c.overdueTransactions + 1);
      }
      updated := updated[k.value := c];
    }
  }

  // ------------------------------------------------------------ each entry

  function AmountIn(name: string): Transaction -> int
  {
    (t: Transaction) => if t.category == name then t.amount else 0
  }

  function OverdueIn(name: string, now: int): Transaction -> int
  {
    (t: Transaction) => if t.category == name && Late(t, now) then t.amount else 0
  }

  function In(name: string): Transaction -> bool
  {
    (t: Transaction) => t.category == name
  }

  function LateIn(name: string, now: int): Transaction -> bool
  {
    (t: Transaction) => t.category == name && Late(t, now)
  }

  /** An entry holds exactly the transactions of its category. */
  predicate Direct(c: CategoryRisk, p: seq<Transaction>, now: int)
  {
    && c.name != ""
    && c.totalAmount == Sum(p, AmountIn(c.name))
    && c.overdueAmount == Sum(p, OverdueIn(c.name, now))
    && c.transactions == Count(p, In(c.name))
    && c.overdueTransactions == Count(p, LateIn(c.name, now))
  }

  /** Entries with distinct names, one for every category that occurs, each
      holding exactly that category's transactions. */
  predicate Tally(cs: seq<CategoryRisk>, p: seq<Transaction>, now: int)
  {
    && (forall i, j :: 0 <= i < j < |cs| ==> cs[i].name != cs[j].name)
    && (forall k :: 0 <= k < |cs| ==> Direct(cs[k], p, now))
    && (forall i :: 0 <= i < |p| && p[i].category != "" ==> exists k :: 0 <= k < |cs| && cs[k].name == p[i].category)
  }

  lemma ChargedDirect(c: CategoryRisk, p: seq<Transaction>, t: Transaction, now: int)
    requires Direct(c, p, now) && t.category == c.name
    ensures Direct(Charged(c, t, now), p + [t], now)
  {
    SumAfter(p, t, AmountIn(c.name));
    SumAfter(p, t, OverdueIn(c.name, now));
    CountAfter(p, t, In(c.name));
    CountAfter(p, t, LateIn(c.name, now));
  }

  lemma UntouchedDirect(c: CategoryRisk, p: seq<Transaction>, t: Transaction, now: int)
    requires Direct(c, p, now) && t.category != c.name
    ensures Direct(c, p + [t], now)
  {
    SumAfter(p, t, AmountIn(c.name));
    SumAfter(p, t, OverdueIn(c.name, now));
    CountAfter(p, t, In(c.name));
    CountAfter(p, t, LateIn(c.name, now));
  }

  /** A category that has not occurred yet starts from nothing. */
  lemma FreshDirect(p: seq<Transaction>, name: string, now: int)
    requires name != ""
    requires forall i :: 0 <= i < |p| ==> p[i].category != name
    ensures Direct(CategoryRisk(name, 0, 0, 0, 0), p, now)
  {
    SumZero(p, AmountIn(name));
    SumZero(p, OverdueIn(name, now));
    CountNone(p, In(name));
    CountNone(p, LateIn(name, now));
  }

  lemma TalliedStep(cs: seq<CategoryRisk>, p: seq<Transaction>, t: Transaction, now: int)
    requires Tally(cs, p, now)
    ensures Tally(Tallied(cs, t, now), p + [t], now)
  {
    if t.category == "" {
      TalliedSkip(cs, p, t, now);
    } else {
      match IndexOf(cs, RiskName, t.category)
      case None =>
        TalliedFresh(cs, p, t, now);
      case Some(k) =>
        TalliedExisting(cs, p, t, now, k);
    }
  }

  /** Entries of other categories are untouched by a transaction. */
  lemma OthersDirect(cs: seq<CategoryRisk>, p: seq<Transaction>, t: Transaction, now: int)
    requires forall k :: 0 <= k < |cs| ==> Direct(cs[k], p, now)
    ensures forall k :: 0 <= k < |cs| && cs[k].name != t.category ==> Direct(cs[k], p + [t], now)
  {
    forall k | 0 <= k < |cs| && cs[k].name != t.category
      ensures Direct(cs[k], p + [t], now)
    {
      UntouchedDirect(cs[k], p, t, now);
    }
  }

  lemma TalliedSkip(cs: seq<CategoryRisk>, p: seq<Transaction>, t: Transaction, now: int)
    requires Tally(cs, p, now) && t.category == ""
    ensures Tally(cs, p + [t], now)
  {
    OthersDirect(cs, p, t, now);
    assert (p + [t])[|p|] == t;
    assert forall i :: 0 <= i < |p| ==> (p + [t])[i] == p[i];
  }

  lemma TalliedFresh(cs: seq<CategoryRisk>, p: seq<Transaction>, t: Transaction, now: int)
    requires Tally(cs, p, now) && t.category != ""
    requires forall j :: 0 <= j < |cs| ==> cs[j].name != t.category
    ensures Tally(cs + [Charged(CategoryRisk(t.category, 0, 0, 0, 0), t, now)], p + [t], now)
  {
    var q := p + [t];
    var r := cs + [Charged(CategoryRisk(t.category, 0, 0, 0, 0), t, now)];
    OthersDirect(cs, p, t, now);
    assert forall i :: 0 <= i < |p| ==> p[i].category != t.category;
    FreshDirect(p, t.category, now);
    ChargedDirect(CategoryRisk(t.category, 0, 0, 0, 0), p, t, now);
    forall i | 0 <= i < |q| && q[i].category != ""
      ensures exists k :: 0 <= k < |r| && r[k].name == q[i].category
    {
      if i == |p| {
        assert r[|cs|].name == q[i].category;
      } else {
        assert q[i] == p[i];
        var k :| 0 <= k < |cs| && cs[k].name == p[i].category;
        assert r[k].name == q[i].category;
      }
    }
  }

  lemma TalliedExisting(cs: seq<CategoryRisk>, p: seq<Transaction>, t: Transaction, now: int, k: nat)
    requires Tally(cs, p, now) && k < |cs| && cs[k].name == t.category
    ensures Tally(cs[k := Charged(cs[k], t, now)], p + [t], now)
  {
    var q := p + [t];
    var r := cs[k := Charged(cs[k], t, now)];
    OthersDirect(cs, p, t, now);
    ChargedDirect(cs[k], p, t, now);
    forall i | 0 <= i < |q| && q[i].category != ""
      ensures exists j :: 0 <= j < |r| && r[j].name == q[i].category
    {
      if i == |p| {
        assert r[k].name == q[i].category;
      } else {
        assert q[i] == p[i];
        var j :| 0 <= j < |cs| && cs[j].name == p[i].category;
        assert r[j].name == q[i].category;
      }
    }
  }

  lemma {:induction false} RisksTally(p: seq<Transaction>, now: int)
    ensures Tally(Risks(p, now), p, now)
  {
    if p != [] {
      var init := p[..|p| - 1];
      RisksTally(init, now);
      TalliedStep(Risks(init, now), init, p[|p| - 1], now);
      assert init + [p[|p| - 1]] == p;
    }
  }

  /** Every ranked entry is one category of the open income, named at most once,
      holding that category's total, overdue amount and counts; every category
      of the open income has an entry. */
  lemma AnalysisEntries(ts: seq<Transaction>, now: int)
    ensures var r := DelinquencyAnalysis(ts, now);
      && (forall c :: c in r ==> Direct(c, OpenIncome(ts), now))
      && (forall t :: t in OpenIncome(ts) && t.category != "" ==> exists c :: c in r && c.name == t.category)
  {
    var p := OpenIncome(ts);
    var cs := Risks(p, now);
    RisksTally(p, now);
    RankByCorrect(cs, Rate);
    PermutationSameElements(RankBy(cs, Rate), cs);
    forall t | t in p && t.category != "" ensures exists c :: c in RankBy(cs, Rate) && c.name == t.category {
      var i :| 0 <= i < |p| && p[i] == t;
      var k :| 0 <= k < |cs| && cs[k].name == p[i].category;
      assert cs[k] in cs;
    }
  }

  /** An entry never has more overdue than open transactions; with non-negative
      amounts its overdue amount is at most its total and its rate lies in
      [0, 100]; a zero total gives rate 0. */
  lemma EntryBounds(ts: seq<Transaction>, now: int, c: CategoryRisk)
    requires c in DelinquencyAnalysis(ts, now)
    ensures c.overdueTransactions <= c.transactions
    ensures c.totalAmount == 0 ==> Rate(c) == 0.0
    ensures NonNegativeAmounts(ts) ==> 0 <= c.overdueAmount <= c.totalAmount && 0.0 <= Rate(c) <= 100.0
  {
    var p := OpenIncome(ts);
    AnalysisEntries(ts, now);
    assert Direct(c, p, now);
    CountMonotone(p, LateIn(c.name, now), In(c.name));
    if NonNegativeAmounts(ts) {
      FilterMembers(ts, Considered);
      forall i | 0 <= i < |p| ensures 0 <= OverdueIn(c.name, now)(p[i]) <= AmountIn(c.name)(p[i]) {
        assert p[i] in ts;
      }
      SumNonNegative(p, OverdueIn(c.name, now));
      SumMonotone(p, OverdueIn(c.name, now), AmountIn(c.name));
      PercentBounds(c.overdueAmount, c.totalAmount);
    }
  }

  /** The ranking puts higher rates first and only rearranges the categories. */
  lemma AnalysisRanked(ts: seq<Transaction>, now: int)
    ensures RankedBy(DelinquencyAnalysis(ts, now), Rate)
    ensures multiset(DelinquencyAnalysis(ts, now)) == multiset(Risks(OpenIncome(ts), now))
  {
    RankByCorrect(Risks(OpenIncome(ts), now), Rate);
  }

  // ------------------------------------------------------------ the overall figure

  datatype Overall = Overall(rate: real, amount: int, transactions: int)

  /** `totalDelinquency`, taken over the ranked categories. */
  function TotalDelinquency(cs: seq<CategoryRisk>): Overall
  {
    Overall(Percent(Sum(cs, RiskOverdue), Sum(cs, RiskTotal)), Sum(cs, RiskOverdue), Sum(cs, RiskOverdueCount))
  }

  function Categorised(t: Transaction): int
  {
    if t.category != "" then t.amount else 0
  }

  function CategorisedOverdue(now: int): Transaction -> int
  {
    (t: Transaction) => if t.category != "" && Late(t, now) then t.amount else 0
  }

  function CategorisedLate(now: int): Transaction -> bool
  {
    (t: Transaction) => t.category != "" && Late(t, now)
  }

  lemma TalliedSums(cs: seq<CategoryRisk>, t: Transaction, now: int)
    ensures Sum(Tallied(cs, t, now), RiskTotal) == Sum(cs, RiskTotal) + Categorised(t)
    ensures Sum(Tallied(cs, t, now), RiskOverdue) == Sum(cs, RiskOverdue) + CategorisedOverdue(now)(t)
    ensures Sum(Tallied(cs, t, now), RiskOverdueCount) == Sum(cs, RiskOverdueCount) + (if CategorisedLate(now)(t) then 1 else 0)
  {
    if t.category != "" {
      match IndexOf(cs, RiskName, t.category)
      case None =>
        var c := Charged(CategoryRisk(t.category, 0, 0, 0, 0), t, now);
        SumAfter(cs, c, RiskTotal);
        SumAfter(cs, c, RiskOverdue);
        SumAfter(cs, c, RiskOverdueCount);
      case Some(k) =>
        var c := Charged(cs[k], t, now);
        SumUpdate(cs, k, c, RiskTotal);
        SumUpdate(cs, k, c, RiskOverdue);
        SumUpdate(cs, k, c, RiskOverdueCount);
    }
  }

  lemma {:induction false} RisksSums(p: seq<Transaction>, now: int)
    ensures Sum(Risks(p, now), RiskTotal) == Sum(p, Categorised)
    ensures Sum(Risks(p, now), RiskOverdue) == Sum(p, CategorisedOverdue(now))
    ensures Sum(Risks(p, now), RiskOverdueCount) == Count(p, CategorisedLate(now))
  {
    if p != [] {
      var init := p[..|p| - 1];
      RisksSums(init, now);
      TalliedSums(Risks(init, now), p[|p| - 1], now);
    }
  }

  /** The overall amount and count are those of the overdue open income with a
      category, the overall total is all open income with a category, and the
      rate is 0 when that total is zero. */
  lemma TotalDelinquencySpec(ts: seq<Transaction>, now: int)
    ensures var o := TotalDelinquency(DelinquencyAnalysis(ts, now));
      var p := OpenIncome(ts);
      && o.amount == Sum(p, CategorisedOverdue(now))
      && o.transactions == Count(p, CategorisedLate(now))
      && o.rate == Percent(Sum(p, CategorisedOverdue(now)), Sum(p, Categorised))
      && (Sum(p, Categorised) == 0 ==> o.rate == 0.0)
  {
    var p := OpenIncome(ts);
    RisksSums(p, now);
    RankBySum(Risks(p, now), Rate, RiskTotal);
    RankBySum(Risks(p, now), Rate, RiskOverdue);
    RankBySum(Risks(p, now), Rate, RiskOverdueCount);
  }
}
