/**
 * The finance screens' logic: grouping transactions by day (newest day first),
 * the day total, the budget and alert figures, the dashboard balance, the
 * category lookup this module uses, and the transaction filters that
 * `loadTransactions` merges before asking the server.
 *
 * Amounts are exact rationals (`real`); the server call is an input outcome.
 */
module Finances {
  import opened Basics
  import opened Text
  import opened Config

  datatype Transaction = Transaction(id: string, kind: string, category: string, amount: real, date: string, description: string)

  /** One day's transactions, as `groupTransactionsByDate` returns them. */
  datatype Group = Group(date: string, items: seq<Transaction>)

  /** `t.date.split('T')[0]`: the calendar day of an ISO timestamp. */
  function DayKey(t: Transaction): string {
    BeforeChar(t.date, 'T')
  }

  // ---------------------------------------------------------------------------
  // Grouping: the specification

  /** The transactions dated `d`, in input order. */
  function OfDay(ts: seq<Transaction>, d: string): (r: seq<Transaction>)
    ensures forall t :: t in r <==> t in ts && DayKey(t) == d
  {
    if |ts| == 0 then []
    else
      var init := ts[..|ts| - 1];
      assert ts == init + [ts[|ts| - 1]];
      OfDay(init, d) + (if DayKey(ts[|ts| - 1]) == d then [ts[|ts| - 1]] else [])
  }

  lemma OfDayStep(ts: seq<Transaction>, i: nat, d: string)
    requires i < |ts|
    ensures DayKey(ts[i]) == d ==> OfDay(ts[..i + 1], d) == OfDay(ts[..i], d) + [ts[i]]
    ensures DayKey(ts[i]) != d ==> OfDay(ts[..i + 1], d) == OfDay(ts[..i], d)
  {
    assert ts[..i + 1][..i] == ts[..i];
    OfDayLast(ts[..i + 1], d);
  }

  /** Each transaction occurs in its day's list exactly as often as in the input, and in no other day's list. */
  lemma {:induction false} OfDayCount(ts: seq<Transaction>, d: string, t: Transaction)
    ensures multiset(OfDay(ts, d))[t] == if DayKey(t) == d then multiset(ts)[t] else 0
  {
    if |ts| > 0 {
      var init := ts[..|ts| - 1];
      var last := ts[|ts| - 1];
      var rest := OfDay(init, d);
      OfDayCount(init, d, t);
      assert ts == init + [last];
      CountSnoc(init, last, t);
      OfDayLast(ts, d);
      if DayKey(last) == d {
        CountSnoc(rest, last, t);
      }
    }
  }

  lemma OfDayLast(ts: seq<Transaction>, d: string)
    requires |ts| > 0
    ensures DayKey(ts[|ts| - 1]) == d ==> OfDay(ts, d) == OfDay(ts[..|ts| - 1], d) + [ts[|ts| - 1]]
    ensures DayKey(ts[|ts| - 1]) != d ==> OfDay(ts, d) == OfDay(ts[..|ts| - 1], d)
  {
    assert OfDay(ts[..|ts| - 1], d) + [] == OfDay(ts[..|ts| - 1], d);
  }

  lemma CountSnoc(s: seq<Transaction>, x: Transaction, t: Transaction)
    ensures multiset(s + [x])[t] == multiset(s)[t] + if x == t then 1 else 0
  {
    assert multiset(s + [x]) == multiset(s) + multiset{x};
  }

  predicate Distinct(s: seq<string>) {
    forall a, b :: 0 <= a < b < |s| ==> s[a] != s[b]
  }

  /** Strictly newest first: for ISO `YYYY-MM-DD` days, later text is a later day. */
  predicate Descending(s: seq<string>) {
    forall i, j :: 0 <= i < j < |s| ==> LexLess(s[j], s[i])
  }

  /** What the grouping promises: one group per day present, each holding that day's transactions in order, newest day first. */
  predicate IsGrouping(ts: seq<Transaction>, groups: seq<Group>) {
    && (forall i :: 0 <= i < |groups| ==> groups[i].items == OfDay(ts, groups[i].date) && groups[i].items != [])
    && (forall t :: t in ts ==> exists i :: 0 <= i < |groups| && groups[i].date == DayKey(t))
    && (forall i, j :: 0 <= i < j < |groups| ==> LexLess(groups[j].date, groups[i].date))
  }

  /**
   * Every transaction falls in exactly one group, that of its day, as many
   * times as it occurs in the input: nothing is lost and nothing duplicated.
   */
  lemma GroupingPartitions(ts: seq<Transaction>, groups: seq<Group>, t: Transaction)
    requires IsGrouping(ts, groups) && t in ts
    ensures exists i :: 0 <= i < |groups| && groups[i].date == DayKey(t) && multiset(groups[i].items)[t] == multiset(ts)[t]
    ensures forall i :: 0 <= i < |groups| && groups[i].date != DayKey(t) ==> t !in groups[i].items
    ensures forall i, j :: 0 <= i < j < |groups| ==> groups[i].date != groups[j].date
  {
    var i :| 0 <= i < |groups| && groups[i].date == DayKey(t);
    OfDayCount(ts, groups[i].date, t);
    forall i, j | 0 <= i < j < |groups| ensures groups[i].date != groups[j].date {
      if groups[i].date == groups[j].date {
        LexLessIrreflexive(groups[i].date);
      }
    }
  }

  // ---------------------------------------------------------------------------
  // Sorting day keys, newest first

  function Insert(x: string, s: seq<string>): seq<string> {
    if |s| == 0 then [x]
    else if LexLess(s[0], x) then [x] + s
    else [s[0]] + Insert(x, s[1..])
  }

  /** `keys.sort((a, b) => new Date(b) - new Date(a))` on day keys. */
  function SortDescending(s: seq<string>): seq<string> {
    if |s| == 0 then [] else Insert(s[0], SortDescending(s[1..]))
  }

  lemma {:induction false} InsertPermutes(x: string, s: seq<string>)
    ensures multiset(Insert(x, s)) == multiset(s) + multiset{x}
  {
    if |s| > 0 && !LexLess(s[0], x) {
      InsertPermutes(x, s[1..]);
      assert s == [s[0]] + s[1..];
    }
  }

  lemma {:induction false} InsertKeepsDescending(x: string, s: seq<string>)
    requires Descending(s) && x !in s
    ensures Descending(Insert(x, s))
  {
    if |s| == 0 {
    } else if LexLess(s[0], x) {
      var r := [x] + s;
      forall i, j | 0 <= i < j < |r| ensures LexLess(r[j], r[i]) {
        if i == 0 && j > 1 {
          LexLessTransitive(s[j - 1], s[0], x);
        }
      }
    } else {
      LexLessTotal(x, s[0]);
      var rest := s[1..];
      assert Descending(rest);
      InsertKeepsDescending(x, rest);
      InsertPermutes(x, rest);
      var t := Insert(x, rest);
      var r := [s[0]] + t;
      forall i, j | 0 <= i < j < |r| ensures LexLess(r[j], r[i]) {
        if i == 0 {
          var y := t[j - 1];
          assert y in multiset(t);
          if y != x {
            assert y in multiset(rest);
            var k :| 0 <= k < |rest| && rest[k] == y;
            assert s[k + 1] == y;
          }
        }
      }
    }
  }

  lemma {:induction false} SortPermutes(s: seq<string>)
    ensures multiset(SortDescending(s)) == multiset(s)
  {
    if |s| > 0 {
      SortPermutes(s[1..]);
      InsertPermutes(s[0], SortDescending(s[1..]));
      assert s == [s[0]] + s[1..];
    }
  }

  /** Sorting distinct day keys gives the same keys, strictly newest first. */
  lemma {:induction false} SortSorts(s: seq<string>)
    requires Distinct(s)
    ensures Descending(SortDescending(s))
    ensures multiset(SortDescending(s)) == multiset(s)
  {
    SortPermutes(s);
    if |s| > 0 {
      var rest := s[1..];
      assert Distinct(rest);
      SortSorts(rest);
      assert s[0] !in rest;
      assert s[0] !in multiset(SortDescending(rest));
      InsertKeepsDescending(s[0], SortDescending(rest));
    }
  }

  // ---------------------------------------------------------------------------
  // Grouping: the method

  /** Each day present maps to its transactions, never to none; a day absent has none. */
  ghost predicate CollectedByDay(ts: seq<Transaction>, grouped: map<string, seq<Transaction>>) {
    && (forall d :: d in grouped ==> grouped[d] == OfDay(ts, d) && grouped[d] != [])
    && (forall d :: d !in grouped ==> OfDay(ts, d) == [])
  }

  /** After a prefix of the input: the dictionary as collected, and its keys in first-seen order, each once. */
  ghost predicate CollectedUpTo(ts: seq<Transaction>, grouped: map<string, seq<Transaction>>, order: seq<string>) {
    && CollectedByDay(ts, grouped)
    && (forall d :: d in grouped <==> d in order)
    && Distinct(order)
  }

  /** One step of the first pass: the transaction joins its day's list, a new day is appended to the order. */
  lemma CollectStep(ts: seq<Transaction>, i: nat, grouped: map<string, seq<Transaction>>, order: seq<string>,
                    grouped': map<string, seq<Transaction>>, order': seq<string>)
    requires i < |ts| && CollectedUpTo(ts[..i], grouped, order)
    requires grouped' == grouped[DayKey(ts[i]) := (if DayKey(ts[i]) in grouped then grouped[DayKey(ts[i])] else []) + [ts[i]]]
    requires order' == if DayKey(ts[i]) in grouped then order else order + [DayKey(ts[i])]
    ensures CollectedUpTo(ts[..i + 1], grouped', order')
  {
    CollectDayStep(ts, i, grouped, grouped');
    var date := DayKey(ts[i]);
    if date in grouped {
      assert grouped'.Keys == grouped.Keys;
    } else {
      assert grouped'.Keys == grouped.Keys + {date};
      AppendNewKey(order, date);
    }
  }

  /** The dictionary half of a step: every day's list is still that day's transactions so far. */
  lemma CollectDayStep(ts: seq<Transaction>, i: nat, grouped: map<string, seq<Transaction>>,
                       grouped': map<string, seq<Transaction>>)
    requires i < |ts| && CollectedByDay(ts[..i], grouped)
    requires grouped' == grouped[DayKey(ts[i]) := (if DayKey(ts[i]) in grouped then grouped[DayKey(ts[i])] else []) + [ts[i]]]
    ensures CollectedByDay(ts[..i + 1], grouped')
  {
    var date := DayKey(ts[i]);
    forall d | d in grouped' ensures grouped'[d] == OfDay(ts[..i + 1], d) && grouped'[d] != [] {
      OfDayStep(ts, i, d);
      if d != date {
        assert grouped'[d] == grouped[d];
      }
    }
    forall d | d !in grouped' ensures OfDay(ts[..i + 1], d) == [] {
      OfDayStep(ts, i, d);
    }
  }

  lemma AppendNewKey(order: seq<string>, key: string)
    requires Distinct(order) && key !in order
    ensures Distinct(order + [key])
  {
    var o := order + [key];
    forall a, b | 0 <= a < b < |o| ensures o[a] != o[b] {
      if b == |order| {
        assert o[a] == order[a];
      }
    }
  }

  /** The first pass of `groupTransactionsByDate`: a day-keyed dictionary of lists, filled in input order. */
  method CollectByDay(ts: seq<Transaction>) returns (grouped: map<string, seq<Transaction>>, order: seq<string>)
    ensures CollectedUpTo(ts, grouped, order)
  {
    grouped := map[];
    order := [];
    var i := 0;
    while i < |ts|
      invariant 0 <= i <= |ts|
      invariant CollectedUpTo(ts[..i], grouped, order)
    {
      grouped, order := CollectOne(ts, i, grouped, order);
      i := i + 1;
    }
    assert ts[..i] == ts;
  }

  /** The loop body of the first pass: `ts[i]` joins its day's list; a day seen for the first time joins the order. */
  method CollectOne(ts: seq<Transaction>, i: nat, grouped: map<string, seq<Transaction>>, order: seq<string>)
    returns (grouped': map<string, seq<Transaction>>, order': seq<string>)
    requires i < |ts| && CollectedUpTo(ts[..i], grouped, order)
    ensures CollectedUpTo(ts[..i + 1], grouped', order')
  {
    var t := ts[i];
    var date := BeforeChar(t.date, 'T');
    var current := if date in grouped then grouped[date] else [];
    order' := if date in grouped then order else order + [date];
    grouped' := grouped[date := current + [t]];
    CollectStep(ts, i, grouped, order, grouped', order');
  }

  /** `groupTransactionsByDate`: collect by day, then rebuild the dictionary newest day first. */
  method GroupTransactionsByDate(ts: seq<Transaction>) returns (groups: seq<Group>)
    ensures IsGrouping(ts, groups)
  {
    var grouped, order := CollectByDay(ts);
    var keys := SortDescending(order);
    SortSorts(order);
    SameMembers(keys, order);
    groups := Rebuild(keys, grouped);
    RebuiltIsGrouping(ts, grouped, keys, groups);
  }

  /** The second pass: one group per key, in the order of the keys. */
  method Rebuild(keys: seq<string>, grouped: map<string, seq<Transaction>>) returns (groups: seq<Group>)
    requires forall d :: d in keys ==> d in grouped
    ensures |groups| == |keys|
    ensures forall k :: 0 <= k < |keys| ==> groups[k] == Group(keys[k], grouped[keys[k]])
  {
    groups := [];
    var j := 0;
    while j < |keys|
      invariant 0 <= j <= |keys|
      invariant |groups| == j
      invariant forall k :: 0 <= k < j ==> groups[k] == Group(keys[k], grouped[keys[k]])
    {
      groups := groups + [Group(keys[j], grouped[keys[j]])];
      j := j + 1;
    }
  }

  /** Lists collected per day, laid out in the order of the sorted keys, form the grouping. */
  lemma RebuiltIsGrouping(ts: seq<Transaction>, grouped: map<string, seq<Transaction>>, keys: seq<string>, groups: seq<Group>)
    requires CollectedByDay(ts, grouped)
    requires forall d :: d in grouped <==> d in keys
    requires Descending(keys)
    requires |groups| == |keys|
    requires forall k :: 0 <= k < |keys| ==> groups[k] == Group(keys[k], grouped[keys[k]])
    ensures IsGrouping(ts, groups)
  {
    forall t | t in ts ensures exists k :: 0 <= k < |groups| && groups[k].date == DayKey(t) {
      assert t in OfDay(ts, DayKey(t));
      var k :| 0 <= k < |keys| && keys[k] == DayKey(t);
      assert groups[k].date == DayKey(t);
    }
  }

  lemma SameMembers(a: seq<string>, b: seq<string>)
    requires multiset(a) == multiset(b)
    ensures forall d :: d in a <==> d in b
  {
    forall d ensures d in a <==> d in b {
      assert d in a <==> d in multiset(a);
      assert d in b <==> d in multiset(b);
    }
  }

  // ---------------------------------------------------------------------------
  // Day total

  /** A transaction's contribution to its day: income adds, anything else subtracts. */
  function Signed(t: Transaction): real {
    if t.kind == "income" then t.amount else -t.amount
  }

  /** `items.reduce((sum, t) => sum + (t.type === 'income' ? t.amount : -t.amount), 0)` */
  function DayTotal(items: seq<Transaction>): real {
    if |items| == 0 then 0.0 else DayTotal(items[..|items| - 1]) + Signed(items[|items| - 1])
  }

  function Sum(items: seq<Transaction>): real {
    if |items| == 0 then 0.0 else Sum(items[..|items| - 1]) + items[|items| - 1].amount
  }

  /** The incomes among `items`, in order. */
  function Incomes(items: seq<Transaction>): seq<Transaction> {
    if |items| == 0 then []
    else Incomes(items[..|items| - 1]) + (if items[|items| - 1].kind == "income" then [items[|items| - 1]] else [])
  }

  /** Everything among `items` that is not an income, in order. */
  function Others(items: seq<Transaction>): seq<Transaction> {
    if |items| == 0 then []
    else Others(items[..|items| - 1]) + (if items[|items| - 1].kind != "income" then [items[|items| - 1]] else [])
  }

  lemma {:induction false} SumSnoc(items: seq<Transaction>, t: Transaction)
    ensures Sum(items + [t]) == Sum(items) + t.amount
  {
    assert (items + [t])[..|items|] == items;
  }

  /** The day total is the income of the day minus everything else spent that day. */
  lemma {:induction false} DayTotalSplit(items: seq<Transaction>)
    ensures DayTotal(items) == Sum(Incomes(items)) - Sum(Others(items))
  {
    if |items| > 0 {
      var init := items[..|items| - 1];
      var t := items[|items| - 1];
      DayTotalSplit(init);
      if t.kind == "income" {
        assert Incomes(items) == Incomes(init) + [t];
        assert Others(items) == Others(init);
        SumSnoc(Incomes(init), t);
      } else {
        assert Others(items) == Others(init) + [t];
        assert Incomes(items) == Incomes(init);
        SumSnoc(Others(init), t);
      }
    }
  }

  // ---------------------------------------------------------------------------
  // Budgets, alerts and the balance

  /** A JavaScript number as `Math.min(x, 100)` can leave it: finite, NaN or minus infinity. */
  datatype Percent = Finite(value: real) | NaN | NegativeInfinity

  datatype BudgetView = BudgetView(spent: real, remaining: real, overBudget: bool, percentage: Percent)

  function Min(a: real, b: real): real {
    if a <= b then a else b
  }

  /** The figures a budget card shows for a budget of `amount` with `spent` (absent reads 0). */
  function BudgetFigures(amount: real, spent: Option<real>): (v: BudgetView)
    ensures v.spent == spent.GetOr(0.0)
    ensures v.remaining == amount - v.spent
    ensures v.overBudget <==> v.spent > amount
    ensures v.percentage.Finite? ==> v.percentage.value <= 100.0
    ensures amount == 0.0 ==> (v.percentage.NaN? <==> v.spent == 0.0)
  {
    var s := spent.GetOr(0.0);
    var percentage :=
      if amount == 0.0 then
        (if s > 0.0 then Finite(100.0) else if s == 0.0 then NaN else NegativeInfinity)
      else Finite(Min(s / amount * 100.0, 100.0));
    BudgetView(s, amount - s, s > amount, percentage)
  }

  /** For a positive budget the bar is full exactly when the budget is used up, and an over-budget card is full. */
  lemma PositiveBudgetPercent(amount: real, spent: Option<real>)
    requires amount > 0.0
    ensures BudgetFigures(amount, spent).percentage.Finite?
    ensures BudgetFigures(amount, spent).percentage.value == 100.0 <==> spent.GetOr(0.0) >= amount
    ensures BudgetFigures(amount, spent).overBudget ==> BudgetFigures(amount, spent).percentage.value == 100.0
    ensures spent.GetOr(0.0) >= 0.0 ==> BudgetFigures(amount, spent).percentage.value >= 0.0
  {
    var s := spent.GetOr(0.0);
    if s >= amount {
      assert s / amount >= 1.0;
    } else {
      QuotientBelowOne(s, amount);
    }
  }

  lemma QuotientBelowOne(s: real, amount: real)
    requires amount > 0.0 && s < amount
    ensures s / amount < 1.0
  {
    var q := s / amount;
    assert q * amount == s;
  }

  datatype AlertLevel = Danger | Warning

  /** An alert is shown as danger when its percentage has reached 100. */
  function AlertFor(percentage: real): (level: AlertLevel)
    ensures level == Danger <==> percentage >= 100.0
  {
    if percentage >= 100.0 then Danger else Warning
  }

  /** A positive budget whose capped percentage is used as an alert's is a danger alert iff it is used up. */
  lemma BudgetAlertAgrees(amount: real, spent: Option<real>)
    requires amount > 0.0
    ensures BudgetFigures(amount, spent).percentage.Finite?
    ensures AlertFor(BudgetFigures(amount, spent).percentage.value) == Danger <==> spent.GetOr(0.0) >= amount
  {
    PositiveBudgetPercent(amount, spent);
  }

  /** The dashboard balance: income minus expense, an absent total reading 0. */
  function Balance(totalIncome: Option<real>, totalExpense: Option<real>): (b: real)
    ensures b >= 0.0 <==> totalIncome.GetOr(0.0) >= totalExpense.GetOr(0.0)
    ensures b + totalExpense.GetOr(0.0) == totalIncome.GetOr(0.0)
  {
    totalIncome.GetOr(0.0) - totalExpense.GetOr(0.0)
  }

  // ---------------------------------------------------------------------------
  // Category lookup of this module

  /** This module's own `getCategoryInfo`: the same tables, another fallback. */
  function CategoryInfoFor(category: string, kind: string): (info: CategoryInfo)
    ensures category in TableFor(kind) ==> info == TableFor(kind)[category]
    ensures category !in TableFor(kind) ==> info == CategoryInfo(category, "icon-tag", "#666")
  {
    var categories := TableFor(kind);
    if category in categories then categories[category] else CategoryInfo(category, "icon-tag", "#666")
  }

  /** It agrees with the configuration's lookup on known keys and never on unknown ones. */
  lemma CategoryLookupsAgreeOnKnownKeys(category: string, kind: string)
    ensures CategoryInfoFor(category, kind) == GetCategoryInfo(category, kind) <==> category in TableFor(kind)
  {
  }

  // ---------------------------------------------------------------------------
  // Filters and the transaction list

  /** A filter value: a text or `null`. */
  datatype FilterValue = NullFilter | Text(text: string)

  type Filters = map<string, FilterValue>

  const INITIAL_FILTERS: Filters := map["type" := Text("all"), "category" := Text("all"), "dateFrom" := NullFilter, "dateTo" := NullFilter]

  /** `{ ...current, ...supplied }` */
  function Merge(current: Filters, supplied: Filters): (r: Filters)
    ensures r.Keys == current.Keys + supplied.Keys
    ensures forall k :: k in supplied ==> r[k] == supplied[k]
    ensures forall k :: k in current && k !in supplied ==> r[k] == current[k]
  {
    map k | k in current.Keys + supplied.Keys :: if k in supplied then supplied[k] else current[k]
  }

  /** Merging the same filters again changes nothing; merging none keeps the current ones. */
  lemma MergeIdempotent(current: Filters, supplied: Filters)
    ensures Merge(Merge(current, supplied), supplied) == Merge(current, supplied)
    ensures Merge(current, map[]) == current
  {
  }

  /** The filter screen supplies all four keys, so what it supplies replaces the initial filters entirely. */
  lemma FullFiltersReplace(supplied: Filters)
    requires supplied.Keys == INITIAL_FILTERS.Keys
    ensures Merge(INITIAL_FILTERS, supplied) == supplied
  {
  }

  class Ledger {
    var transactions: seq<Transaction>
    var currentFilters: Filters
    /** The filters each server call was made with, oldest first. */
    var requests: seq<Filters>

    constructor()
      ensures transactions == [] && currentFilters == INITIAL_FILTERS && requests == []
    {
      transactions := [];
      currentFilters := INITIAL_FILTERS;
      requests := [];
    }

    /**
     * `loadTransactions(filters)`: the merged filters are stored before the call;
     * `outcome` is the call's answer (`None` for a missing list) or its error.
     */
    method LoadTransactions(supplied: Filters, outcome: Result<Option<seq<Transaction>>, string>) returns (r: seq<Transaction>)
      modifies this
      ensures currentFilters == Merge(old(currentFilters), supplied)
      ensures requests == old(requests) + [Merge(old(currentFilters), supplied)]
      ensures outcome.Success? ==> transactions == outcome.value.GetOr([]) && r == transactions
      ensures outcome.Failure? ==> transactions == old(transactions) && r == []
    {
      var merged := Merge(currentFilters, supplied);
      currentFilters := merged;
      requests := requests + [merged];
      match outcome
      case Success(data) =>
        transactions := data.GetOr([]);
        r := transactions;
      case Failure(_) =>
        r := [];
    }
  }
}
