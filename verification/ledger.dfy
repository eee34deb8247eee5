/**
 * The in-memory expense ledger: an ordered table of (Amount, Category, Date)
 * rows that only grows at its end, and the three read-only queries over it
 * (category filter, monthly totals, category totals).
 */
module Ledger {
  import opened Wrappers
  import opened Calendar
  import opened Text
  import opened GroupBy

  /** One row of the table. Amounts are exact; rows have no identity beyond their position. */
  datatype Expense = Expense(amount: real, category: string, date: Date)

  /**
   * The dates the table's nanosecond timestamp column can hold at midnight:
   * from 1677-09-22 to 2262-04-11 (the first representable instant falls
   * after midnight on 1677-09-21).
   */
  const FirstTimestampDate: Date := Date(1677, 9, 22)
  const LastTimestampDate: Date := Date(2262, 4, 11)

  predicate InTimestampRange(d: Date) {
    !DateBefore(d, FirstTimestampDate) && !DateBefore(LastTimestampDate, d)
  }

  /**
   * Converting the date text of a new row to a timestamp: the date the text
   * names, provided it is a valid date inside the timestamp range; otherwise
   * the conversion fails.
   */
  function ToTimestamp(text: string): (r: Option<Date>)
    ensures r.Some? ==> ParseDate(text) == r && ValidDate(r.value) && InTimestampRange(r.value)
    ensures r.None? ==> ParseDate(text).None? || !InTimestampRange(ParseDate(text).value)
  {
    match ParseDate(text)
    case Some(d) => if InTimestampRange(d) then Some(d) else None
    case None => None
  }

  /** A row as the menu creates it: a positive amount, a valid date, a normalised category. */
  predicate WellFormed(e: Expense) {
    && e.amount > 0.0
    && ValidDate(e.date)
    && InTimestampRange(e.date)
    && IsNormalized(e.category)
  }

  /** Sum of all amounts. */
  function TotalSpent(es: seq<Expense>): real {
    if es == [] then 0.0 else es[0].amount + TotalSpent(es[1..])
  }

  // ---------------------------------------------------------------------------
  // Filtering by category

  /** The case-insensitive category match: lower-cased category equals lower-cased query. */
  predicate SameCategory(e: Expense, query: string) {
    Lower(e.category) == Lower(query)
  }

  /** The rows whose category matches query, in table order. */
  function FilterCategory(es: seq<Expense>, query: string): (r: seq<Expense>)
    ensures |r| <= |es|
    ensures forall i :: 0 <= i < |r| ==> SameCategory(r[i], query)
  {
    if es == [] then []
    else (if SameCategory(es[0], query) then [es[0]] else []) + FilterCategory(es[1..], query)
  }

  /** sub can be obtained from s by deleting elements, keeping the order of the rest. */
  predicate IsSubsequence<T(==)>(sub: seq<T>, s: seq<T>)
    decreases |s|
  {
    if sub == [] then true
    else if s == [] then false
    else if sub[0] == s[0] then IsSubsequence(sub[1..], s[1..])
    else IsSubsequence(sub, s[1..])
  }

  /** The filtered rows keep their original relative order. */
  lemma {:induction false} FilterIsSubsequence(es: seq<Expense>, query: string)
    ensures IsSubsequence(FilterCategory(es, query), es)
  {
    if es != [] {
      FilterIsSubsequence(es[1..], query);
      var rest := FilterCategory(es[1..], query);
      if SameCategory(es[0], query) {
        assert FilterCategory(es, query)[1..] == rest;
      } else {
        assert FilterCategory(es, query) == rest;
        if rest != [] {
          assert SameCategory(rest[0], query);
        }
      }
    }
  }

  /** The filter keeps every matching row, as often as it occurs, and no other row. */
  lemma {:induction false} FilterKeepsExactlyMatches(es: seq<Expense>, query: string)
    ensures forall x ::
      multiset(FilterCategory(es, query))[x] == (if SameCategory(x, query) then multiset(es)[x] else 0)
  {
    if es != [] {
      FilterKeepsExactlyMatches(es[1..], query);
      assert es == [es[0]] + es[1..];
      assert multiset(es) == multiset{es[0]} + multiset(es[1..]);
    }
  }

  // ---------------------------------------------------------------------------
  // Monthly summary

  /** A calendar month, the group key of the monthly summary. */
  datatype Month = Month(year: int, month: int)

  function MonthOf(d: Date): Month {
    Month(d.year, d.month)
  }

  /** Chronological order on months. */
  predicate MonthBefore(a: Month, b: Month) {
    a.year < b.year || (a.year == b.year && a.month < b.month)
  }

  /** The (month, amount) pairs of the rows, in table order. */
  function ByMonth(es: seq<Expense>): seq<(Month, real)> {
    if es == [] then [] else [(MonthOf(es[0].date), es[0].amount)] + ByMonth(es[1..])
  }

  /** What was spent in month m. */
  function SpentIn(es: seq<Expense>, m: Month): real {
    if es == [] then 0.0
    else (if MonthOf(es[0].date) == m then es[0].amount else 0.0) + SpentIn(es[1..], m)
  }

  /** The monthly summary: total per month, months in chronological order. */
  function MonthlyTotals(es: seq<Expense>): seq<(Month, real)> {
    GroupSum(ByMonth(es), MonthBefore)
  }

  lemma MonthOrder()
    ensures StrictTotalOrder(MonthBefore)
  {
  }

  lemma {:induction false} ByMonthAgrees(es: seq<Expense>)
    ensures forall m :: SumOf(ByMonth(es), m) == SpentIn(es, m)
    ensures Total(ByMonth(es)) == TotalSpent(es)
    ensures forall m :: m in Keys(ByMonth(es)) <==> exists e :: e in es && MonthOf(e.date) == m
  {
    if es != [] {
      ByMonthAgrees(es[1..]);
      assert ByMonth(es)[1..] == ByMonth(es[1..]);
      forall m ensures m in Keys(ByMonth(es)) <==> exists e :: e in es && MonthOf(e.date) == m {
        if m in Keys(ByMonth(es[1..])) {
          var e :| e in es[1..] && MonthOf(e.date) == m;
          assert e in es;
        }
      }
    }
  }

  /**
   * The monthly summary has one row per month that occurs in the table, in
   * chronological order, and each row holds what was spent in that month.
   */
  lemma MonthlyTotalsCorrect(es: seq<Expense>)
    ensures Ascending(MonthlyTotals(es), MonthBefore)
    ensures forall m :: m in Keys(MonthlyTotals(es)) <==> exists e :: e in es && MonthOf(e.date) == m
    ensures forall i :: 0 <= i < |MonthlyTotals(es)| ==>
      MonthlyTotals(es)[i].1 == SpentIn(es, MonthlyTotals(es)[i].0)
  {
    MonthOrder();
    GroupSumCorrect(ByMonth(es), MonthBefore);
    ByMonthAgrees(es);
  }

  /** The monthly totals add up to everything spent. */
  lemma MonthlyConservation(es: seq<Expense>)
    ensures Total(MonthlyTotals(es)) == TotalSpent(es)
  {
    ByMonthAgrees(es);
  }

  // ---------------------------------------------------------------------------
  // Category analysis

  /** The (category, amount) pairs of the rows, in table order. */
  function ByCategory(es: seq<Expense>): seq<(string, real)> {
    if es == [] then [] else [(es[0].category, es[0].amount)] + ByCategory(es[1..])
  }

  /** What was spent under exactly the category c. */
  function SpentOn(es: seq<Expense>, c: string): real {
    if es == [] then 0.0
    else (if es[0].category == c then es[0].amount else 0.0) + SpentOn(es[1..], c)
  }

  /** The category analysis: total per category string, categories in code-point order. */
  function CategoryTotals(es: seq<Expense>): seq<(string, real)> {
    GroupSum(ByCategory(es), TextBefore)
  }

  lemma TextOrder()
    ensures StrictTotalOrder(TextBefore)
  {
    forall a: string ensures !TextBefore(a, a) {
      TextBeforeIrreflexive(a);
    }
    forall a: string, b: string, c: string | TextBefore(a, b) && TextBefore(b, c)
      ensures TextBefore(a, c)
    {
      TextBeforeTransitive(a, b, c);
    }
    forall a: string, b: string | a != b ensures TextBefore(a, b) || TextBefore(b, a) {
      TextBeforeTotal(a, b);
    }
  }

  lemma {:induction false} ByCategoryAgrees(es: seq<Expense>)
    ensures forall c :: SumOf(ByCategory(es), c) == SpentOn(es, c)
    ensures Total(ByCategory(es)) == TotalSpent(es)
    ensures forall c :: c in Keys(ByCategory(es)) <==> exists e :: e in es && e.category == c
  {
    if es != [] {
      ByCategoryAgrees(es[1..]);
      assert ByCategory(es)[1..] == ByCategory(es[1..]);
      forall c ensures c in Keys(ByCategory(es)) <==> exists e :: e in es && e.category == c {
        if c in Keys(ByCategory(es[1..])) {
          var e :| e in es[1..] && e.category == c;
          assert e in es;
        }
      }
    }
  }

  /**
   * The category analysis has one row per distinct category string, in
   * ascending order, and each row holds what was spent under that category.
   */
  lemma CategoryTotalsCorrect(es: seq<Expense>)
    ensures Ascending(CategoryTotals(es), TextBefore)
    ensures forall c :: c in Keys(CategoryTotals(es)) <==> exists e :: e in es && e.category == c
    ensures forall i :: 0 <= i < |CategoryTotals(es)| ==>
      CategoryTotals(es)[i].1 == SpentOn(es, CategoryTotals(es)[i].0)
  {
    TextOrder();
    GroupSumCorrect(ByCategory(es), TextBefore);
    ByCategoryAgrees(es);
  }

  /** The category totals add up to everything spent. */
  lemma CategoryConservation(es: seq<Expense>)
    ensures Total(CategoryTotals(es)) == TotalSpent(es)
  {
    ByCategoryAgrees(es);
  }

  /** The two summaries account for the same money. */
  lemma SummariesAgree(es: seq<Expense>)
    ensures Total(MonthlyTotals(es)) == Total(CategoryTotals(es))
  {
    MonthlyConservation(es);
    CategoryConservation(es);
  }

  /** Two January amounts fall into one month, and February follows it. */
  lemma MonthlyExample()
    ensures MonthlyTotals([Expense(10.0, "Food", Date(2024, 1, 5)), Expense(20.0, "Food", Date(2024, 1, 20)),
                           Expense(5.0, "Transport", Date(2024, 2, 1))])
         == [(Month(2024, 1), 30.0), (Month(2024, 2), 5.0)]
  {
  }

  /** Amounts add up per category, whatever their dates. */
  lemma CategoryExample()
    ensures CategoryTotals([Expense(10.0, "Food", Date(2024, 1, 5)), Expense(7.0, "Transport", Date(2024, 1, 6)),
                            Expense(5.0, "Food", Date(2024, 3, 1))])
         == [("Food", 15.0), ("Transport", 7.0)]
  {
    var food, transport := "Food", "Transport";
    assert food[0] == 'F' && transport[0] == 'T';
    assert TextBefore(food, transport) && !TextBefore(transport, food);
    var one := GroupSum([(food, 5.0)], TextBefore);
    assert one == [(food, 5.0)];
    assert food != transport by { assert |food| != |transport|; }
    assert Insert([], transport, 7.0, TextBefore) == [(transport, 7.0)];
    var two := Insert(one, transport, 7.0, TextBefore);
    assert two == [one[0]] + Insert([], transport, 7.0, TextBefore);
    assert Insert(two, food, 10.0, TextBefore) == [(food, 15.0), (transport, 7.0)];
  }

  /** Filtering with "food" or "FOOD" finds a "Food" row. */
  lemma FilterExample()
    ensures FilterCategory([Expense(10.0, "Food", Date(2024, 1, 5))], "food") == [Expense(10.0, "Food", Date(2024, 1, 5))]
    ensures FilterCategory([Expense(10.0, "Food", Date(2024, 1, 5))], "FOOD") == [Expense(10.0, "Food", Date(2024, 1, 5))]
  {
  }

  /** The key of the first row is among the keys of a row list. */
  lemma {:induction false} KeysNonEmpty<K>(rows: seq<(K, real)>)
    requires rows != []
    ensures rows[0].0 in Keys(rows)
  {
  }

  /**
   * When every category was normalised on entry, filtering with a normalised
   * query is the exact match on that category: it selects exactly the rows of
   * that category's group, and their total is that group's total.
   */
  lemma {:induction false} FilterIsCategoryGroup(es: seq<Expense>, query: string)
    requires forall i :: 0 <= i < |es| ==> IsNormalized(es[i].category)
    ensures forall i :: 0 <= i < |FilterCategory(es, Normalize(query))| ==>
      FilterCategory(es, Normalize(query))[i].category == Normalize(query)
    ensures TotalSpent(FilterCategory(es, Normalize(query))) == SpentOn(es, Normalize(query))
  {
    if es != [] {
      var q := Normalize(query);
      NormalizeIdempotent(query);
      NormalizedCaseInsensitive(es[0].category, q);
      FilterIsCategoryGroup(es[1..], query);
      var r := FilterCategory(es, q);
      if SameCategory(es[0], q) {
        assert r[1..] == FilterCategory(es[1..], q);
      } else {
        assert r == FilterCategory(es[1..], q);
      }
    }
  }

  // ---------------------------------------------------------------------------
  // The tracker

  /** What a query reports: an empty table, no matching row, or its result. */
  datatype Report<T> = NoExpenses | NoMatch | Found(result: T)

  /** What "view all" shows: "no expenses" for an empty table, otherwise every row. */
  function ViewReport(es: seq<Expense>): (r: Report<seq<Expense>>)
    ensures r == NoExpenses <==> es == []
    ensures !r.NoMatch?
    ensures r.Found? ==> r.result == es
  {
    if es == [] then NoExpenses else Found(es)
  }

  /**
   * What the category filter shows: "no expenses" for an empty table, "no
   * match" when no row matches the query ignoring case, otherwise the
   * matching rows.
   */
  function FilterReport(es: seq<Expense>, category: string): (r: Report<seq<Expense>>)
    ensures r == NoExpenses <==> es == []
    ensures r == NoMatch <==> es != [] && forall i :: 0 <= i < |es| ==> !SameCategory(es[i], category)
    ensures r.Found? ==> r.result != [] && r.result == FilterCategory(es, category)
  {
    if es == [] then NoExpenses
    else
      var filtered := FilterCategory(es, category);
      FilterKeepsExactlyMatches(es, category);
      if filtered == [] then
        assert forall i :: 0 <= i < |es| ==> multiset(filtered)[es[i]] == 0;
        NoMatch
      else
        assert SameCategory(filtered[0], category) && filtered[0] in multiset(filtered);
        Found(filtered)
  }

  /** What the monthly summary shows: "no expenses" for an empty table, otherwise the (non-empty) monthly totals. */
  function MonthlyReport(es: seq<Expense>): (r: Report<seq<(Month, real)>>)
    ensures r == NoExpenses <==> es == []
    ensures !r.NoMatch?
    ensures r.Found? ==> r.result != [] && r.result == MonthlyTotals(es)
  {
    if es == [] then NoExpenses
    else
      KeysNonEmpty(ByMonth(es));
      Found(MonthlyTotals(es))
  }

  /** What the category analysis shows: "no expenses" for an empty table, otherwise the (non-empty) category totals. */
  function CategoryReport(es: seq<Expense>): (r: Report<seq<(string, real)>>)
    ensures r == NoExpenses <==> es == []
    ensures !r.NoMatch?
    ensures r.Found? ==> r.result != [] && r.result == CategoryTotals(es)
  {
    if es == [] then NoExpenses
    else
      KeysNonEmpty(ByCategory(es));
      Found(CategoryTotals(es))
  }

  class ExpenseTracker {
    /** The table, in insertion order. */
    var expenses: seq<Expense>

    /** A tracker over the rows loaded at start-up (none when there is no saved table). */
    constructor (loaded: seq<Expense>)
      ensures expenses == loaded
    {
      expenses := loaded;
    }

    /**
     * Appends one row whose date is the timestamp the date text converts to.
     * When the conversion fails the table is left as it was. The date text is
     * one the date validator accepted, as at the method's only call site.
     */
    method AddExpense(amount: real, category: string, date: string) returns (added: bool)
      requires ParseDate(date).Some?
      modifies this
      ensures added <==> ToTimestamp(date).Some?
      ensures added ==> expenses == old(expenses) + [Expense(amount, category, ToTimestamp(date).value)]
      ensures !added ==> expenses == old(expenses)
    {
      var timestamp := ToTimestamp(date);
      if timestamp.Some? {
        expenses := expenses + [Expense(amount, category, timestamp.value)];
        added := true;
      } else {
        added := false;
      }
    }

    /** All rows, or "no expenses" for an empty table. */
    method ViewAll() returns (r: Report<seq<Expense>>)
      ensures r == ViewReport(expenses)
    {
      if expenses == [] {
        r := NoExpenses;
      } else {
        r := Found(expenses);
      }
    }

    /**
     * The rows whose category matches the query ignoring case; an empty
     * table and a table without a match are reported apart.
     */
    method FilterByCategory(category: string) returns (r: Report<seq<Expense>>)
      ensures r == FilterReport(expenses, category)
    {
      if expenses == [] {
        r := NoExpenses;
        return;
      }
      var filtered := FilterCategory(expenses, category);
      if filtered == [] {
        r := NoMatch;
      } else {
        r := Found(filtered);
      }
    }

    /** The monthly totals, or "no expenses" for an empty table. */
    method MonthlySummary() returns (r: Report<seq<(Month, real)>>)
      ensures r == MonthlyReport(expenses)
    {
      if expenses == [] {
        r := NoExpenses;
      } else {
        r := Found(MonthlyTotals(expenses));
      }
    }

    /** The category totals, or "no expenses" for an empty table. */
    method CategoryAnalysis() returns (r: Report<seq<(string, real)>>)
      ensures r == CategoryReport(expenses)
    {
      if expenses == [] {
        r := NoExpenses;
      } else {
        r := Found(CategoryTotals(expenses));
      }
    }
  }
}
