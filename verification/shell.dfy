/**
 * The interactive menu. Input is the sequence of lines the user types, read
 * one `input()` call at a time; running out of lines ends the session (the
 * program would stop with an end-of-file error). Python's `float()` is a
 * parameter of the model, `int()` is modelled for ASCII digits.
 */
module Shell {
  import opened Wrappers
  import opened Calendar
  import opened Text
  import opened Amounts
  import opened Ledger

  // ---------------------------------------------------------------------------
  // Reading the menu choice

  predicate AllDigits(s: string) {
    AllDigitsAt(s, 0, |s|)
  }

  /** The number written by a string of decimal digits. */
  function DecimalValue(s: string): nat
    requires AllDigits(s)
  {
    FieldValue(s, 0, |s|)
  }

  /**
   * The ASCII information separators U+001C to U+001F. `str.strip()` removes
   * them as whitespace, but `int()` skips only the ASCII whitespace
   * characters and the non-ASCII ones, so a separator around a number makes
   * `int()` fail.
   */
  predicate IsSeparator(c: char) {
    28 <= c as int <= 31
  }

  predicate NoSeparator(s: string) {
    forall i :: 0 <= i < |s| ==> !IsSeparator(s[i])
  }

  /** Text `int()` reads as a number: at least one digit, with an optional sign before them. */
  predicate IntegerText(t: string) {
    || (t != [] && AllDigits(t))
    || (|t| > 1 && (t[0] == '+' || t[0] == '-') && AllDigits(t[1..]))
  }

  /** `int(line)`: surrounding whitespace, an optional sign, then at least one digit. */
  function ParseInt(line: string): (r: Option<int>)
    ensures r.Some? <==> NoSeparator(line) && IntegerText(Strip(line))
    ensures r.Some? ==> Strip(line) != []
    ensures r.Some? && r.value < 0 ==> Strip(line)[0] == '-'
  {
    var t := Strip(line);
    if !NoSeparator(line) then
      None
    else if |t| > 1 && (t[0] == '+' || t[0] == '-') && AllDigits(t[1..]) then
      var magnitude: int := DecimalValue(t[1..]);
      Some(if t[0] == '-' then -magnitude else magnitude)
    else if t != [] && AllDigits(t) then
      Some(DecimalValue(t))
    else
      None
  }

  /** The decimal text of n, without leading zeros. */
  function DecimalText(n: nat): (s: string)
    ensures s != [] && AllDigits(s)
    ensures DecimalValue(s) == n
  {
    var d := ('0' as int + n % 10) as char;
    if n < 10 then
      assert FieldValue([d], 0, 0) == 0;
      [d]
    else
      var prefix := DecimalText(n / 10);
      var s := prefix + [d];
      FieldValueAgrees(s, prefix, 0, |prefix|);
      s
  }

  /** Typing a number, with any surrounding whitespace, gives that number as the choice. */
  lemma ParseIntDecimal(n: nat, left: string, right: string)
    requires forall i :: 0 <= i < |left| ==> IsWhitespace(left[i]) && !IsSeparator(left[i])
    requires forall i :: 0 <= i < |right| ==> IsWhitespace(right[i]) && !IsSeparator(right[i])
    ensures ParseInt(left + DecimalText(n) + right) == Some(n)
  {
    assert "" + DecimalText(n) == DecimalText(n);
    ParseIntDigits("", DecimalText(n), left, right);
  }

  /** Padding free of separators adds none to a text. */
  lemma PaddedNoSeparator(left: string, t: string, right: string)
    requires NoSeparator(left) && NoSeparator(t) && NoSeparator(right)
    ensures NoSeparator(left + t + right)
  {
    var line := left + t + right;
    forall i | 0 <= i < |line|
      ensures !IsSeparator(line[i])
    {
      if i < |left| {
        assert line[i] == left[i];
      } else if i < |left| + |t| {
        assert line[i] == t[i - |left|];
      } else {
        assert line[i] == right[i - |left| - |t|];
      }
    }
  }

  /**
   * A line holding digits with an optional sign, and any whitespace around
   * them, reads as the number the digits write, leading zeros included and
   * negated after a minus sign.
   */
  lemma ParseIntDigits(sign: string, digits: string, left: string, right: string)
    requires sign == "" || sign == "+" || sign == "-"
    requires digits != [] && AllDigits(digits)
    requires forall i :: 0 <= i < |left| ==> IsWhitespace(left[i]) && !IsSeparator(left[i])
    requires forall i :: 0 <= i < |right| ==> IsWhitespace(right[i]) && !IsSeparator(right[i])
    ensures ParseInt(left + (sign + digits) + right) ==
      Some(if sign == "-" then -(DecimalValue(digits) as int) else DecimalValue(digits) as int)
  {
    var t := sign + digits;
    assert NoSeparator(left) && NoSeparator(right);
    assert NoSeparator(t) by {
      forall i | 0 <= i < |t|
        ensures !IsSeparator(t[i])
      {
        if i >= |sign| {
          assert t[i] == digits[i - |sign|];
        }
      }
    }
    PaddedNoSeparator(left, t, right);
    assert !IsWhitespace(t[0]) && !IsWhitespace(t[|t| - 1]);
    StripPadded(left, t, right);
    ParseIntStripped(left + t + right, sign, digits);
  }

  /** A separator-free line whose stripped text is a signed digit string reads as its value. */
  lemma ParseIntStripped(line: string, sign: string, digits: string)
    requires sign == "" || sign == "+" || sign == "-"
    requires digits != [] && AllDigits(digits)
    requires NoSeparator(line) && Strip(line) == sign + digits
    ensures ParseInt(line) == Some(if sign == "-" then -(DecimalValue(digits) as int) else DecimalValue(digits) as int)
  {
    var t := sign + digits;
    if sign != "" {
      assert t[1..] == digits;
    } else {
      assert t == digits;
    }
  }

  /** The menu entries. */
  datatype Action = AddChoice | ViewChoice | FilterChoice | MonthlyChoice | CategoryChoice | ExitChoice | InvalidChoice

  /** The menu entry a number selects: 1 to 6 in menu order, anything else none. */
  function Dispatch(choice: int): (a: Action)
    ensures a == InvalidChoice <==> choice < 1 || 6 < choice
    ensures a == AddChoice <==> choice == 1
    ensures a == ViewChoice <==> choice == 2
    ensures a == FilterChoice <==> choice == 3
    ensures a == MonthlyChoice <==> choice == 4
    ensures a == CategoryChoice <==> choice == 5
    ensures a == ExitChoice <==> choice == 6
  {
    match choice
    case 1 => AddChoice
    case 2 => ViewChoice
    case 3 => FilterChoice
    case 4 => MonthlyChoice
    case 5 => CategoryChoice
    case 6 => ExitChoice
    case _ => InvalidChoice
  }

  // ---------------------------------------------------------------------------
  // The two re-prompting validators

  /** The amount a typed line gives: a line float() refuses, or a value the check refuses, gives none. */
  function ReadAmount(toFloat: string -> Option<Float>, line: string): (r: Option<real>)
    ensures r.Some? <==> toFloat(line).Some? && toFloat(line).value.Finite? && toFloat(line).value.value > 0.0
    ensures r.Some? ==> toFloat(line) == Some(Finite(r.value))
  {
    match toFloat(line)
    case None => None
    case Some(f) => AcceptAmount(f)
  }

  /**
   * Reads lines from position start until one is an acceptable amount, which
   * is returned with the position after it; every line skipped was refused.
   * Nothing is returned when the lines run out first.
   */
  method GetValidAmount(lines: seq<string>, start: nat, toFloat: string -> Option<Float>)
    returns (amount: Option<real>, next: nat)
    requires start <= |lines|
    ensures start <= next <= |lines|
    ensures amount.Some? ==> start < next && amount.value > 0.0 && ReadAmount(toFloat, lines[next - 1]) == amount
    ensures amount.None? ==> next == |lines|
    ensures forall i :: start <= i < (if amount.Some? then next - 1 else next) ==> ReadAmount(toFloat, lines[i]).None?
  {
    next := start;
    while next < |lines|
      invariant start <= next <= |lines|
      invariant forall i :: start <= i < next ==> ReadAmount(toFloat, lines[i]).None?
    {
      var a := ReadAmount(toFloat, lines[next]);
      next := next + 1;
      if a.Some? {
        return a, next;
      }
    }
    amount := None;
  }

  /**
   * Reads lines from position start until one is a valid `YYYY-MM-DD` date,
   * whose text is returned with the position after it; every line skipped was
   * refused. Nothing is returned when the lines run out first.
   */
  method GetValidDate(lines: seq<string>, start: nat) returns (date: Option<string>, next: nat)
    requires start <= |lines|
    ensures start <= next <= |lines|
    ensures date.Some? ==> start < next && date.value == lines[next - 1] && ParseDate(date.value).Some?
    ensures date.None? ==> next == |lines|
    ensures forall i :: start <= i < (if date.Some? then next - 1 else next) ==> ParseDate(lines[i]).None?
  {
    next := start;
    while next < |lines|
      invariant start <= next <= |lines|
      invariant forall i :: start <= i < next ==> ParseDate(lines[i]).None?
    {
      var text := lines[next];
      next := next + 1;
      if ParseDate(text).Some? {
        return Some(text), next;
      }
    }
    date := None;
  }

  // ---------------------------------------------------------------------------
  // The menu loop

  /** How a menu round ends: back to the menu, exit chosen, or no more input. */
  datatype Status = Continue | Quit | InputEnded

  /** after is before with well-formed rows appended. */
  predicate ExtendsWith(before: seq<Expense>, after: seq<Expense>) {
    && |before| <= |after|
    && after[..|before|] == before
    && forall i :: |before| <= i < |after| ==> WellFormed(after[i])
  }

  lemma ExtendsWithTransitive(a: seq<Expense>, b: seq<Expense>, c: seq<Expense>)
    requires ExtendsWith(a, b) && ExtendsWith(b, c)
    ensures ExtendsWith(a, c)
  {
    assert c[..|a|] == c[..|b|][..|a|];
  }

  /**
   * Lines from start on hold a complete choice-1 entry: refused amounts, the
   * accepted amount at amountAt, the category line after it, refused dates,
   * then the accepted date at dateAt.
   */
  predicate EntryRead(lines: seq<string>, toFloat: string -> Option<Float>, start: nat, amountAt: nat, dateAt: nat) {
    && start <= amountAt && amountAt + 1 < dateAt < |lines|
    && (forall i :: start <= i < amountAt ==> ReadAmount(toFloat, lines[i]).None?)
    && ReadAmount(toFloat, lines[amountAt]).Some?
    && (forall i :: amountAt + 1 < i < dateAt ==> ParseDate(lines[i]).None?)
    && ParseDate(lines[dateAt]).Some?
  }

  /**
   * The table after a choice-1 entry: the accepted amount, the normalised
   * category line and the converted date as a new last row, or the table as
   * it was when the date does not convert to a timestamp.
   */
  function TableAfterEntry(before: seq<Expense>, lines: seq<string>, toFloat: string -> Option<Float>, amountAt: nat, dateAt: nat): seq<Expense>
    requires amountAt + 1 < dateAt < |lines| && ReadAmount(toFloat, lines[amountAt]).Some?
  {
    match ToTimestamp(lines[dateAt])
    case Some(d) => before + [Expense(ReadAmount(toFloat, lines[amountAt]).value, Normalize(lines[amountAt + 1]), d)]
    case None => before
  }

  /** A choice-1 entry adds at most one row, and that row is well-formed. */
  lemma EntryExtends(before: seq<Expense>, lines: seq<string>, toFloat: string -> Option<Float>, amountAt: nat, dateAt: nat)
    requires amountAt + 1 < dateAt < |lines| && ReadAmount(toFloat, lines[amountAt]).Some?
    ensures ExtendsWith(before, TableAfterEntry(before, lines, toFloat, amountAt, dateAt))
    ensures |TableAfterEntry(before, lines, toFloat, amountAt, dateAt)| <= |before| + 1
  {
    NormalizeIdempotent(lines[amountAt + 1]);
  }

  /**
   * Choice 1: an amount (re-prompting), a category line, a date (re-prompting),
   * then the new row. False when the lines run out first, with the table as it was.
   */
  method AddFromInput(tracker: ExpenseTracker, lines: seq<string>, start: nat, toFloat: string -> Option<Float>)
    returns (next: nat, amountAt: nat, dateAt: nat, ok: bool)
    requires start <= |lines|
    modifies tracker
    ensures start <= next <= |lines|
    ensures !ok ==> next == |lines| && tracker.expenses == old(tracker.expenses)
    ensures !ok ==> forall a, d {:trigger EntryRead(lines, toFloat, start, a, d)} :: !EntryRead(lines, toFloat, start, a, d)
    ensures ok ==> EntryRead(lines, toFloat, start, amountAt, dateAt) && next == dateAt + 1
    ensures ok ==> tracker.expenses == TableAfterEntry(old(tracker.expenses), lines, toFloat, amountAt, dateAt)
    ensures ExtendsWith(old(tracker.expenses), tracker.expenses)
  {
    ghost var before := tracker.expenses;
    var amount;
    amount, next := GetValidAmount(lines, start, toFloat);
    if amount.None? || next == |lines| {
      return |lines|, 0, 0, false;
    }
    amountAt := next - 1;
    var categoryLine := lines[next];
    next := next + 1;
    var date;
    date, next := GetValidDate(lines, next);
    if date.None? {
      return next, 0, 0, false;
    }
    dateAt := next - 1;
    assert EntryRead(lines, toFloat, start, amountAt, dateAt);
    var added := tracker.AddExpense(amount.value, Normalize(categoryLine), date.value);
    assert tracker.expenses == TableAfterEntry(before, lines, toFloat, amountAt, dateAt);
    EntryExtends(before, lines, toFloat, amountAt, dateAt);
    ok := true;
  }

  /** The choice read at position pos: none when there is no line or it is not a number. */
  function ChoiceAt(lines: seq<string>, pos: nat): Option<int> {
    if pos < |lines| then ParseInt(lines[pos]) else None
  }

  /**
   * What a menu round shows: nothing, the positions of a complete choice-1
   * entry, a list of rows (choices 2 and 3), the monthly totals (choice 4) or
   * the category totals (choice 5).
   */
  datatype Shown =
    | Nothing
    | Entered(amountAt: nat, dateAt: nat)
    | Listing(rows: Report<seq<Expense>>)
    | Months(months: Report<seq<(Month, real)>>)
    | Categories(categories: Report<seq<(string, real)>>)

  /**
   * One round of the menu, starting at the line holding the choice. Choice 6
   * exits; a line that is no number goes straight back to the menu; every
   * other round ends with the "press enter" line. Only choice 1 changes the
   * table: it appends the row the entry it read describes.
   */
  method Round(tracker: ExpenseTracker, lines: seq<string>, pos: nat, toFloat: string -> Option<Float>)
    returns (next: nat, status: Status, shown: Shown)
    requires pos <= |lines|
    modifies tracker
    ensures pos <= next <= |lines|
    ensures status == Continue ==> pos < next
    ensures status == InputEnded ==> next == |lines|
    ensures status == Quit <==> ChoiceAt(lines, pos) == Some(6)
    ensures status == Quit ==> next == pos + 1
    ensures pos < |lines| && ParseInt(lines[pos]).None? ==> status == Continue && next == pos + 1
    ensures ChoiceAt(lines, pos) == Some(1) ==>
      shown.Entered? || (shown == Nothing && status == InputEnded && tracker.expenses == old(tracker.expenses))
    ensures ChoiceAt(lines, pos) == Some(1) && shown.Entered? ==>
      && EntryRead(lines, toFloat, pos + 1, shown.amountAt, shown.dateAt)
      && tracker.expenses == TableAfterEntry(old(tracker.expenses), lines, toFloat, shown.amountAt, shown.dateAt)
      && (status == Continue ==> next == shown.dateAt + 2)
      && (status == Continue <==> shown.dateAt + 1 < |lines|)
    ensures ChoiceAt(lines, pos) == Some(1) && shown == Nothing ==>
      forall a, d {:trigger EntryRead(lines, toFloat, pos + 1, a, d)} :: !EntryRead(lines, toFloat, pos + 1, a, d)
    ensures ChoiceAt(lines, pos) != Some(1) ==> tracker.expenses == old(tracker.expenses)
    ensures ChoiceAt(lines, pos) == Some(2) ==> shown == Listing(ViewReport(old(tracker.expenses)))
    ensures ChoiceAt(lines, pos) == Some(3) ==>
      shown == if pos + 1 < |lines| then Listing(FilterReport(old(tracker.expenses), Normalize(lines[pos + 1]))) else Nothing
    ensures ChoiceAt(lines, pos) == Some(4) ==> shown == Months(MonthlyReport(old(tracker.expenses)))
    ensures ChoiceAt(lines, pos) == Some(5) ==> shown == Categories(CategoryReport(old(tracker.expenses)))
    ensures ChoiceAt(lines, pos).None? || !(1 <= ChoiceAt(lines, pos).value <= 5) ==> shown == Nothing
    ensures ChoiceAt(lines, pos).Some? && ChoiceAt(lines, pos).value !in {1, 3, 6} ==>
      && (status == Continue <==> pos + 1 < |lines|)
      && next == (if pos + 1 < |lines| then pos + 2 else |lines|)
    ensures ChoiceAt(lines, pos) == Some(3) ==>
      && (status == Continue <==> pos + 2 < |lines|)
      && next == (if pos + 2 < |lines| then pos + 3 else |lines|)
    ensures ChoiceAt(lines, pos) == Some(1) && status != InputEnded ==> status == Continue
    ensures ExtendsWith(old(tracker.expenses), tracker.expenses)
  {
    shown := Nothing;
    if pos == |lines| {
      return pos, InputEnded, shown;
    }
    var choice := ParseInt(lines[pos]);
    next := pos + 1;
    if choice.None? {
      return next, Continue, shown;
    }
    match Dispatch(choice.value) {
      case ExitChoice =>
        return next, Quit, shown;
      case AddChoice =>
        var amountAt, dateAt, ok;
        next, amountAt, dateAt, ok := AddFromInput(tracker, lines, next, toFloat);
        if !ok {
          return next, InputEnded, shown;
        }
        shown := Entered(amountAt, dateAt);
      case ViewChoice =>
        var report := tracker.ViewAll();
        shown := Listing(report);
      case FilterChoice =>
        if next == |lines| {
          return next, InputEnded, shown;
        }
        var category := Normalize(lines[next]);
        next := next + 1;
        var report := tracker.FilterByCategory(category);
        shown := Listing(report);
      case MonthlyChoice =>
        var report := tracker.MonthlySummary();
        shown := Months(report);
      case CategoryChoice =>
        var report := tracker.CategoryAnalysis();
        shown := Categories(report);
      case InvalidChoice =>
    }
    if next == |lines| {
      return next, InputEnded, shown;
    }
    return next + 1, Continue, shown;
  }

  /**
   * The menu loop over a tracker: rounds until exit is chosen or the input
   * runs out. The table only ever gains well-formed rows at its end.
   */
  method RunSession(tracker: ExpenseTracker, lines: seq<string>, toFloat: string -> Option<Float>)
    returns (status: Status, consumed: nat)
    modifies tracker
    ensures status != Continue
    ensures consumed <= |lines|
    ensures status == InputEnded ==> consumed == |lines|
    ensures status == Quit ==> 0 < consumed && ParseInt(lines[consumed - 1]) == Some(6)
    ensures ExtendsWith(old(tracker.expenses), tracker.expenses)
  {
    consumed, status := 0, Continue;
    while status == Continue
      invariant consumed <= |lines|
      invariant status == InputEnded ==> consumed == |lines|
      invariant status == Quit ==> 0 < consumed && ParseInt(lines[consumed - 1]) == Some(6)
      invariant ExtendsWith(old(tracker.expenses), tracker.expenses)
      decreases |lines| - consumed, if status == Continue then 1 else 0
    {
      ghost var before := tracker.expenses;
      var shown;
      consumed, status, shown := Round(tracker, lines, consumed, toFloat);
      ExtendsWithTransitive(old(tracker.expenses), before, tracker.expenses);
    }
  }

  /**
   * The program: a tracker over the loaded rows, then the menu loop. Gives
   * the table as it stands at the end.
   */
  method Run(loaded: seq<Expense>, lines: seq<string>, toFloat: string -> Option<Float>)
    returns (expenses: seq<Expense>, status: Status, consumed: nat)
    ensures status != Continue && consumed <= |lines|
    ensures status == Quit ==> 0 < consumed && ParseInt(lines[consumed - 1]) == Some(6)
    ensures status == InputEnded ==> consumed == |lines|
    ensures ExtendsWith(loaded, expenses)
  {
    var tracker := new ExpenseTracker(loaded);
    status, consumed := RunSession(tracker, lines, toFloat);
    expenses := tracker.expenses;
  }
}
