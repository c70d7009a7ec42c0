/** The installment schedule that `crear_prestamo` generates for a new loan: the total payable,
    the number of installments, their common amount and their due dates. */
module Schedule {
  import opened Entities
  import opened Calendar
  import opened Money

  const Daily: string := "diaria"
  const Weekly: string := "semanal"
  const Biweekly: string := "quincenal"
  const Monthly: string := "mensual"

  predicate IsKnownFrequency(f: string) {
    f == Daily || f == Weekly || f == Biweekly || f == Monthly
  }

  /** Simple, non-compounding interest: principal plus rate percent per month of term. */
  function TotalPayable(principal: real, monthlyRate: real, term: int): (t: real)
    ensures term == 0 || monthlyRate == 0.0 ==> t == principal
    ensures principal >= 0.0 && monthlyRate >= 0.0 && term >= 0 ==> t >= principal
  {
    principal * (1.0 + (monthlyRate / 100.0) * term as real)
  }

  /** The interest accrued over two terms is the sum of the interest of each. */
  lemma InterestIsAdditive(principal: real, monthlyRate: real, t1: int, t2: int)
    ensures TotalPayable(principal, monthlyRate, t1 + t2) - principal
         == (TotalPayable(principal, monthlyRate, t1) - principal)
          + (TotalPayable(principal, monthlyRate, t2) - principal)
  {
    var r := monthlyRate / 100.0;
    calc {
      TotalPayable(principal, monthlyRate, t1 + t2) - principal;
      principal * (r * (t1 as real + t2 as real));
      principal * (r * t1 as real) + principal * (r * t2 as real);
    }
  }

  /** Installments per unit of term, fixed per frequency (not derived from the calendar). */
  function PerTermUnit(f: string): (k: nat)
    ensures k > 0 <==> IsKnownFrequency(f)
  {
    if f == Daily then 26
    else if f == Weekly then 4
    else if f == Biweekly then 2
    else if f == Monthly then 1
    else 0
  }

  /** `numero_cuotas`: a fixed multiple of the term; zero for any other frequency string. */
  function InstallmentCount(f: string, term: int): (n: int)
    ensures n == term * PerTermUnit(f)
    ensures n > 0 <==> term > 0 && IsKnownFrequency(f)
  {
    if f == Daily then term * 26
    else if f == Weekly then term * 4
    else if f == Biweekly then term * 2
    else if f == Monthly then term
    else 0
  }

  /** Days the cursor moves after each installment. */
  function StepDays(f: string): (d: nat)
    ensures IsKnownFrequency(f) && f != Daily ==> d >= 7
  {
    if f == Daily then 1
    else if f == Weekly then 7
    else if f == Biweekly then 15
    else if f == Monthly then 30
    else 0
  }

  /** A day a daily loan does not collect on: an excluded Sunday or an excluded Saturday. */
  predicate Skipped(d: int, collectSaturday: bool, collectSunday: bool) {
    (Weekday(d) == Sunday && !collectSunday) || (Weekday(d) == Saturday && !collectSaturday)
  }

  /** The first collection day on or after `d`; at most two days are skipped, because Monday to
      Friday are never skipped. */
  function NextCollectionDay(d: int, collectSaturday: bool, collectSunday: bool): (r: int)
    ensures d <= r <= d + 2
    ensures !Skipped(r, collectSaturday, collectSunday)
    ensures forall k :: d <= k < r ==> Skipped(k, collectSaturday, collectSunday)
    decreases if Skipped(d, collectSaturday, collectSunday) then 7 - Weekday(d) else 0
  {
    if !Skipped(d, collectSaturday, collectSunday) then d
    else
      WeekdayNext(d);
      WeekdayNext(d + 1);
      assert !Skipped(d + 1, collectSaturday, collectSunday) || !Skipped(d + 2, collectSaturday, collectSunday);
      NextCollectionDay(d + 1, collectSaturday, collectSunday)
  }

  /** Due dates of a daily loan: each is the next collection day after the previous one. */
  function DailyDates(start: int, n: nat, collectSaturday: bool, collectSunday: bool): (ds: seq<int>)
    ensures |ds| == n
    decreases n
  {
    if n == 0 then []
    else
      var d := NextCollectionDay(start, collectSaturday, collectSunday);
      [d] + DailyDates(d + 1, n - 1, collectSaturday, collectSunday)
  }

  /** Due dates of a weekly, biweekly or monthly loan: a fixed step, no weekday rule. */
  function SteppedDates(start: int, step: int, n: nat): (ds: seq<int>)
    ensures |ds| == n
    decreases n
  {
    if n == 0 then [] else [start] + SteppedDates(start + step, step, n - 1)
  }

  function ScheduleDates(f: string, start: int, n: nat, collectSaturday: bool, collectSunday: bool): (ds: seq<int>)
    ensures |ds| == n
  {
    if f == Daily then DailyDates(start, n, collectSaturday, collectSunday)
    else SteppedDates(start, StepDays(f), n)
  }

  /** The installments that `crear_prestamo` adds for a loan created on day `today`. */
  function ExpectedInstallments(total: real, term: int, f: string, collectSaturday: bool,
                                collectSunday: bool, today: int, loanId: int): (cs: seq<Installment>)
  {
    var n := InstallmentCount(f, term);
    if n <= 0 then []
    else Pending(RoundToCents(total / n as real), ScheduleDates(f, today + 1, n, collectSaturday, collectSunday), loanId)
  }

  /** One new `pendiente` installment of `amount` per due date, in the order of the dates. */
  function Pending(amount: real, dates: seq<int>, loanId: int): (cs: seq<Installment>)
    ensures |cs| == |dates|
    ensures forall k :: 0 <= k < |dates| ==> cs[k] == Installment(amount, dates[k], Pendiente, None, None, loanId)
  {
    seq(|dates|, k requires 0 <= k < |dates| => Installment(amount, dates[k], Pendiente, None, None, loanId))
  }

  lemma PendingCons(amount: real, due: int, rest: seq<int>, loanId: int)
    ensures Pending(amount, [due] + rest, loanId)
         == [Installment(amount, due, Pendiente, None, None, loanId)] + Pending(amount, rest, loanId)
  {
    var lhs := Pending(amount, [due] + rest, loanId);
    var rhs := [Installment(amount, due, Pendiente, None, None, loanId)] + Pending(amount, rest, loanId);
    assert |lhs| == |rhs|;
    forall k | 0 <= k < |lhs| ensures lhs[k] == rhs[k] {
      if k > 0 {
        assert ([due] + rest)[k] == rest[k - 1];
      }
    }
  }

  lemma {:induction false} SteppedDatesAt(start: int, step: int, n: nat, i: nat)
    requires i < n
    ensures SteppedDates(start, step, n)[i] == start + step * i
    decreases n
  {
    if i > 0 {
      SteppedDatesAt(start + step, step, n - 1, i - 1);
    }
  }

  /** Daily due dates start no earlier than `start`, never fall on a skipped day, and follow each
      other by one to three days. */
  lemma {:induction false} DailyDatesBounds(start: int, n: nat, collectSaturday: bool, collectSunday: bool)
    ensures var ds := DailyDates(start, n, collectSaturday, collectSunday);
      && (forall i :: 0 <= i < n ==> start <= ds[i] && !Skipped(ds[i], collectSaturday, collectSunday))
      && (n > 0 ==> ds[0] <= start + 2)
      && (forall i :: 0 <= i < n - 1 ==> ds[i] < ds[i + 1] <= ds[i] + 3)
    decreases n
  {
    if n > 0 {
      var ds := DailyDates(start, n, collectSaturday, collectSunday);
      var d := NextCollectionDay(start, collectSaturday, collectSunday);
      var rest := DailyDates(d + 1, n - 1, collectSaturday, collectSunday);
      assert ds == [d] + rest;
      DailyDatesBounds(d + 1, n - 1, collectSaturday, collectSunday);
      forall i | 0 <= i < n
        ensures start <= ds[i] && !Skipped(ds[i], collectSaturday, collectSunday)
      {
        if i > 0 {
          assert ds[i] == rest[i - 1];
        }
      }
      forall i | 0 <= i < n - 1
        ensures ds[i] < ds[i + 1] <= ds[i] + 3
      {
        assert ds[i + 1] == rest[i];
        if i > 0 {
          assert ds[i] == rest[i - 1];
        }
      }
    }
  }

  /** The daily due dates are exactly the collection days from `start` up to the last of them:
      no collection day in that range is left out and no skipped day is used. */
  lemma {:induction false} DailyDatesExact(start: int, n: nat, collectSaturday: bool, collectSunday: bool, k: int)
    requires n > 0
    requires start <= k <= DailyDates(start, n, collectSaturday, collectSunday)[n - 1]
    ensures k in DailyDates(start, n, collectSaturday, collectSunday) <==> !Skipped(k, collectSaturday, collectSunday)
    decreases n
  {
    var ds := DailyDates(start, n, collectSaturday, collectSunday);
    var d := NextCollectionDay(start, collectSaturday, collectSunday);
    var rest := DailyDates(d + 1, n - 1, collectSaturday, collectSunday);
    assert ds == [d] + rest;
    DailyDatesBounds(d + 1, n - 1, collectSaturday, collectSunday);
    if k < d {
      assert k !in rest;
    } else if k > d {
      DailyDatesExact(d + 1, n - 1, collectSaturday, collectSunday, k);
    }
  }

  /** A sequence whose neighbours increase is strictly increasing. */
  lemma {:induction false} AdjacentIncreasingSorted(ds: seq<int>)
    requires forall i :: 0 <= i < |ds| - 1 ==> ds[i] < ds[i + 1]
    ensures forall i, j :: 0 <= i < j < |ds| ==> ds[i] < ds[j]
  {
    if |ds| > 1 {
      var tail := ds[1..];
      AdjacentIncreasingSorted(tail);
      forall i, j | 0 <= i < j < |ds| ensures ds[i] < ds[j] {
        if i > 0 {
          assert tail[i - 1] < tail[j - 1];
        } else if j > 1 {
          assert tail[0] < tail[j - 1];
        }
      }
    }
  }

  lemma ScheduleDatesUnfold(f: string, d: int, m: nat, collectSaturday: bool, collectSunday: bool)
    requires m > 0
    requires f == Daily ==> !Skipped(d, collectSaturday, collectSunday)
    ensures ScheduleDates(f, d, m, collectSaturday, collectSunday)
         == [d] + ScheduleDates(f, d + StepDays(f), m - 1, collectSaturday, collectSunday)
  {
  }

  lemma DailyDatesFromCollectionDay(d: int, m: nat, collectSaturday: bool, collectSunday: bool)
    ensures DailyDates(NextCollectionDay(d, collectSaturday, collectSunday), m, collectSaturday, collectSunday)
         == DailyDates(d, m, collectSaturday, collectSunday)
  {
  }

  /** The cursor step after each installment: a day, a week, fifteen days or thirty days. */
  method Advance(cursor: int, f: string) returns (next: int)
    ensures next == cursor + StepDays(f)
  {
    next := cursor;
    if f == Daily {
      next := cursor + 1;
    } else if f == Weekly {
      next := cursor + 7;
    } else if f == Biweekly {
      next := cursor + 15;
    } else if f == Monthly {
      next := cursor + 30;
    }
  }

  /** The inner `while True` loop of the daily case: move the cursor past skipped days. */
  method SkipToCollectionDay(d: int, collectSaturday: bool, collectSunday: bool) returns (r: int)
    ensures r == NextCollectionDay(d, collectSaturday, collectSunday)
  {
    r := d;
    while Skipped(r, collectSaturday, collectSunday)
      invariant NextCollectionDay(r, collectSaturday, collectSunday) == NextCollectionDay(d, collectSaturday, collectSunday)
      decreases if Skipped(r, collectSaturday, collectSunday) then 7 - Weekday(r) else 0
    {
      WeekdayNext(r);
      r := r + 1;
    }
  }

  /** One turn of the generation loop before the installment is built, and the step after it:
      for a daily loan the cursor first moves past skipped days; the installment falls on the
      cursor, which then advances by the frequency's step. */
  method NextDue(f: string, cursor: int, m: nat, collectSaturday: bool, collectSunday: bool)
    returns (due: int, next: int)
    requires m > 0
    ensures ScheduleDates(f, cursor, m, collectSaturday, collectSunday)
         == [due] + ScheduleDates(f, next, m - 1, collectSaturday, collectSunday)
  {
    due := cursor;
    if f == Daily {
      due := SkipToCollectionDay(cursor, collectSaturday, collectSunday);
      DailyDatesFromCollectionDay(cursor, m, collectSaturday, collectSunday);
    }
    next := Advance(due, f);
    ScheduleDatesUnfold(f, due, m, collectSaturday, collectSunday);
  }

  /** `crear_prestamo`'s installment generation (app.py): the number of installments and their
      common amount, then the loop that builds them. */
  method GenerateInstallments(total: real, term: int, f: string, collectSaturday: bool,
                              collectSunday: bool, today: int, loanId: int)
    returns (cs: seq<Installment>)
    ensures cs == ExpectedInstallments(total, term, f, collectSaturday, collectSunday, today, loanId)
  {
    var n := InstallmentCount(f, term);
    cs := [];
    if n > 0 {
      var amount := RoundToCents(total / n as real);
      cs := BuildInstallments(amount, f, collectSaturday, collectSunday, today + 1, n, loanId);
    }
  }

  /** The generation loop: a cursor starts at `start`; for a daily loan it first moves past
      skipped days; each installment takes the cursor as due date, then the cursor advances by
      the frequency's step. */
  method BuildInstallments(amount: real, f: string, collectSaturday: bool, collectSunday: bool,
                           start: int, n: nat, loanId: int)
    returns (cs: seq<Installment>)
    ensures cs == Pending(amount, ScheduleDates(f, start, n, collectSaturday, collectSunday), loanId)
  {
    cs := [];
    var cursor := start;
    var i := 0;
    while i < n
      invariant 0 <= i <= n
      invariant cs + Pending(amount, ScheduleDates(f, cursor, n - i, collectSaturday, collectSunday), loanId)
             == Pending(amount, ScheduleDates(f, start, n, collectSaturday, collectSunday), loanId)
    {
      var due, next := NextDue(f, cursor, n - i, collectSaturday, collectSunday);
      PendingCons(amount, due, ScheduleDates(f, next, n - i - 1, collectSaturday, collectSunday), loanId);
      cs := cs + [Installment(amount, due, Pendiente, None, None, loanId)];
      cursor := next;
      i := i + 1;
    }
  }

  /** What the source promises of a new loan's installments: their number, a common amount, state
      `pendiente`, due dates from tomorrow on in strictly increasing order, a fixed step for the
      non-daily frequencies and no skipped weekday for the daily one. */
  lemma ExpectedInstallmentsFacts(total: real, term: int, f: string, collectSaturday: bool,
                                  collectSunday: bool, today: int, loanId: int)
    ensures var cs := ExpectedInstallments(total, term, f, collectSaturday, collectSunday, today, loanId);
      && |cs| == (if InstallmentCount(f, term) > 0 then InstallmentCount(f, term) else 0)
      && (forall i :: 0 <= i < |cs| ==>
            && cs[i].amount == RoundToCents(total / |cs| as real)
            && cs[i].state == Pendiente && cs[i].paidAt == None && cs[i].notes == None
            && cs[i].loanId == loanId)
      && (forall i :: 0 <= i < |cs| ==> cs[i].dueDate >= today + 1)
      && (forall i, j :: 0 <= i < j < |cs| ==> cs[i].dueDate < cs[j].dueDate)
      && (f != Daily ==> forall i :: 0 <= i < |cs| ==> cs[i].dueDate == today + 1 + StepDays(f) * i)
      && (f == Daily ==> forall i :: 0 <= i < |cs| ==> !Skipped(cs[i].dueDate, collectSaturday, collectSunday))
  {
    var n := InstallmentCount(f, term);
    if n > 0 {
      ScheduleFacts(f, today + 1, n, collectSaturday, collectSunday);
    }
  }

  /** What the due dates of every frequency satisfy, gathered for the generator's contract. */
  lemma ScheduleFacts(f: string, start: int, n: nat, collectSaturday: bool, collectSunday: bool)
    ensures var ds := ScheduleDates(f, start, n, collectSaturday, collectSunday);
      && (IsKnownFrequency(f) || n == 0 ==>
            (forall i :: 0 <= i < n ==> ds[i] >= start)
            && (forall i, j :: 0 <= i < j < n ==> ds[i] < ds[j]))
      && (f != Daily ==> forall i :: 0 <= i < n ==> ds[i] == start + StepDays(f) * i)
      && (f == Daily ==> forall i :: 0 <= i < n ==> !Skipped(ds[i], collectSaturday, collectSunday))
  {
    var ds := ScheduleDates(f, start, n, collectSaturday, collectSunday);
    if f == Daily {
      DailyDatesBounds(start, n, collectSaturday, collectSunday);
      AdjacentIncreasingSorted(ds);
    } else {
      forall i | 0 <= i < n ensures ds[i] == start + StepDays(f) * i {
        SteppedDatesAt(start, StepDays(f), n, i);
      }
    }
  }

  /** The worked example of a monthly loan: 1,000,000 at 10% for 3 months is 1,300,000 payable
      in three installments of 433,333.33, which add up to 1,299,999.99: no installment is adjusted
      to absorb the rounding difference. */
  lemma MonthlyExample(today: int, loanId: int)
    ensures var cs := ExpectedInstallments(TotalPayable(1000000.0, 10.0, 3), 3, Monthly, false, false, today, loanId);
      && TotalPayable(1000000.0, 10.0, 3) == 1300000.0
      && |cs| == 3
      && cs[0].amount == cs[1].amount == cs[2].amount == 433333.33
      && cs[0].amount + cs[1].amount + cs[2].amount == 1299999.99
      && cs[0].dueDate == today + 1 && cs[1].dueDate == today + 31 && cs[2].dueDate == today + 61
  {
    var total := TotalPayable(1000000.0, 10.0, 3);
    assert total == 1300000.0;
    assert RoundHalfEven(total / 3.0 * 100.0) == 43333333;
    SteppedDatesAt(today + 1, 30, 3, 1);
    SteppedDatesAt(today + 1, 30, 3, 2);
  }
}
