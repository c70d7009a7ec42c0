/** The administrator's dashboard (`admin_dashboard`): money lent and collected over the active
    loans, and per loan an integer progress and a visual status. */
module Dashboard {
  import opened Entities
  import opened Money
  import Schedule

  /** An active loan as the query loads it, with the list of its installments. */
  datatype LoanSnapshot = LoanSnapshot(id: int, loan: Loan, installments: seq<Installment>)

  datatype VisualStatus = AlDia | EnMora | ProximoVencer

  datatype LoanView = LoanView(id: int, progress: int, status: VisualStatus)

  datatype Metrics = Metrics(totalLent: real, totalCollected: real, pendingPortfolio: real, activeClients: nat)

  /** Installment states that count as money received. */
  predicate CountsAsPaid(s: InstallmentState) {
    s == Pagada || s == PagadaTarde
  }

  /** The money received on a loan: the amounts of its installments in a paid state. */
  function Collected(cs: seq<Installment>): real {
    if cs == [] then 0.0
    else Collected(cs[..|cs| - 1]) + (if CountsAsPaid(cs[|cs| - 1].state) then cs[|cs| - 1].amount else 0.0)
  }

  /** The percentage paid, truncated to a whole number, when the total payable is positive; otherwise 0. */
  function Progress(collected: real, totalPayable: real): (p: int)
    ensures totalPayable <= 0.0 ==> p == 0
    ensures 0.0 <= collected <= totalPayable ==> 0 <= p <= 100
    ensures 0.0 < totalPayable <= collected ==> p >= 100
  {
    if totalPayable > 0.0 then
      RatioBounds(collected, totalPayable);
      Truncate(collected / totalPayable * 100.0)
    else 0
  }

  lemma RatioBounds(a: real, b: real)
    requires b > 0.0
    ensures 0.0 <= a <= b ==> 0.0 <= a / b <= 1.0
    ensures b <= a ==> a / b >= 1.0
  {
    var q := a / b;
    assert q * b == a;
    assert (q - 1.0) * b == a - b;
  }

  function TotalLent(ls: seq<LoanSnapshot>): real {
    if ls == [] then 0.0 else TotalLent(ls[..|ls| - 1]) + ls[|ls| - 1].loan.principal
  }

  function TotalCollected(ls: seq<LoanSnapshot>): real {
    if ls == [] then 0.0 else TotalCollected(ls[..|ls| - 1]) + Collected(ls[|ls| - 1].installments)
  }

  predicate IsPending(c: Installment) {
    c.state == Pendiente
  }

  /** The due date of the earliest-due installment still `pendiente`, if there is one. */
  function EarliestPending(cs: seq<Installment>): (r: Option<int>)
    ensures r.None? <==> forall i :: 0 <= i < |cs| ==> !IsPending(cs[i])
    ensures r.Some? ==> exists i :: 0 <= i < |cs| && IsPending(cs[i]) && cs[i].dueDate == r.value
    ensures r.Some? ==> forall i :: 0 <= i < |cs| && IsPending(cs[i]) ==> r.value <= cs[i].dueDate
  {
    if cs == [] then None
    else
      var last := cs[|cs| - 1];
      var before := EarliestPending(cs[..|cs| - 1]);
      assert forall i :: 0 <= i < |cs| - 1 ==> cs[..|cs| - 1][i] == cs[i];
      if !IsPending(last) then before
      else if before.Some? && before.value <= last.dueDate then before
      else Some(last.dueDate)
  }

  /** The visual status a loan gets from the due date of its earliest pending installment. */
  function StatusOf(earliest: Option<int>, frequency: string, today: int): VisualStatus {
    if earliest.None? then AlDia
    else if earliest.value < today then EnMora
    else if frequency != Schedule.Daily && earliest.value <= today + 3 then ProximoVencer
    else AlDia
  }

  function ViewOf(s: LoanSnapshot, today: int): LoanView {
    LoanView(s.id, Progress(Collected(s.installments), s.loan.totalPayable),
             StatusOf(EarliestPending(s.installments), s.loan.frequency, today))
  }

  /** The inner loop over the installments sorted by due date, stopping at the first pending
      one: it finds the smallest due date among the pending installments. */
  method FindEarliestPending(cs: seq<Installment>) returns (r: Option<int>)
    ensures r == EarliestPending(cs)
  {
    r := None;
    var i := 0;
    while i < |cs|
      invariant 0 <= i <= |cs|
      invariant r == EarliestPending(cs[..i])
    {
      assert cs[..i + 1][..i] == cs[..i];
      if cs[i].state == Pendiente && (r.None? || cs[i].dueDate < r.value) {
        r := Some(cs[i].dueDate);
      }
      i := i + 1;
    }
    assert cs[..|cs|] == cs;
  }

  /** The per-loan part of the loop body: the progress from the amount collected, then the
      visual status from the earliest pending installment. */
  method LoanViewOf(s: LoanSnapshot, paid: real, today: int) returns (v: LoanView)
    requires paid == Collected(s.installments)
    ensures v == ViewOf(s, today)
  {
    var progress := Progress(paid, s.loan.totalPayable);
    var status := AlDia;
    var earliest := FindEarliestPending(s.installments);
    if earliest.Some? {
      if earliest.value < today {
        status := EnMora;
      } else if s.loan.frequency != Schedule.Daily && earliest.value <= today + 3 {
        status := ProximoVencer;
      }
    }
    v := LoanView(s.id, progress, status);
  }

  /** The dashboard loop: running totals over the active loans, and for each loan its progress
      and visual status. */
  method AdminDashboard(active: seq<LoanSnapshot>, today: int) returns (m: Metrics, views: seq<LoanView>)
    ensures m.totalLent == TotalLent(active)
    ensures m.totalCollected == TotalCollected(active)
    ensures m.pendingPortfolio == TotalLent(active) - TotalCollected(active)
    ensures m.activeClients == |active|
    ensures |views| == |active|
    ensures forall i :: 0 <= i < |active| ==> views[i] == ViewOf(active[i], today)
  {
    var totalLent := 0.0;
    var totalCollected := 0.0;
    views := [];
    var i := 0;
    while i < |active|
      invariant 0 <= i <= |active| && |views| == i
      invariant totalLent == TotalLent(active[..i])
      invariant totalCollected == TotalCollected(active[..i])
      invariant forall k :: 0 <= k < i ==> views[k] == ViewOf(active[k], today)
    {
      var s := active[i];
      assert active[..i + 1][..i] == active[..i];
      totalLent := totalLent + s.loan.principal;
      var paid := Collected(s.installments);
      totalCollected := totalCollected + paid;
      var view := LoanViewOf(s, paid, today);
      views := views + [view];
      i := i + 1;
    }
    assert active[..|active|] == active;
    m := Metrics(totalLent, totalCollected, totalLent - totalCollected, |active|);
  }

  /** A loan shows `en_mora` exactly when one of its pending installments is past due. */
  lemma EnMoraIffOverdue(cs: seq<Installment>, frequency: string, today: int)
    ensures StatusOf(EarliestPending(cs), frequency, today) == EnMora
        <==> exists i :: 0 <= i < |cs| && IsPending(cs[i]) && cs[i].dueDate < today
  {
    var e := EarliestPending(cs);
    if e.Some? && e.value >= today {
      assert forall i :: 0 <= i < |cs| && IsPending(cs[i]) ==> cs[i].dueDate >= today;
    }
  }

  /** A loan shows `proximo_vencer` exactly when it is not daily, no pending installment is past
      due, and one falls within the next three days. */
  lemma ProximoVencerIff(cs: seq<Installment>, frequency: string, today: int)
    ensures StatusOf(EarliestPending(cs), frequency, today) == ProximoVencer
        <==> && frequency != Schedule.Daily
             && (forall i :: 0 <= i < |cs| && IsPending(cs[i]) ==> cs[i].dueDate >= today)
             && (exists i :: 0 <= i < |cs| && IsPending(cs[i]) && cs[i].dueDate <= today + 3)
  {
    var e := EarliestPending(cs);
    if e.Some? && e.value < today {
      var i :| 0 <= i < |cs| && IsPending(cs[i]) && cs[i].dueDate == e.value;
      assert cs[i].dueDate < today;
    }
    if e.Some? && e.value > today + 3 {
      assert forall i :: 0 <= i < |cs| && IsPending(cs[i]) ==> cs[i].dueDate > today + 3;
    }
  }

  lemma {:induction false} CollectedUpdate(cs: seq<Installment>, i: int, c: Installment)
    requires 0 <= i < |cs|
    ensures Collected(cs[i := c]) == Collected(cs)
      - (if CountsAsPaid(cs[i].state) then cs[i].amount else 0.0)
      + (if CountsAsPaid(c.state) then c.amount else 0.0)
  {
    var n := |cs|;
    if i < n - 1 {
      assert cs[i := c][..n - 1] == cs[..n - 1][i := c];
      CollectedUpdate(cs[..n - 1], i, c);
    } else {
      assert cs[i := c][..n - 1] == cs[..n - 1];
    }
  }

  /** Paying an installment that was not counted as paid raises the loan's collected total by
      exactly its amount. */
  lemma PayingRaisesCollected(cs: seq<Installment>, i: int, paidAt: int)
    requires 0 <= i < |cs| && !CountsAsPaid(cs[i].state)
    ensures Collected(cs[i := cs[i].(state := Pagada, paidAt := Some(paidAt))]) == Collected(cs) + cs[i].amount
  {
    CollectedUpdate(cs, i, cs[i].(state := Pagada, paidAt := Some(paidAt)));
  }

  /** Reverting a paid installment lowers the collected total by exactly its amount. */
  lemma RevertingLowersCollected(cs: seq<Installment>, i: int)
    requires 0 <= i < |cs| && CountsAsPaid(cs[i].state)
    ensures Collected(cs[i := cs[i].(state := Pendiente, paidAt := None)]) == Collected(cs) - cs[i].amount
  {
    CollectedUpdate(cs, i, cs[i].(state := Pendiente, paidAt := None));
  }

  /** Marking an installment `atrasada` (what a delivered reminder does) leaves the collected
      total alone but takes it out of the visual-status rule: a loan overdue only through that
      installment no longer shows `en_mora`. */
  lemma NotifiedInstallmentLeavesEnMora(cs: seq<Installment>, i: int, frequency: string, today: int)
    requires 0 <= i < |cs| && IsPending(cs[i]) && cs[i].dueDate < today
    requires forall j :: 0 <= j < |cs| && j != i && IsPending(cs[j]) ==> cs[j].dueDate >= today
    ensures StatusOf(EarliestPending(cs), frequency, today) == EnMora
    ensures Collected(cs[i := cs[i].(state := Atrasada)]) == Collected(cs)
    ensures StatusOf(EarliestPending(cs[i := cs[i].(state := Atrasada)]), frequency, today) != EnMora
  {
    var after := cs[i := cs[i].(state := Atrasada)];
    EnMoraIffOverdue(cs, frequency, today);
    EnMoraIffOverdue(after, frequency, today);
    CollectedUpdate(cs, i, cs[i].(state := Atrasada));
    forall j | 0 <= j < |after| && IsPending(after[j])
      ensures after[j].dueDate >= today
    {
      assert j != i && after[j] == cs[j];
    }
  }
}
