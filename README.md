# prestapp core, modelled in Dafny

prestapp is a small Flask application for tracking microloans. Administrators and collectors
(`cobrador`) register clients, create loans with an installment schedule, record and revert
payments, and follow the portfolio on a dashboard. A separate daily job sends WhatsApp reminders
for installments that fell due the day before.

This project models the parts of it with behaviour worth stating:

- **Schedule** (`schedule.dfy`). This is the installment generation inside `crear_prestamo`.
  - It computes the total payable with simple interest and a fixed installment count per
    frequency (`diaria` 26, `semanal` 4, `quincenal` 2, `mensual` 1 per month of term).
  - Every installment gets the common amount `round(total / count, 2)`.
  - A date cursor starts tomorrow. A daily loan skips excluded Saturdays and Sundays; the other
    frequencies step 7, 15 or 30 days.
  - The loop is a method (`BuildInstallments`, with the helpers `NextDue`,
    `SkipToCollectionDay` and `Advance` for the inner skip loop and the step). It is proved equal
    to the specification function `ExpectedInstallments`, and the source's promises are lemmas
    about that function.
- **Dashboard** (`dashboard.dfy`). This is the loop of `admin_dashboard`: money lent, money
  collected, the pending portfolio, and for each active loan its integer progress and visual
  status.
- **Store** (`store.dfy`). The handlers that change records are methods of a `Database` class
  whose fields are the tables as maps keyed by id. The handlers are pay, revert, the three
  guarded deletes with the installment cascade, the two creates with their duplicate checks,
  the template upsert, and the two loan creations.
- **Reminders** (`reminders.dfy`). This is `enviar_recordatorios` in `scheduler.py`:
  - the selection query;
  - template rendering by three successive `str.replace` calls;
  - the send to `"+" + phone`;
  - the move to `atrasada` after a delivered send.
- Supporting modules:
  - `calendar.dfy` holds Python's `date` as a proleptic day ordinal, with `weekday()`,
    `fromordinal` and `strftime('%d/%m/%Y')`.
  - `text.dfy` holds `str(int)`, `str.replace` and zero padding.
  - `money.dfy` holds `int(x)` truncation and round-half-even on exact reals.
  - `entities.dfy` holds the records.

Inputs that come from outside the program are parameters:

- the clock (`today` as a day ordinal, `now` as an opaque timestamp);
- the acting user's role and id;
- the outcome of each WhatsApp send: the set `delivered` of installment ids whose send went
  through.

`crear_prestamo` has no manual installment amount, no rounding to the nearest thousand and no
balancing last installment (app.py:252-283). Every installment carries the same
`round(total / count, 2)`, so the installments need not add up to the total:
`Schedule.MonthlyExample` shows 1,000,000 at 10 % for 3 months paying
3 × 433,333.33 = 1,299,999.99.

## Model

| member | source | states |
|---|---|---|
| Schedule.TotalPayable | app.py:242 | Simple interest: the principal when the term or the rate is zero, never less than the principal for non-negative inputs |
| Schedule.InterestIsAdditive | app.py:242 | The interest over a term of t1 + t2 months is the interest over t1 plus the interest over t2 (no compounding) |
| Schedule.PerTermUnit | app.py:252-256 | The per-month multiplier is positive exactly for the four known frequency strings |
| Schedule.InstallmentCount | app.py:252-256 | The count is term × multiplier (26, 4, 2, 1), and it is positive iff the term is positive and the frequency is one of the four known strings |
| Schedule.StepDays | app.py:280-283 | Non-daily frequencies advance the cursor by at least a week |
| Schedule.Skipped | app.py:267-268 | Definition: a day is skipped when it is a Saturday not collected or a Sunday not collected; its meaning is stated by `NextCollectionDay` and `DailyDatesExact` |
| Schedule.DailyDates | app.py:263-280 | Definition of the daily due dates: n dates, the first the next collection day on or after the start, each later one the next collection day after the previous one; its meaning is stated by `DailyDatesBounds` and `DailyDatesExact` |
| Schedule.SteppedDates | app.py:281-283 | Definition of the weekly, fortnightly and monthly due dates: n dates a fixed step apart; its meaning is stated by `SteppedDatesAt` |
| Schedule.ScheduleDates | app.py:261-283 | Definition: n due dates from the start, daily or stepped by the frequency; its meaning is stated by `ScheduleFacts` and `ScheduleDatesUnfold` |
| Schedule.ExpectedInstallments | app.py:252-283 | Definition of a new loan's installments; its meaning is stated by `ExpectedInstallmentsFacts`, and `GenerateInstallments` is proved to compute it |
| Schedule.NextCollectionDay | app.py:266-271 | The first day on or after d that is not an excluded Saturday or Sunday; it lies at most two days ahead and every day skipped before it is an excluded one (the skip loop terminates) |
| Schedule.Pending | app.py:276 | One new `pendiente` installment per due date, with the common amount, no payment time, no notes and the loan's id, in date order |
| Schedule.PendingCons | app.py:276-277 | Building the installments for [d] + rest is the installment for d followed by those for rest |
| Schedule.SteppedDatesAt | app.py:281-283 | The i-th due date of a stepped schedule is start + step × i |
| Schedule.DailyDatesBounds | app.py:263-280 | Daily due dates are on or after the start, never on an excluded weekday, the first within two days of the start, and each 1 to 3 days after the previous one |
| Schedule.DailyDatesExact | app.py:263-280 | Between the start and the last daily due date, a day is a due date iff it is not an excluded weekday: no collection day is left out |
| Schedule.AdjacentIncreasingSorted | app.py:263-283 | Increasing neighbours make the whole date list strictly increasing |
| Schedule.ScheduleDatesUnfold | app.py:274-283 | A schedule from a collection day d is d followed by the schedule from d plus the frequency's step |
| Schedule.DailyDatesFromCollectionDay | app.py:266-271 | Skipping ahead to the next collection day before a daily schedule does not change the schedule |
| Schedule.Advance | app.py:279-283 | The cursor moves by exactly the frequency's step: 1, 7, 15 or 30 days, and not at all for an unknown frequency |
| Schedule.SkipToCollectionDay | app.py:266-271 | The inner `while True` loop stops at the next collection day |
| Schedule.NextDue | app.py:264-283 | One turn of the loop takes the head of the remaining schedule as the due date and leaves the cursor at the start of the rest |
| Schedule.BuildInstallments | app.py:261-283 | The `for` loop builds exactly one pending installment per date of the schedule from the start date, in order |
| Schedule.GenerateInstallments | app.py:252-283 | The generated installments are the expected ones: none for a count of zero, otherwise the rounded common amount over the schedule from tomorrow |
| Schedule.ExpectedInstallmentsFacts | app.py:252-283 | Count by frequency; the same amount round(total/count, 2) on every installment; state `pendiente`; due dates from today + 1 on, strictly increasing, today + 1 + step × i when not daily, never an excluded weekday when daily |
| Schedule.ScheduleFacts | app.py:261-283 | The due dates of every known frequency fall on or after the start date and strictly increase; fixed steps from the start when not daily; no excluded weekday when daily |
| Schedule.MonthlyExample | app.py:242-283 | 1,000,000 at 10 % for 3 months: total 1,300,000, three installments of 433,333.33 a month apart from tomorrow, adding up to 1,299,999.99 (no balancing installment) |
| Money.Truncate | scheduler.py:31 | `int(x)` truncates toward zero: within one unit below a non-negative value, one unit above a negative one |
| Money.RoundHalfEven | app.py:259 | The nearest integer, within one half, and even on a tie |
| Money.RoundHalfEvenUnique | app.py:259 | Those two properties single out the rounded value |
| Money.RoundToCents | app.py:259 | `round(x, 2)` is a whole number of cents within half a cent of x |
| Calendar.Weekday | app.py:267 | `weekday()` is in 0..6 |
| Calendar.WeekdayNext | app.py:267-269 | The next day has the next weekday, and a week later the weekday is the same |
| Calendar.Ordinal | scheduler.py:32 | Definition of `toordinal()`: days before the year, plus days before the month, plus the day; its meaning is stated by `OrdinalRoundTrip` and `FromOrdinal` |
| Calendar.DaysBeforeYearMatchesFormula | scheduler.py:32 | Counting years one by one agrees with Python's closed formula for days before a year |
| Calendar.QuotientsStep | scheduler.py:32 | The leap day of a year is what the formula's three quotients gain from one year to the next |
| Calendar.DaysBeforeYearBounds | scheduler.py:32 | Each year before y contributes between 365 and 366 days |
| Calendar.DaysBeforeYearMonotone | scheduler.py:32 | Later years start later, and year y0 + 1 starts one year length after y0 |
| Calendar.FindMonth | scheduler.py:32 | Day `rem` of a year, counted from month m, is a valid date in that year at that distance |
| Calendar.FindYear | scheduler.py:32 | Day `rem` counted from year y is a valid date whose ordinal is the days before y plus rem |
| Calendar.FromOrdinal | scheduler.py:32 | `date.fromordinal(n)` is a valid date whose ordinal is n |
| Calendar.FindMonthOf | scheduler.py:32 | From a month up to a date's own month, the month search lands on that date |
| Calendar.FindYearOf | scheduler.py:32 | From a year up to a date's own year, the year search lands on that date |
| Calendar.RemainderIn | scheduler.py:32 | Where a date's ordinal falls when counted from the start of an earlier year or of its own year |
| Calendar.OrdinalRoundTrip | scheduler.py:32 | `fromordinal(toordinal(c)) == c` for every valid date |
| Calendar.FormatDayMonthYearDecodes | scheduler.py:32 | For dates up to year 9999, `strftime('%d/%m/%Y')` is ten characters, slashes at 2 and 5, and its three digit fields read back as the day, month and year |
| Calendar.FormatDateDecodes | scheduler.py:32 | The same for a civil date |
| Calendar.Fields | scheduler.py:32 | `dd/mm/yyyy` assembled from fields of width 2, 2 and 4 gives back each field at its fixed position |
| Calendar.FormatDayMonthYear | scheduler.py:32 | Definition of `strftime('%d/%m/%Y')` on a day number; its meaning is stated by `FormatDayMonthYearDecodes` |
| Calendar.FormatDate | scheduler.py:32 | Definition of `strftime('%d/%m/%Y')` on a civil date; its meaning is stated by `FormatDateDecodes` |
| Text.NatToString | scheduler.py:31 | `str(n)` is a non-empty string of digits without a leading zero |
| Text.NatToStringRoundTrip | scheduler.py:31 | `int(str(n)) == n` |
| Text.NatToStringLength | scheduler.py:32 | A number below 10^k has at most k digits |
| Text.IntToString | scheduler.py:31 | `str(i)` starts with '-' iff i is negative |
| Text.IntToStringRoundTrip | scheduler.py:31 | The text of any integer parses back to that integer |
| Text.PadZeros | scheduler.py:32 | Zero padding to a width keeps the text as a suffix and fills the front with '0' |
| Text.LeadingZerosValue | scheduler.py:32 | Leading zeros do not change a numeral's value |
| Text.PadZerosValue | scheduler.py:32 | A padded number still reads back as the number |
| Text.PaddedField | scheduler.py:32 | A number below 10^w padded to width w is exactly w digits reading back as the number |
| Text.Split | scheduler.py:30-32 | `split` yields at least one part (its meaning is stated by the three lemmas below) |
| Text.Replace | scheduler.py:30-32 | Definition of `str.replace` for a non-empty pattern, left to right and without overlap; its meaning is stated by `ReplaceIsSplitJoin` together with `SplitPartsFree` and `SplitJoinRoundTrip` |
| Text.SplitFirstIsPrefix | scheduler.py:30-32 | The first part of a split is a prefix of the string |
| Text.SplitPartsFree | scheduler.py:30-32 | No part of a split contains the pattern: the string is cut at every occurrence |
| Text.SplitJoinRoundTrip | scheduler.py:30-32 | Joining the parts with the pattern gives the string back, so together with `ReplaceIsSplitJoin` every occurrence, and only those, is rewritten |
| Text.ReplaceIsSplitJoin | scheduler.py:30-32 | `s.replace(p, r)` equals `r.join(s.split(p))` |
| Text.ReplaceAbsent | scheduler.py:30-32 | Replacing a pattern that does not occur leaves the text unchanged |
| Text.ReplaceBySelf | scheduler.py:30-32 | Replacing a pattern by itself leaves the text unchanged |
| Dashboard.Progress | app.py:161-162 | 0 when the total payable is not positive; in 0..100 while no more than the total is collected; at least 100 once it is |
| Dashboard.RatioBounds | app.py:161 | A ratio of a part to a positive whole lies in [0, 1], and is at least 1 once the part reaches the whole |
| Dashboard.Collected | app.py:159 | Definition of the amount paid on a loan, over its installments in a paid state; its meaning is stated by `CollectedUpdate`, `PayingRaisesCollected` and `RevertingLowersCollected` |
| Dashboard.TotalLent | app.py:154-158 | Definition of the sum of the principals of the active loans; `AdminDashboard` is proved to compute it |
| Dashboard.TotalCollected | app.py:155-160 | Definition of the sum of `Collected` over the active loans; `AdminDashboard` is proved to compute it |
| Dashboard.StatusOf | app.py:164-178 | Definition of the visual status from the earliest pending due date; its meaning is stated by `EnMoraIffOverdue` and `ProximoVencerIff` |
| Dashboard.ViewOf | app.py:159-178 | Definition of one loan's progress and status; `LoanViewOf` is proved to compute it |
| Dashboard.EarliestPending | app.py:166-170 | None iff no installment is `pendiente`; otherwise the due date of a pending installment that no pending installment precedes |
| Dashboard.FindEarliestPending | app.py:166-170 | The scan over the installments finds the earliest pending due date |
| Dashboard.LoanViewOf | app.py:161-178 | The loop body for one loan computes its progress and visual status as `ViewOf` specifies |
| Dashboard.AdminDashboard | app.py:154-185 | Total lent and total collected over the active loans, the pending portfolio as their difference, the count of active loans, and each loan's progress and visual status |
| Dashboard.EnMoraIffOverdue | app.py:172-175 | A loan shows `en_mora` iff one of its pending installments is past due |
| Dashboard.ProximoVencerIff | app.py:176-178 | A loan shows `proximo_vencer` iff it is not daily, no pending installment is past due and one is due within three days |
| Dashboard.CollectedUpdate | app.py:159 | Changing one installment changes the collected sum by exactly its change in paid amount |
| Dashboard.PayingRaisesCollected | app.py:159 | Paying an unpaid installment raises the collected sum by its amount |
| Dashboard.RevertingLowersCollected | app.py:159 | Reverting a paid installment lowers the collected sum by its amount |
| Dashboard.NotifiedInstallmentLeavesEnMora | app.py:164-178 | For any loan whose only past-due pending installment is one installment: the loan shows `en_mora`, and once that installment is marked `atrasada` (what a delivered reminder does) it no longer does, while its collected sum stays the same |
| Store.Pay | app.py:381-386 | Paying keeps every other installment; an already `pagada` installment stays as it is, any other becomes `pagada` with the payment time |
| Store.Revert | app.py:405-406 | Reverting sets `pendiente` and clears the payment time, touching nothing else |
| Store.PayIdempotent | app.py:381-386 | Paying twice is the same as paying once |
| Store.RevertUndoesPay | app.py:381-406 | Reverting the payment of a pending installment with no payment time restores the table exactly |
| Store.WithoutLoan | app.py:358-363 | The cascade drops exactly the installments of the deleted loan and keeps every other one unchanged |
| Store.Numbered | app.py:276-277 | New rows take consecutive ids from the next auto-increment value, in list order |
| Store.ShownTemplate | app.py:665-666 | The configuration page shows the stored template, or the built-in text when there is no entry |
| Store.GeneratedInstallmentsFit | app.py:276 | A new loan's installments point at the loan and fall on calendar days |
| Store.Database.Valid | app.py:49-89 | Definition of the store's integrity: unique cedulas and usernames, every loan pointing at an existing client and user, every installment at an existing loan, ids below the next auto-increment value; every handler is proved to keep it |
| Store.Database.PayInstallment | app.py:374-396 | Unknown id: not found; already `pagada`: refused, nothing changes; otherwise the installment becomes `pagada` at `now`; the store stays valid and no other table changes |
| Store.Database.RevertPayment | app.py:399-409 | A non-admin is sent away with nothing changed; an unknown id is not found; otherwise the installment is reverted |
| Store.Database.DeleteClient | app.py:531-552 | Only an admin may delete; an unknown id is not found; a client with loans is refused; otherwise exactly that client is removed |
| Store.Database.DeleteUser | app.py:617-638 | Only an admin may delete; deleting oneself is refused before the lookup; an unknown id is not found; a user with assigned loans is refused; otherwise exactly that user is removed |
| Store.Database.DeleteLoan | app.py:351-371 | Only an admin may delete; an unknown id is not found; otherwise the loan and all its installments go, and everything else stays |
| Store.Database.CreateClient | app.py:451-476 | Only an admin may create; an existing cedula inserts nothing; otherwise one client is added under the next id |
| Store.Database.CreateUser | app.py:567-589 | Only an admin may create; an existing username inserts nothing; otherwise one user is added under the next id |
| Store.Database.SaveTemplate | app.py:641-663 | Only an admin may save; the single template entry ends up holding the submitted value, whether it existed or not |
| Store.Database.CreateLoan | app.py:219-295 | With a known collector: the existing client with the cedula, or a new one; the loan with its total payable; exactly the expected installments under consecutive new ids. With an unknown collector the commit fails and nothing changes |
| Store.Database.AddInstallments | app.py:276-277 | A loan's new installments are added under consecutive ids and the store stays valid |
| Store.Database.InsertLoanClient | app.py:237-240 | The client with the cedula if there is one, otherwise a new client from the form under the next id |
| Store.Database.CreateLoanForClient | app.py:481-528 | An unknown client is not found; a known client with a known collector gets a new loan with its total payable and no installments |
| Reminders.TemplateOf | scheduler.py:17-22 | A template is used iff the entry exists and is not empty, and it is the stored text |
| Reminders.Selected | scheduler.py:10-11 | Definition of the rows the job looks at: `pendiente` and due the day before; `QueryDue` is proved to return exactly them, and `SecondRunSkipsMarked` uses it |
| Reminders.Render | scheduler.py:30-32 | Definition of the message text; its meaning is stated by `TemplateWithoutPlaceholders`, `NameIsRewrittenToo` and `RenderMessage` |
| Reminders.Compose | scheduler.py:30-36 | Definition of one send: the phone with a leading `+` and the rendered text; `MessagesValues` states that each message is one |
| Reminders.Messages | scheduler.py:25-36 | Definition of the messages for a list of rows; its meaning is stated by `MessagesKeys` and `MessagesValues` |
| Reminders.Outbox | scheduler.py:13-36 | Definition of what one run sends; its meaning is stated by `OutboxContents`, and `SendReminders` is proved to send it |
| Reminders.DistinctRow | scheduler.py:11 | A row of a list without repetitions is not among the rows before it |
| Reminders.QueryDue | scheduler.py:10-11 | The query returns each id once, and exactly the `pendiente` installments due the day before `today` |
| Reminders.MessagesAppend | scheduler.py:25-36 | One more row adds its message iff its client has a phone |
| Reminders.MessagesKeys | scheduler.py:25-36 | A message goes out for a row iff its client has a phone |
| Reminders.MessagesValues | scheduler.py:26-36 | Each message goes to the client's phone and is the template filled for that client and installment |
| Reminders.OutboxContents | scheduler.py:13-36 | No message without a template; otherwise a message is sent iff the installment was selected and its client has a phone, to "+" followed by the phone, with the rendered text |
| Reminders.RunEffect | scheduler.py:10-46 | An installment becomes `atrasada` iff a template is set, it was selected, its client has a phone and its message was delivered; in every other case, including every unselected installment, it stays as it was |
| Reminders.MarkLate | scheduler.py:41 | The named installments become `atrasada`, every other one stays as it was, and no id is added or removed |
| Reminders.MarkLateStep | scheduler.py:36-44 | A delivered send marks its installment; a failed one changes nothing |
| Reminders.SecondRunSkipsMarked | scheduler.py:10-41 | A second run the same day selects only the installments the first run did not mark, so a delivered reminder is not sent again |
| Reminders.TemplateWithoutPlaceholders | scheduler.py:30-32 | A template without any placeholder is sent as it is |
| Reminders.NameIsRewrittenToo | scheduler.py:30-32 | The replacements run in sequence, so a client name reading `[monto_cuota]` is itself replaced by the truncated amount |
| Reminders.RenderMessage | scheduler.py:30-32 | The message is built by the three successive replacements |
| Reminders.SendReminders | scheduler.py:6-46 | The job selects exactly the rows due yesterday, sends what the outbox specifies (nothing without rows or a template), and marks `atrasada` exactly the delivered ones; the store stays valid |
| Reminders.NotifyEach | scheduler.py:25-46 | The loop sends the messages for the rows and marks the delivered installments |
| Reminders.NotifyOne | scheduler.py:26-44 | One turn adds the row's message if its client has a phone, and marks it if delivered |

## Left out

- Flask routing, templates, flash messages, redirects, the login and logout views, the public
  status lookup and the JSON client lookup. These are presentation; a rejected request is the
  model's `Outcome`.
- Authentication and bcrypt. The acting user's role and id are parameters, and `CreateUser`
  takes the password already hashed.
- SQLAlchemy sessions, commit and rollback. Each method is one committed request. Commit
  failures are absent except where the model can name the cause: a collector id that is not a
  user makes `crear_prestamo` fail on the foreign key.
- The order of rows a query returns. `QueryDue` scans ids in increasing order; any order gives
  the same messages and the same final state, because each row touches only its own
  installment.
- `pywhatkit.sendwhatmsg_instantly`: its outcome per installment is the `delivered` set. The
  APScheduler cron trigger and timezone are left out. `date.today()` and `datetime.utcnow()`
  are the `today` and `now` parameters.
- The console `print` logging of the job and the `app.logger` calls.
- The dashboard's `f"{x:,.0f}"` formatting of the totals, and its `Prestamo.query`: the active
  loans arrive as snapshots.
- Dashboard.AdminDashboard: returns the per-loan progress and status as values instead of
  writing them as attributes on the loan objects.
- Money.RoundToCents: amounts are exact reals, not IEEE doubles. Rounding is half-to-even on
  the exact value, so binary representation effects of `round(x, 2)` are not modelled.
- Calendar.FormatDayMonthYearDecodes: stated only for years up to 9999, the range of Python's
  `date`. The overflow a cursor past 9999-12-31 would raise is not modelled.
- Text.Replace: only for a non-empty pattern. The job's three placeholders are non-empty.
- The `editar_cliente`, `editar_usuario` and `editar_prestamo` handlers are not modelled.
  - Each checks the admin role first (app.py:327, 416, 595).
  - `editar_prestamo` writes only when a non-empty `cobrador_id` is submitted, converted with
    `int` (app.py:336-337).
  - `editar_usuario` changes the password hash only when a new password is given (app.py:607).
  - A duplicate cedula or username, or an unknown collector, is refused only by the database at
    commit.
- Store.HasCedula, Store.HasUsername: cedulas and usernames are compared exactly. The store is
  MySQL and the columns declare no collation, so under a case-insensitive default collation
  the lookups and unique indexes treat names differing only in letter case as the same.
- The parsing of form fields: `float(...)`/`int(...)` errors, and the collector id arriving
  as text. These are inputs already converted here. The form's `cobrador_id` defaults to the
  acting user's id when the field is missing (app.py:232, 495); here `collectorId` always
  arrives explicitly.
- create-admin.py and create-cobrador.py. These are console scripts; their duplicate-username
  check is the one `CreateUser` models.
- The state `pagada_tarde` exists and counts as paid on the dashboard, but no code path sets
  it.
