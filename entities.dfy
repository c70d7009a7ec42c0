/** The records of the loan tracker (the tables `cliente`, `usuario`, `prestamo`, `cuota` and
    `configuracion`). Dates are day ordinals (module Calendar); timestamps such as a creation or
    payment time are opaque integers supplied by the caller's clock. */
module Entities {

  datatype Option<T> = None | Some(value: T)

  /** The states an installment takes. `pagada_tarde` is counted as paid but nothing sets it. */
  datatype InstallmentState = Pendiente | Pagada | PagadaTarde | Atrasada

  datatype Client = Client(
    cedula: string,
    fullName: string,
    address: Option<string>,
    phone: Option<string>,
    createdAt: int)

  datatype User = User(username: string, passwordHash: string, role: string)

  datatype Loan = Loan(
    principal: real,
    monthlyRate: real,
    term: int,
    totalPayable: real,
    frequency: string,
    startedAt: int,
    state: string,
    collectSaturday: bool,
    collectSunday: bool,
    clientId: int,
    userId: int)

  datatype Installment = Installment(
    amount: real,
    dueDate: int,
    state: InstallmentState,
    paidAt: Option<int>,
    notes: Option<string>,
    loanId: int)

  const Admin: string := "admin"
  const ActiveLoan: string := "activo"

  /** Python truthiness of a nullable text column: present and not empty. */
  predicate IsFilled(s: Option<string>) {
    s.Some? && |s.value| > 0
  }

  /** The due dates of a list of installments, in list order. */
  function DueDates(cs: seq<Installment>): (ds: seq<int>)
    ensures |ds| == |cs| && forall i :: 0 <= i < |cs| ==> ds[i] == cs[i].dueDate
  {
    seq(|cs|, i requires 0 <= i < |cs| => cs[i].dueDate)
  }
}
