/** The handlers of app.py that change records, over an in-memory store: a map per table, keyed
    by auto-increment id. Each method is one request that commits; a rejected request changes
    nothing. The acting user's role (and id) are parameters, as are the clock's readings. */
module Store {
  import opened Entities
  import Schedule

  datatype Reason =
    | AlreadyPaid
    | ClientHasLoans
    | DeletingSelf
    | UserHasLoans
    | DuplicateCedula
    | DuplicateUsername
    | UnknownCollector

  /** What a request ends in: done, a 404, a redirect away for a non-admin, or a refusal. */
  datatype Outcome = Done | NotFound | Forbidden | Rejected(reason: Reason)

  const TemplateKey: string := "whatsapp_template"

  const DefaultTemplate: string :=
    "Hola [cliente], te recordamos que tu cuota de $[monto_cuota] que vencía el [fecha_vencimiento] se encuentra pendiente. ¡Gracias!"

  // ---- The state changes, as functions of the tables ----

  /** `pagar_cuota` on an existing installment: nothing if it is already `pagada`, otherwise it
      becomes `pagada` with the payment time. */
  function Pay(cs: map<int, Installment>, id: int, now: int): (r: map<int, Installment>)
    requires id in cs
    ensures r.Keys == cs.Keys
    ensures r[id].state == Pagada
    ensures forall k :: k in cs && k != id ==> r[k] == cs[k]
    ensures cs[id].state == Pagada ==> r == cs
    ensures cs[id].state != Pagada ==> r[id] == cs[id].(state := Pagada, paidAt := Some(now))
  {
    if cs[id].state == Pagada then cs
    else cs[id := cs[id].(state := Pagada, paidAt := Some(now))]
  }

  /** `revertir_pago_cuota`: back to `pendiente`, without a payment time. */
  function Revert(cs: map<int, Installment>, id: int): (r: map<int, Installment>)
    requires id in cs
    ensures r.Keys == cs.Keys
    ensures r[id] == cs[id].(state := Pendiente, paidAt := None)
    ensures forall k :: k in cs && k != id ==> r[k] == cs[k]
  {
    cs[id := cs[id].(state := Pendiente, paidAt := None)]
  }

  /** Paying twice is paying once: the second request finds the installment paid. */
  lemma PayIdempotent(cs: map<int, Installment>, id: int, t1: int, t2: int)
    requires id in cs
    ensures Pay(Pay(cs, id, t1), id, t2) == Pay(cs, id, t1)
  {
  }

  /** Reverting a payment of a pending installment restores it exactly. */
  lemma RevertUndoesPay(cs: map<int, Installment>, id: int, now: int)
    requires id in cs && cs[id].state == Pendiente && cs[id].paidAt == None
    ensures Revert(Pay(cs, id, now), id) == cs
  {
    assert cs[id].(state := Pendiente, paidAt := None) == cs[id];
  }

  function LoansOfClient(loans: map<int, Loan>, clientId: int): set<int> {
    set id | id in loans && loans[id].clientId == clientId
  }

  function LoansOfUser(loans: map<int, Loan>, userId: int): set<int> {
    set id | id in loans && loans[id].userId == userId
  }

  /** The cascade of deleting a loan: its installments go, every other one stays as it was. */
  function WithoutLoan(cs: map<int, Installment>, loanId: int): (r: map<int, Installment>)
    ensures forall k :: k in r <==> k in cs && cs[k].loanId != loanId
    ensures forall k :: k in r ==> r[k] == cs[k]
  {
    map k | k in cs && cs[k].loanId != loanId :: cs[k]
  }

  /** New rows numbered consecutively from `base`, in list order. */
  function Numbered(base: int, s: seq<Installment>): (r: map<int, Installment>)
    ensures forall k :: k in r <==> base <= k < base + |s|
    ensures forall i :: 0 <= i < |s| ==> r[base + i] == s[i]
  {
    if s == [] then map[]
    else Numbered(base, s[..|s| - 1])[base + |s| - 1 := s[|s| - 1]]
  }

  predicate HasCedula(clients: map<int, Client>, cedula: string) {
    exists id :: id in clients && clients[id].cedula == cedula
  }

  predicate HasUsername(users: map<int, User>, username: string) {
    exists id :: id in users && users[id].username == username
  }

  ghost function ClientWithCedula(clients: map<int, Client>, cedula: string): (id: int)
    requires HasCedula(clients, cedula)
    ensures id in clients && clients[id].cedula == cedula
  {
    var id :| id in clients && clients[id].cedula == cedula; id
  }

  /** The template the configuration page shows: the stored value, or the built-in text when no
      entry exists. */
  function ShownTemplate(config: map<string, Option<string>>): (t: Option<string>)
    ensures TemplateKey in config ==> t == config[TemplateKey]
    ensures TemplateKey !in config ==> t == Some(DefaultTemplate)
  {
    if TemplateKey in config then config[TemplateKey] else Some(DefaultTemplate)
  }

  /** A new loan's installments point at the loan and fall on calendar days. */
  lemma GeneratedInstallmentsFit(total: real, term: int, f: string, collectSaturday: bool,
                                 collectSunday: bool, today: int, loanId: int)
    requires today >= 1
    ensures var cs := Schedule.ExpectedInstallments(total, term, f, collectSaturday, collectSunday, today, loanId);
      forall i :: 0 <= i < |cs| ==> cs[i].loanId == loanId && cs[i].dueDate >= 1
  {
    Schedule.ExpectedInstallmentsFacts(total, term, f, collectSaturday, collectSunday, today, loanId);
  }

  /** Every id is positive and below the next auto-increment value. */
  predicate IdsBelow<T>(m: map<int, T>, next: int) {
    1 <= next && forall id :: id in m ==> 1 <= id < next
  }

  predicate LoansLinked(loans: map<int, Loan>, clients: map<int, Client>, users: map<int, User>) {
    forall id :: id in loans ==> loans[id].clientId in clients && loans[id].userId in users
  }

  predicate InstallmentsLinked(cs: map<int, Installment>, loans: map<int, Loan>) {
    forall id :: id in cs ==> cs[id].loanId in loans && cs[id].dueDate >= 1
  }

  predicate UniqueCedulas(clients: map<int, Client>) {
    forall a, b :: a in clients && b in clients && clients[a].cedula == clients[b].cedula ==> a == b
  }

  predicate UniqueUsernames(users: map<int, User>) {
    forall a, b :: a in users && b in users && users[a].username == users[b].username ==> a == b
  }

  class Database {
    var clients: map<int, Client>
    var users: map<int, User>
    var loans: map<int, Loan>
    var installments: map<int, Installment>
    var config: map<string, Option<string>>
    var nextClientId: int
    var nextUserId: int
    var nextLoanId: int
    var nextInstallmentId: int

    /** Ids are below the next auto-increment value, foreign keys resolve, cedulas and usernames
        are unique, and every due date is a real calendar day. */
    ghost predicate Valid()
      reads this
    {
      && IdsBelow(clients, nextClientId) && IdsBelow(users, nextUserId)
      && IdsBelow(loans, nextLoanId) && IdsBelow(installments, nextInstallmentId)
      && LoansLinked(loans, clients, users) && InstallmentsLinked(installments, loans)
      && UniqueCedulas(clients) && UniqueUsernames(users)
    }

    constructor ()
      ensures Valid()
      ensures clients == map[] && users == map[] && loans == map[] && installments == map[] && config == map[]
    {
      clients, users, loans, installments, config := map[], map[], map[], map[], map[];
      nextClientId, nextUserId, nextLoanId, nextInstallmentId := 1, 1, 1, 1;
    }

    /** `pagar_cuota` (any logged-in user). */
    method PayInstallment(id: int, now: int) returns (r: Outcome)
      requires Valid()
      modifies this
      ensures Valid()
      ensures id !in old(installments) ==> r == NotFound && installments == old(installments)
      ensures id in old(installments) && old(installments)[id].state == Pagada ==>
        r == Rejected(AlreadyPaid) && installments == old(installments)
      ensures id in old(installments) && old(installments)[id].state != Pagada ==> r == Done
      ensures id in old(installments) ==> installments == Pay(old(installments), id, now)
      ensures clients == old(clients) && users == old(users) && loans == old(loans) && config == old(config)
      ensures nextClientId == old(nextClientId) && nextUserId == old(nextUserId)
      ensures nextLoanId == old(nextLoanId) && nextInstallmentId == old(nextInstallmentId)
    {
      if id !in installments {
        return NotFound;
      }
      if installments[id].state == Pagada {
        return Rejected(AlreadyPaid);
      }
      installments := installments[id := installments[id].(state := Pagada, paidAt := Some(now))];
      r := Done;
    }

    /** `revertir_pago_cuota`: only an admin may revert; anyone else is sent away unchanged. */
    method RevertPayment(role: string, id: int) returns (r: Outcome)
      requires Valid()
      modifies this
      ensures Valid()
      ensures role != Admin ==> r == Forbidden && installments == old(installments)
      ensures role == Admin && id !in old(installments) ==> r == NotFound && installments == old(installments)
      ensures role == Admin && id in old(installments) ==> r == Done && installments == Revert(old(installments), id)
      ensures clients == old(clients) && users == old(users) && loans == old(loans) && config == old(config)
      ensures nextClientId == old(nextClientId) && nextUserId == old(nextUserId)
      ensures nextLoanId == old(nextLoanId) && nextInstallmentId == old(nextInstallmentId)
    {
      if role != Admin {
        return Forbidden;
      }
      if id !in installments {
        return NotFound;
      }
      installments := installments[id := installments[id].(state := Pendiente, paidAt := None)];
      r := Done;
    }

    /** `eliminar_cliente`: refused while the client has any loan. */
    method DeleteClient(role: string, id: int) returns (r: Outcome)
      requires Valid()
      modifies this
      ensures Valid()
      ensures role != Admin ==> r == Forbidden && clients == old(clients)
      ensures role == Admin && id !in old(clients) ==> r == NotFound && clients == old(clients)
      ensures role == Admin && id in old(clients) && LoansOfClient(old(loans), id) != {} ==>
        r == Rejected(ClientHasLoans) && clients == old(clients)
      ensures role == Admin && id in old(clients) && LoansOfClient(old(loans), id) == {} ==>
        r == Done && clients == old(clients) - {id}
      ensures users == old(users) && loans == old(loans) && installments == old(installments) && config == old(config)
      ensures nextClientId == old(nextClientId) && nextUserId == old(nextUserId)
      ensures nextLoanId == old(nextLoanId) && nextInstallmentId == old(nextInstallmentId)
    {
      if role != Admin {
        return Forbidden;
      }
      if id !in clients {
        return NotFound;
      }
      if exists l :: l in loans && loans[l].clientId == id {
        var l :| l in loans && loans[l].clientId == id;
        assert l in LoansOfClient(loans, id);
        return Rejected(ClientHasLoans);
      }
      clients := clients - {id};
      r := Done;
    }

    /** `eliminar_usuario`: an admin cannot delete their own account (checked before the lookup),
        nor a user with assigned loans. */
    method DeleteUser(role: string, actorId: int, id: int) returns (r: Outcome)
      requires Valid()
      modifies this
      ensures Valid()
      ensures role != Admin ==> r == Forbidden && users == old(users)
      ensures role == Admin && id == actorId ==> r == Rejected(DeletingSelf) && users == old(users)
      ensures role == Admin && id != actorId && id !in old(users) ==> r == NotFound && users == old(users)
      ensures role == Admin && id != actorId && id in old(users) && LoansOfUser(old(loans), id) != {} ==>
        r == Rejected(UserHasLoans) && users == old(users)
      ensures role == Admin && id != actorId && id in old(users) && LoansOfUser(old(loans), id) == {} ==>
        r == Done && users == old(users) - {id}
      ensures clients == old(clients) && loans == old(loans) && installments == old(installments) && config == old(config)
      ensures nextClientId == old(nextClientId) && nextUserId == old(nextUserId)
      ensures nextLoanId == old(nextLoanId) && nextInstallmentId == old(nextInstallmentId)
    {
      if role != Admin {
        return Forbidden;
      }
      if id == actorId {
        return Rejected(DeletingSelf);
      }
      if id !in users {
        return NotFound;
      }
      if exists l :: l in loans && loans[l].userId == id {
        var l :| l in loans && loans[l].userId == id;
        assert l in LoansOfUser(loans, id);
        return Rejected(UserHasLoans);
      }
      users := users - {id};
      r := Done;
    }

    /** `eliminar_prestamo`: the loan goes together with all of its installments. */
    method DeleteLoan(role: string, id: int) returns (r: Outcome)
      requires Valid()
      modifies this
      ensures Valid()
      ensures role != Admin ==> r == Forbidden && loans == old(loans) && installments == old(installments)
      ensures role == Admin && id !in old(loans) ==>
        r == NotFound && loans == old(loans) && installments == old(installments)
      ensures role == Admin && id in old(loans) ==>
        r == Done && loans == old(loans) - {id} && installments == WithoutLoan(old(installments), id)
      ensures clients == old(clients) && users == old(users) && config == old(config)
      ensures nextClientId == old(nextClientId) && nextUserId == old(nextUserId)
      ensures nextLoanId == old(nextLoanId) && nextInstallmentId == old(nextInstallmentId)
    {
      if role != Admin {
        return Forbidden;
      }
      if id !in loans {
        return NotFound;
      }
      loans := loans - {id};
      installments := WithoutLoan(installments, id);
      r := Done;
    }

    /** `crear_cliente`: a cedula already on file inserts nothing. */
    method CreateClient(role: string, cedula: string, fullName: string, phone: string, address: string, now: int)
      returns (r: Outcome)
      requires Valid()
      modifies this
      ensures Valid()
      ensures role != Admin ==> r == Forbidden && clients == old(clients) && nextClientId == old(nextClientId)
      ensures role == Admin && HasCedula(old(clients), cedula) ==>
        r == Rejected(DuplicateCedula) && clients == old(clients) && nextClientId == old(nextClientId)
      ensures role == Admin && !HasCedula(old(clients), cedula) ==>
        && r == Done
        && clients == old(clients)[old(nextClientId) := Client(cedula, fullName, Some(address), Some(phone), now)]
        && nextClientId == old(nextClientId) + 1
      ensures users == old(users) && loans == old(loans) && installments == old(installments) && config == old(config)
      ensures nextUserId == old(nextUserId) && nextLoanId == old(nextLoanId) && nextInstallmentId == old(nextInstallmentId)
    {
      if role != Admin {
        return Forbidden;
      }
      if exists id :: id in clients && clients[id].cedula == cedula {
        return Rejected(DuplicateCedula);
      }
      clients := clients[nextClientId := Client(cedula, fullName, Some(address), Some(phone), now)];
      nextClientId := nextClientId + 1;
      r := Done;
    }

    /** `crear_usuario`: an existing username inserts nothing; the password arrives hashed. */
    method CreateUser(role: string, username: string, passwordHash: string, newRole: string)
      returns (r: Outcome)
      requires Valid()
      modifies this
      ensures Valid()
      ensures role != Admin ==> r == Forbidden && users == old(users) && nextUserId == old(nextUserId)
      ensures role == Admin && HasUsername(old(users), username) ==>
        r == Rejected(DuplicateUsername) && users == old(users) && nextUserId == old(nextUserId)
      ensures role == Admin && !HasUsername(old(users), username) ==>
        && r == Done
        && users == old(users)[old(nextUserId) := User(username, passwordHash, newRole)]
        && nextUserId == old(nextUserId) + 1
      ensures clients == old(clients) && loans == old(loans) && installments == old(installments) && config == old(config)
      ensures nextClientId == old(nextClientId) && nextLoanId == old(nextLoanId) && nextInstallmentId == old(nextInstallmentId)
    {
      if role != Admin {
        return Forbidden;
      }
      if exists id :: id in users && users[id].username == username {
        return Rejected(DuplicateUsername);
      }
      users := users[nextUserId := User(username, passwordHash, newRole)];
      nextUserId := nextUserId + 1;
      r := Done;
    }

    /** `configuracion` (POST): update the template entry if it exists, otherwise create it;
        either way the single entry ends up holding the submitted value. */
    method SaveTemplate(role: string, value: Option<string>) returns (r: Outcome)
      requires Valid()
      modifies this
      ensures Valid()
      ensures role != Admin ==> r == Forbidden && config == old(config)
      ensures role == Admin ==> r == Done && config == old(config)[TemplateKey := value]
      ensures clients == old(clients) && users == old(users) && loans == old(loans) && installments == old(installments)
      ensures nextClientId == old(nextClientId) && nextUserId == old(nextUserId)
      ensures nextLoanId == old(nextLoanId) && nextInstallmentId == old(nextInstallmentId)
    {
      if role != Admin {
        return Forbidden;
      }
      if TemplateKey in config {
        config := config[TemplateKey := value];
      } else {
        config := config + map[TemplateKey := value];
      }
      r := Done;
    }

    /** `crear_prestamo` (POST): find the client by cedula or create one from the form, save the
        loan with its total payable, and add the generated installments. A collector id that is
        not a user makes the commit fail on the foreign key, and the request changes nothing. */
    method CreateLoan(cedula: string, fullName: string, phone: Option<string>, address: Option<string>,
                      principal: real, term: int, monthlyRate: real, frequency: string, collectorId: int,
                      collectSaturday: bool, collectSunday: bool, today: int, now: int)
      returns (r: Outcome)
      requires Valid() && today >= 1
      modifies this
      ensures Valid()
      ensures collectorId !in old(users) ==>
        && r == Rejected(UnknownCollector)
        && clients == old(clients) && loans == old(loans) && installments == old(installments)
        && nextClientId == old(nextClientId) && nextLoanId == old(nextLoanId)
        && nextInstallmentId == old(nextInstallmentId)
      ensures collectorId in old(users) ==>
        && r == Done
        && var clientId := if HasCedula(old(clients), cedula) then ClientWithCedula(old(clients), cedula)
                           else old(nextClientId);
           && clients == (if HasCedula(old(clients), cedula) then old(clients)
                          else old(clients)[clientId := Client(cedula, fullName, address, phone, now)])
           && loans == old(loans)[old(nextLoanId) :=
                Loan(principal, monthlyRate, term, Schedule.TotalPayable(principal, monthlyRate, term),
                     frequency, now, ActiveLoan, collectSaturday, collectSunday, clientId, collectorId)]
           && installments == old(installments) + Numbered(old(nextInstallmentId),
                Schedule.ExpectedInstallments(Schedule.TotalPayable(principal, monthlyRate, term), term,
                  frequency, collectSaturday, collectSunday, today, old(nextLoanId)))
           && nextClientId == (if HasCedula(old(clients), cedula) then old(nextClientId) else old(nextClientId) + 1)
           && nextLoanId == old(nextLoanId) + 1
           && nextInstallmentId == old(nextInstallmentId) + |Schedule.ExpectedInstallments(
                Schedule.TotalPayable(principal, monthlyRate, term), term, frequency, collectSaturday,
                collectSunday, today, old(nextLoanId))|
      ensures users == old(users) && config == old(config) && nextUserId == old(nextUserId)
    {
      if collectorId !in users {
        return Rejected(UnknownCollector);
      }
      var clientId := InsertLoanClient(cedula, fullName, phone, address, now);
      var total := Schedule.TotalPayable(principal, monthlyRate, term);
      var loanId := nextLoanId;
      loans := loans[loanId := Loan(principal, monthlyRate, term, total, frequency, now, ActiveLoan,
                                    collectSaturday, collectSunday, clientId, collectorId)];
      nextLoanId := nextLoanId + 1;
      var cs := Schedule.GenerateInstallments(total, term, frequency, collectSaturday, collectSunday, today, loanId);
      GeneratedInstallmentsFit(total, term, frequency, collectSaturday, collectSunday, today, loanId);
      AddInstallments(loanId, cs);
      r := Done;
    }

    /** Saving a loan's new installments under the next free ids. */
    method AddInstallments(loanId: int, cs: seq<Installment>)
      requires Valid() && loanId in loans
      requires forall i :: 0 <= i < |cs| ==> cs[i].loanId == loanId && cs[i].dueDate >= 1
      modifies this
      ensures Valid()
      ensures installments == old(installments) + Numbered(old(nextInstallmentId), cs)
      ensures nextInstallmentId == old(nextInstallmentId) + |cs|
      ensures clients == old(clients) && users == old(users) && loans == old(loans) && config == old(config)
      ensures nextClientId == old(nextClientId) && nextUserId == old(nextUserId) && nextLoanId == old(nextLoanId)
    {
      var added := Numbered(nextInstallmentId, cs);
      forall k | k in added
        ensures added[k].loanId == loanId && added[k].dueDate >= 1
      {
        assert added[k] == cs[k - nextInstallmentId];
      }
      installments := installments + added;
      nextInstallmentId := nextInstallmentId + |cs|;
    }

    /** The client part of `crear_prestamo`: the client with this cedula, or a new one. */
    method InsertLoanClient(cedula: string, fullName: string, phone: Option<string>, address: Option<string>, now: int)
      returns (clientId: int)
      requires Valid()
      modifies this
      ensures Valid() && clientId in clients
      ensures HasCedula(old(clients), cedula) ==>
        clientId == ClientWithCedula(old(clients), cedula) && clients == old(clients) && nextClientId == old(nextClientId)
      ensures !HasCedula(old(clients), cedula) ==>
        && clientId == old(nextClientId)
        && clients == old(clients)[clientId := Client(cedula, fullName, address, phone, now)]
        && nextClientId == old(nextClientId) + 1
      ensures users == old(users) && loans == old(loans) && installments == old(installments) && config == old(config)
      ensures nextUserId == old(nextUserId) && nextLoanId == old(nextLoanId) && nextInstallmentId == old(nextInstallmentId)
    {
      if exists id :: id in clients && clients[id].cedula == cedula {
        clientId :| clientId in clients && clients[clientId].cedula == cedula;
        assert clientId == ClientWithCedula(clients, cedula);
      } else {
        clientId := nextClientId;
        clients := clients[clientId := Client(cedula, fullName, address, phone, now)];
        nextClientId := nextClientId + 1;
      }
    }

    /** `prestamo_para_cliente` (POST): a loan for an existing client. Its installment
        generation is left empty in the source, so the loan is saved without installments. */
    method CreateLoanForClient(clientId: int, principal: real, term: int, monthlyRate: real, frequency: string,
                               collectorId: int, collectSaturday: bool, collectSunday: bool, now: int)
      returns (r: Outcome)
      requires Valid()
      modifies this
      ensures Valid()
      ensures clientId !in old(clients) ==> r == NotFound && loans == old(loans) && nextLoanId == old(nextLoanId)
      ensures clientId in old(clients) && collectorId !in old(users) ==>
        r == Rejected(UnknownCollector) && loans == old(loans) && nextLoanId == old(nextLoanId)
      ensures clientId in old(clients) && collectorId in old(users) ==>
        && r == Done
        && loans == old(loans)[old(nextLoanId) :=
             Loan(principal, monthlyRate, term, Schedule.TotalPayable(principal, monthlyRate, term),
                  frequency, now, ActiveLoan, collectSaturday, collectSunday, clientId, collectorId)]
        && nextLoanId == old(nextLoanId) + 1
      ensures clients == old(clients) && users == old(users) && installments == old(installments) && config == old(config)
      ensures nextClientId == old(nextClientId) && nextUserId == old(nextUserId) && nextInstallmentId == old(nextInstallmentId)
    {
      if clientId !in clients {
        return NotFound;
      }
      if collectorId !in users {
        return Rejected(UnknownCollector);
      }
      var total := Schedule.TotalPayable(principal, monthlyRate, term);
      loans := loans[nextLoanId := Loan(principal, monthlyRate, term, total, frequency, now, ActiveLoan,
                                        collectSaturday, collectSunday, clientId, collectorId)];
      nextLoanId := nextLoanId + 1;
      r := Done;
    }
  }
}
