/** The daily reminder job (`enviar_recordatorios` in scheduler.py): for every installment still
    `pendiente` that fell due yesterday, fill the configured WhatsApp template and send it to the
    client's phone; a delivered reminder marks the installment `atrasada`. The clock's date and
    the outcome of each send are parameters: `delivered` holds the installments whose send went
    through (a send that raises is caught and leaves its installment as it was). */
module Reminders {
  import opened Entities
  import opened Text
  import opened Money
  import opened Calendar
  import opened Store

  /** One outgoing WhatsApp message: the number dialled and the text. */
  datatype Send = Send(phone: string, message: string)

  const ClientPlaceholder: string := "[cliente]"
  const AmountPlaceholder: string := "[monto_cuota]"
  const DuePlaceholder: string := "[fecha_vencimiento]"

  /** The installments the job looks at: `pendiente` and due exactly the day before `today`. */
  function Selected(cs: map<int, Installment>, today: int): set<int> {
    set id | id in cs && cs[id].state == Pendiente && cs[id].dueDate == today - 1
  }

  /** The template the job uses: present only when the entry exists and its text is not empty. */
  function TemplateOf(config: map<string, Option<string>>): (t: Option<string>)
    ensures t.Some? <==> TemplateKey in config && IsFilled(config[TemplateKey])
    ensures t.Some? ==> t == config[TemplateKey]
  {
    if TemplateKey in config && IsFilled(config[TemplateKey]) then config[TemplateKey] else None
  }

  /** Every installment reaches its client through its loan, and falls on a calendar day. */
  predicate Linked(clients: map<int, Client>, loans: map<int, Loan>, cs: map<int, Installment>) {
    forall id :: id in cs ==>
      cs[id].loanId in loans && loans[cs[id].loanId].clientId in clients && cs[id].dueDate >= 1
  }

  function ClientOf(clients: map<int, Client>, loans: map<int, Loan>, cs: map<int, Installment>, id: int): Client
    requires Linked(clients, loans, cs) && id in cs
  {
    clients[loans[cs[id].loanId].clientId]
  }

  /** The message text: the three placeholders replaced in turn, each in the text the previous
      replacement produced. */
  function Render(template: string, name: string, amount: real, due: int): string
    requires due >= 1
  {
    var m1 := Replace(template, ClientPlaceholder, name);
    var m2 := Replace(m1, AmountPlaceholder, IntToString(Truncate(amount)));
    Replace(m2, DuePlaceholder, FormatDayMonthYear(due))
  }

  function Compose(template: string, client: Client, c: Installment): Send
    requires IsFilled(client.phone) && c.dueDate >= 1
  {
    Send("+" + client.phone.value, Render(template, client.fullName, c.amount, c.dueDate))
  }

  /** No installment id appears twice in the query's rows. */
  predicate Distinct(rows: seq<int>) {
    forall i, j :: 0 <= i < j < |rows| ==> rows[i] != rows[j]
  }

  /** A row of a list without repetitions is not among the rows before it. */
  lemma DistinctRow(rows: seq<int>, i: int)
    requires Distinct(rows) && 0 <= i < |rows|
    ensures rows[i] in rows && rows[i] !in rows[..i]
  {
  }

  /** The job's query for installments still pending that fell due yesterday, as a scan of the
      table in id order: the ids of the installments selected for `today`, each once. */
  method QueryDue(cs: map<int, Installment>, nextId: int, today: int) returns (rows: seq<int>)
    requires IdsBelow(cs, nextId)
    ensures forall id :: id in rows <==> id in Selected(cs, today)
    ensures Distinct(rows)
  {
    rows := [];
    var id := 1;
    while id < nextId
      invariant 1 <= id <= nextId
      invariant forall k :: k in rows <==> k in Selected(cs, today) && k < id
      invariant Distinct(rows)
    {
      if id in cs && cs[id].state == Pendiente && cs[id].dueDate == today - 1 {
        assert forall i :: 0 <= i < |rows| ==> rows[i] in rows;
        rows := rows + [id];
      }
      id := id + 1;
    }
  }

  /** The messages of one run over `rows` with template `template`: one per row whose client has
      a phone, keyed by installment id. */
  function Messages(template: string, clients: map<int, Client>, loans: map<int, Loan>,
                    cs: map<int, Installment>, rows: seq<int>): map<int, Send>
    requires Linked(clients, loans, cs)
    decreases |rows|
  {
    if rows == [] then map[]
    else
      var before := Messages(template, clients, loans, cs, rows[..|rows| - 1]);
      var id := rows[|rows| - 1];
      if id in cs && IsFilled(ClientOf(clients, loans, cs, id).phone)
      then before[id := Compose(template, ClientOf(clients, loans, cs, id), cs[id])]
      else before
  }

  /** One more row adds its message, if its client has a phone. */
  lemma MessagesAppend(template: string, clients: map<int, Client>, loans: map<int, Loan>,
                       cs: map<int, Installment>, rows: seq<int>, id: int)
    requires Linked(clients, loans, cs) && id in cs
    ensures var client := ClientOf(clients, loans, cs, id);
      Messages(template, clients, loans, cs, rows + [id])
      == if IsFilled(client.phone)
         then Messages(template, clients, loans, cs, rows)[id := Compose(template, client, cs[id])]
         else Messages(template, clients, loans, cs, rows)
  {
    assert (rows + [id])[..|rows|] == rows;
  }

  /** What one run sends: nothing without a usable template, otherwise the messages for the
      selected rows. */
  function Outbox(template: Option<string>, clients: map<int, Client>, loans: map<int, Loan>,
                  cs: map<int, Installment>, rows: seq<int>): map<int, Send>
    requires Linked(clients, loans, cs)
  {
    if template.None? then map[] else Messages(template.value, clients, loans, cs, rows)
  }

  /** A message goes out for exactly the rows whose client has a phone. */
  lemma {:induction false} MessagesKeys(template: string, clients: map<int, Client>, loans: map<int, Loan>,
                                        cs: map<int, Installment>, rows: seq<int>, id: int)
    requires Linked(clients, loans, cs)
    ensures id in Messages(template, clients, loans, cs, rows)
        <==> id in rows && id in cs && IsFilled(ClientOf(clients, loans, cs, id).phone)
    decreases |rows|
  {
    if rows != [] {
      var front, last := rows[..|rows| - 1], rows[|rows| - 1];
      MessagesKeys(template, clients, loans, cs, front, id);
      assert id in rows <==> id in front || id == last by {
        assert rows == front + [last];
      }
    }
  }

  /** Each message is addressed to the client's phone and has the template filled in for that
      client and installment. */
  lemma {:induction false} MessagesValues(template: string, clients: map<int, Client>, loans: map<int, Loan>,
                                          cs: map<int, Installment>, rows: seq<int>, id: int)
    requires Linked(clients, loans, cs)
    requires id in Messages(template, clients, loans, cs, rows)
    ensures id in cs && IsFilled(ClientOf(clients, loans, cs, id).phone)
    ensures Messages(template, clients, loans, cs, rows)[id] == Compose(template, ClientOf(clients, loans, cs, id), cs[id])
    decreases |rows|
  {
    var front, last := rows[..|rows| - 1], rows[|rows| - 1];
    if id != last || !(last in cs && IsFilled(ClientOf(clients, loans, cs, last).phone)) {
      MessagesValues(template, clients, loans, cs, front, id);
    }
  }

  /** The outbox is empty without a template; with one, it holds a message for each selected
      row whose client has a phone, saying what `Render` makes of the template, and nothing else. */
  lemma OutboxContents(template: Option<string>, clients: map<int, Client>, loans: map<int, Loan>,
                       cs: map<int, Installment>, rows: seq<int>, id: int)
    requires Linked(clients, loans, cs)
    ensures var out := Outbox(template, clients, loans, cs, rows);
      && (template.None? ==> out == map[])
      && (id in out <==> template.Some? && id in rows && id in cs && IsFilled(ClientOf(clients, loans, cs, id).phone))
      && (id in out ==>
            && out[id].phone == "+" + ClientOf(clients, loans, cs, id).phone.value
            && out[id].message == Render(template.value, ClientOf(clients, loans, cs, id).fullName,
                                         cs[id].amount, cs[id].dueDate))
  {
    if template.Some? {
      MessagesKeys(template.value, clients, loans, cs, rows, id);
      if id in Messages(template.value, clients, loans, cs, rows) {
        MessagesValues(template.value, clients, loans, cs, rows, id);
      }
    }
  }

  /** The installments whose message went out and was delivered. */
  function Delivered(out: map<int, Send>, delivered: set<int>): set<int> {
    out.Keys * delivered
  }

  /** The given installments become `atrasada`; every other one is left as it was. */
  function MarkLate(cs: map<int, Installment>, ids: set<int>): (r: map<int, Installment>)
    ensures r.Keys == cs.Keys
    ensures forall k :: k in cs && k in ids ==> r[k] == cs[k].(state := Atrasada)
    ensures forall k :: k in cs && k !in ids ==> r[k] == cs[k]
  {
    map k | k in cs :: if k in ids then cs[k].(state := Atrasada) else cs[k]
  }

  lemma MarkLateStep(cs: map<int, Installment>, sent: map<int, Send>, id: int, s: Send, delivered: set<int>)
    requires id in cs && id !in sent
    ensures id in delivered ==>
      MarkLate(cs, Delivered(sent[id := s], delivered))
      == MarkLate(cs, Delivered(sent, delivered))[id := cs[id].(state := Atrasada)]
    ensures id !in delivered ==>
      MarkLate(cs, Delivered(sent[id := s], delivered)) == MarkLate(cs, Delivered(sent, delivered))
  {
    assert id in delivered ==> Delivered(sent[id := s], delivered) == Delivered(sent, delivered) + {id};
    assert id !in delivered ==> Delivered(sent[id := s], delivered) == Delivered(sent, delivered);
  }

  /** The effect of one run on a single installment: it becomes `atrasada` exactly when a
      template is configured, it was selected, its client has a phone and the message was
      delivered; in every other case, including every installment outside the selection, it
      stays as it was. */
  lemma RunEffect(template: Option<string>, clients: map<int, Client>, loans: map<int, Loan>,
                  cs: map<int, Installment>, rows: seq<int>, today: int, delivered: set<int>, k: int)
    requires Linked(clients, loans, cs)
    requires forall id :: id in rows <==> id in Selected(cs, today)
    requires k in cs
    ensures var after := MarkLate(cs, Delivered(Outbox(template, clients, loans, cs, rows), delivered));
      var notified := && template.Some? && k in Selected(cs, today)
                      && IsFilled(ClientOf(clients, loans, cs, k).phone) && k in delivered;
      && (notified ==> after[k] == cs[k].(state := Atrasada))
      && (!notified ==> after[k] == cs[k])
  {
    OutboxContents(template, clients, loans, cs, rows, k);
  }

  /** A second run on the same day finds only the installments the first run did not mark:
      a delivered reminder is never sent twice. */
  lemma SecondRunSkipsMarked(cs: map<int, Installment>, ids: set<int>, today: int)
    ensures Selected(MarkLate(cs, ids), today) == Selected(cs, today) - ids
  {
    var after := MarkLate(cs, ids);
    forall id | id in Selected(after, today)
      ensures id in Selected(cs, today) - ids
    {
      assert after[id].state == Pendiente;
    }
  }

  /** A template without any of the three placeholders is sent as it is. */
  lemma TemplateWithoutPlaceholders(template: string, name: string, amount: real, due: int)
    requires due >= 1
    requires !Occurs(template, ClientPlaceholder) && !Occurs(template, AmountPlaceholder)
    requires !Occurs(template, DuePlaceholder)
    ensures Render(template, name, amount, due) == template
  {
    ReplaceAbsent(template, ClientPlaceholder, name);
    ReplaceAbsent(template, AmountPlaceholder, IntToString(Truncate(amount)));
    ReplaceAbsent(template, DuePlaceholder, FormatDayMonthYear(due));
  }

  /** The replacements run in turn over the text so far, so a placeholder that the client's name
      brings into the message is itself replaced: a name reading `[monto_cuota]` comes out as the
      amount, and the amount is cut to its integer part. */
  lemma NameIsRewrittenToo(due: int)
    requires due >= 1
    ensures Render(ClientPlaceholder, AmountPlaceholder, 7.9, due) == "7"
  {
    assert Replace(ClientPlaceholder, ClientPlaceholder, AmountPlaceholder) == AmountPlaceholder;
    assert Truncate(7.9) == 7;
    assert Replace(AmountPlaceholder, AmountPlaceholder, "7") == "7";
  }

  /** The message built the way the job builds it, one replacement after another. */
  method RenderMessage(plantilla: string, name: string, amount: real, due: int) returns (mensaje: string)
    requires due >= 1
    ensures mensaje == Render(plantilla, name, amount, due)
  {
    mensaje := Replace(plantilla, ClientPlaceholder, name);
    mensaje := Replace(mensaje, AmountPlaceholder, IntToString(Truncate(amount)));
    mensaje := Replace(mensaje, DuePlaceholder, FormatDayMonthYear(due));
  }

  /** One run of the job over the store: `rows` is what the query returned, `sent` what was sent. */
  method SendReminders(db: Database, today: int, delivered: set<int>) returns (rows: seq<int>, sent: map<int, Send>)
    requires db.Valid()
    modifies db`installments
    ensures db.Valid()
    ensures (forall id :: id in rows <==> id in Selected(old(db.installments), today)) && Distinct(rows)
    ensures sent == Outbox(TemplateOf(db.config), db.clients, db.loans, old(db.installments), rows)
    ensures db.installments == MarkLate(old(db.installments), Delivered(sent, delivered))
  {
    assert Linked(db.clients, db.loans, db.installments);
    rows := QueryDue(db.installments, db.nextInstallmentId, today);
    if rows != [] && TemplateKey in db.config && IsFilled(db.config[TemplateKey]) {
      var plantilla := db.config[TemplateKey].value;
      sent := NotifyEach(db, rows, plantilla, delivered);
    } else {
      sent := map[];
      assert Delivered(sent, delivered) == {};
      assert MarkLate(db.installments, {}) == db.installments;
    }
  }

  /** The loop over the rows: a message to each client with a phone, and the installment marked
      `atrasada` (and committed) when that message was delivered. */
  method NotifyEach(db: Database, rows: seq<int>, plantilla: string, delivered: set<int>)
    returns (sent: map<int, Send>)
    requires Linked(db.clients, db.loans, db.installments)
    requires (forall id :: id in rows ==> id in db.installments) && Distinct(rows)
    modifies db`installments
    ensures sent == Messages(plantilla, db.clients, db.loans, old(db.installments), rows)
    ensures db.installments == MarkLate(old(db.installments), Delivered(sent, delivered))
  {
    ghost var cs0 := db.installments;
    var clients, loans := db.clients, db.loans;
    sent := map[];
    assert Delivered(sent, delivered) == {};
    assert MarkLate(cs0, {}) == cs0;
    var i := 0;
    while i < |rows|
      invariant 0 <= i <= |rows|
      invariant sent == Messages(plantilla, clients, loans, cs0, rows[..i])
      invariant db.installments == MarkLate(cs0, Delivered(sent, delivered))
    {
      DistinctRow(rows, i);
      var cuotas;
      sent, cuotas := NotifyOne(clients, loans, cs0, rows[..i], rows[i], plantilla, delivered, sent, db.installments);
      db.installments := cuotas;
      assert rows[..i + 1] == rows[..i] + [rows[i]];
      i := i + 1;
    }
    assert rows[..|rows|] == rows;
  }

  /** One turn of the loop over `cuotas`, the installments as committed so far: the message for
      installment `id`, if its client has a phone, and the installment marked `atrasada` if that
      message was delivered. `done` are the rows handled in earlier turns. */
  method NotifyOne(clients: map<int, Client>, loans: map<int, Loan>, ghost cs0: map<int, Installment>,
                   ghost done: seq<int>, id: int, plantilla: string, delivered: set<int>,
                   sent: map<int, Send>, cuotas: map<int, Installment>)
    returns (sent': map<int, Send>, cuotas': map<int, Installment>)
    requires Linked(clients, loans, cs0) && id in cs0 && id !in done
    requires sent == Messages(plantilla, clients, loans, cs0, done)
    requires cuotas == MarkLate(cs0, Delivered(sent, delivered))
    ensures sent' == Messages(plantilla, clients, loans, cs0, done + [id])
    ensures cuotas' == MarkLate(cs0, Delivered(sent', delivered))
  {
    MessagesKeys(plantilla, clients, loans, cs0, done, id);
    MessagesAppend(plantilla, clients, loans, cs0, done, id);
    var cuota := cuotas[id];
    var client := clients[loans[cuota.loanId].clientId];
    sent', cuotas' := sent, cuotas;
    if IsFilled(client.phone) {
      var mensaje := RenderMessage(plantilla, client.fullName, cuota.amount, cuota.dueDate);
      var s := Send("+" + client.phone.value, mensaje);
      MarkLateStep(cs0, sent, id, s, delivered);
      sent' := sent[id := s];
      if id in delivered {
        cuotas' := cuotas[id := cuota.(state := Atrasada)];
      }
    }
  }
}
