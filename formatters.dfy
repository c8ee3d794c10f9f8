/** The status phrases of the certificate: the edital (court notice) line,
    the court-costs line, the "filed / not filed" milestone lines, and the
    date placeholder. */
module Formatters {
  import opened Js

  const NotInformed := "Não informado"
  const MissingId := "N/A"

  /** `formatDate`: a missing or empty date gives the placeholder; any other
      text is handed to `localDate`, which stands for the calendar parsing
      and the pt-BR formatting done by the JavaScript runtime (including its
      fallback to the raw text when parsing fails). */
  function FormatDate(raw: Option<string>, localDate: string -> string): string {
    if !Truthy(raw) then NotInformed else localDate(raw.value)
  }

  /** A procedural step or certificate: `{status, id}`. */
  datatype Milestone = Milestone(status: Option<string>, id: Option<string>)

  /** The line shown for a milestone whose "done" status word is `word`
      ("Apresentada", "Proferida", "Ocorrido", "Juntada"). */
  function MilestoneStatus(m: Milestone, word: string): string {
    if m.status == Some(word) then word + " (ID: " + Or(m.id, MissingId) + ")" else "Não " + word
  }

  /** Recovers, from a milestone line, the reference shown when it is done. */
  function ReadMilestone(s: string, word: string): Option<string> {
    var open := word + " (ID: ";
    if HasPrefix(s, open) && |s| > |open| && s[|s| - 1] == ')' then Some(s[|open|..|s| - 1]) else None
  }

  /** The milestone line tells whether the step is done, and if so which
      reference it shows ("N/A" for a missing one); the "not done" line never
      looks like a done one. */
  lemma MilestoneStatusReadsBack(m: Milestone, word: string)
    ensures ReadMilestone(MilestoneStatus(m, word), word)
         == if m.status == Some(word) then Some(Or(m.id, MissingId)) else None
  {
    var s := MilestoneStatus(m, word);
    var open := word + " (ID: ";
    if m.status == Some(word) {
      assert s == open + Or(m.id, MissingId) + ")";
      assert s[..|open|] == open;
      assert s[|open|..|s| - 1] == Or(m.id, MissingId);
    } else {
      assert |s| < |open|;
    }
  }

  // ----- getEditalStatus -----

  datatype Edital = Edital(
    determinado: Option<string>,
    status: Option<string>,
    prazoDecorrido: Option<string>,
    id: Option<string>,
    idDecursoPrazo: Option<string>)

  const NotDeterminedMsg := "Não determinada a expedição."
  const IssuancePendingMsg := "Expedição pendente."
  const IssuedOpen := "Expedido (ID: "
  const AwaitingClose := "), aguardando decurso de prazo."
  const ElapsedMiddle := "), prazo decorrido (ID: "
  const ElapsedClose := ")."

  function EditalStatus(e: Edital): string {
    if e.determinado == Some("Não") then NotDeterminedMsg
    else if e.status == Some("Não Expedido") then IssuancePendingMsg
    else if e.prazoDecorrido == Some("Não") then IssuedOpen + Or(e.id, MissingId) + AwaitingClose
    else IssuedOpen + Or(e.id, MissingId) + ElapsedMiddle + Or(e.idDecursoPrazo, MissingId) + ElapsedClose
  }

  /** Which of the four edital situations applies, with the references shown. */
  datatype EditalReading =
    | NotDetermined
    | IssuancePending
    | AwaitingTerm(issueId: string)
    | TermElapsed(issueId: string, termId: string)

  /** The edital rules in their order of priority: a "not determined"
      expedition overrides everything, then a notice not yet issued, then a
      term not yet elapsed. */
  function EditalSituation(e: Edital): EditalReading {
    var notDetermined := e.determinado == Some("Não");
    var notIssued := e.status == Some("Não Expedido");
    var termRunning := e.prazoDecorrido == Some("Não");
    if notDetermined then NotDetermined
    else if notIssued then IssuancePending
    else if termRunning then AwaitingTerm(Or(e.id, MissingId))
    else TermElapsed(Or(e.id, MissingId), Or(e.idDecursoPrazo, MissingId))
  }

  /** Reads an edital line back into the situation it reports. */
  function ReadEditalStatus(s: string): Option<EditalReading> {
    if s == NotDeterminedMsg then Some(NotDetermined)
    else if s == IssuancePendingMsg then Some(IssuancePending)
    else if HasPrefix(s, IssuedOpen) then ReadIssued(s[|IssuedOpen|..])
    else None
  }

  /** Reads the part of an "issued" edital line after `IssuedOpen`. */
  function ReadIssued(rest: string): Option<EditalReading> {
    if HasSuffix(rest, AwaitingClose) then Some(AwaitingTerm(rest[..|rest| - |AwaitingClose|]))
    else
      var k := IndexOf(rest, ')');
      var tail := rest[k..];
      if HasPrefix(tail, ElapsedMiddle) && HasSuffix(tail, ElapsedClose)
         && |ElapsedMiddle| + |ElapsedClose| <= |tail|
      then Some(TermElapsed(rest[..k], tail[|ElapsedMiddle|..|tail| - |ElapsedClose|]))
      else None
  }

  /** The four edital lines are pairwise distinguishable: each line is the
      one its rule produces, and one of them is produced exactly when the
      earlier rules do not apply and its own does. */
  lemma EditalStatusOrder(e: Edital)
    ensures EditalStatus(e) == NotDeterminedMsg <==> e.determinado == Some("Não")
    ensures EditalStatus(e) == IssuancePendingMsg
        <==> e.determinado != Some("Não") && e.status == Some("Não Expedido")
    ensures HasSuffix(EditalStatus(e), AwaitingClose)
        <==> e.determinado != Some("Não") && e.status != Some("Não Expedido") && e.prazoDecorrido == Some("Não")
    ensures HasPrefix(EditalStatus(e), IssuedOpen)
        <==> e.determinado != Some("Não") && e.status != Some("Não Expedido")
  {
    var s := EditalStatus(e);
    if e.determinado == Some("Não") {
      assert s[0] != IssuedOpen[0];
    } else if e.status == Some("Não Expedido") {
      assert s[6] != IssuedOpen[6];
    } else {
      assert s[..|IssuedOpen|] == IssuedOpen;
      assert s[6] == 'd';
      if e.prazoDecorrido != Some("Não") {
        assert s[|s| - 2] == ')';
      }
    }
  }

  /** Reading an edital line back gives the situation and the references
      the rules chose, provided the issuance reference has no ')' (which
      would make the elapsed line ambiguous). */
  lemma EditalStatusReadsBack(e: Edital)
    requires ')' !in Or(e.id, MissingId)
    ensures ReadEditalStatus(EditalStatus(e)) == Some(EditalSituation(e))
  {
    if e.determinado != Some("Não") && e.status != Some("Não Expedido") {
      var id := Or(e.id, MissingId);
      if e.prazoDecorrido == Some("Não") {
        AwaitingReadsBack(e, id);
      } else {
        ElapsedReadsBack(e, id, Or(e.idDecursoPrazo, MissingId));
      }
    }
  }

  lemma AwaitingReadsBack(e: Edital, id: string)
    requires e.determinado != Some("Não") && e.status != Some("Não Expedido") && e.prazoDecorrido == Some("Não")
    requires id == Or(e.id, MissingId)
    ensures ReadEditalStatus(EditalStatus(e)) == Some(AwaitingTerm(id))
  {
    Assoc3(IssuedOpen, id, AwaitingClose);
    ReadIssuedLine(id + AwaitingClose);
    ReadAwaiting(id);
  }

  lemma ElapsedReadsBack(e: Edital, id: string, term: string)
    requires e.determinado != Some("Não") && e.status != Some("Não Expedido") && e.prazoDecorrido != Some("Não")
    requires id == Or(e.id, MissingId) && term == Or(e.idDecursoPrazo, MissingId) && ')' !in id
    ensures ReadEditalStatus(EditalStatus(e)) == Some(TermElapsed(id, term))
  {
    Assoc5(IssuedOpen, id, ElapsedMiddle, term, ElapsedClose);
    ReadIssuedLine(id + ElapsedMiddle + term + ElapsedClose);
    ReadElapsed(id, term);
  }

  /** An "issued" line is read by `ReadIssued`. */
  lemma ReadIssuedLine(rest: string)
    ensures ReadEditalStatus(IssuedOpen + rest) == ReadIssued(rest)
  {
    var s := IssuedOpen + rest;
    assert s[0] != NotDeterminedMsg[0];
    assert |s| < |IssuancePendingMsg| || s[6] != IssuancePendingMsg[6];
    assert s[..|IssuedOpen|] == IssuedOpen;
    assert s[|IssuedOpen|..] == rest;
  }

  lemma ReadAwaiting(id: string)
    ensures ReadIssued(id + AwaitingClose) == Some(AwaitingTerm(id))
  {
    var rest := id + AwaitingClose;
    assert rest[|rest| - |AwaitingClose|..] == AwaitingClose;
    assert rest[..|rest| - |AwaitingClose|] == id;
  }

  lemma ReadElapsed(id: string, term: string)
    requires ')' !in id
    ensures ReadIssued(id + ElapsedMiddle + term + ElapsedClose) == Some(TermElapsed(id, term))
  {
    var tail := ElapsedMiddle + term + ElapsedClose;
    var rest := id + tail;
    Assoc4(id, ElapsedMiddle, term, ElapsedClose);
    IndexOfAfter(id, ')', tail);
    assert rest[|id|..] == tail && rest[..|id|] == id;
    NotAwaiting(id + ElapsedMiddle + term);
    ElapsedTail(term);
  }

  /** A line ending in ")." does not end like an awaiting line. */
  lemma NotAwaiting(x: string)
    ensures !HasSuffix(x + ElapsedClose, AwaitingClose)
  {
    var s := x + ElapsedClose;
    assert s[|s| - 2] == ')';
  }

  lemma ElapsedTail(term: string)
    ensures var tail := ElapsedMiddle + term + ElapsedClose;
      && HasPrefix(tail, ElapsedMiddle) && HasSuffix(tail, ElapsedClose)
      && |ElapsedMiddle| + |ElapsedClose| <= |tail|
      && tail[|ElapsedMiddle|..|tail| - |ElapsedClose|] == term
  {
    var tail := ElapsedMiddle + term + ElapsedClose;
    assert tail[..|ElapsedMiddle|] == ElapsedMiddle;
    assert tail[|tail| - |ElapsedClose|..] == ElapsedClose;
  }

  // ----- getCustasStatus -----

  datatype Custas = Custas(
    situacao: Option<string>,
    calculada: Option<string>,
    idCalculo: Option<string>,
    paga: Option<string>,
    idPagamento: Option<string>)

  const ExemptMsg := "Isento de custas."
  const AtEndMsg := "Custas a serem pagas ao final do processo."
  const NoSituationMsg := "Situação não informada."
  const CalculatedOpen := "Calculada (ID: "
  const CalculationPendingMsg := "Cálculo pendente"
  const PaidOpen := "Pagas (ID: "
  const PaymentPendingMsg := "Pagamento pendente"

  function CustasStatus(c: Custas): string {
    if c.situacao == Some("Isenção") then ExemptMsg
    else if c.situacao == Some("Ao final") then AtEndMsg
    else if c.situacao == Some("Devidas") then
      var calculo := if c.calculada == Some("Sim") then CalculatedOpen + Or(c.idCalculo, MissingId) + ")" else CalculationPendingMsg;
      var pagamento := if c.paga == Some("Sim") then PaidOpen + Or(c.idPagamento, MissingId) + ")" else PaymentPendingMsg;
      calculo + ", " + pagamento + "."
    else NoSituationMsg
  }

  /** The four costs situations; for costs due, the calculation and payment
      references (`None` while pending). */
  datatype CostsReading =
    | Exempt
    | PayableAtEnd
    | Due(calculation: Option<string>, payment: Option<string>)
    | NoSituation

  function CostsSituation(c: Custas): CostsReading {
    match c.situacao
    case Some("Isenção") => Exempt
    case Some("Ao final") => PayableAtEnd
    case Some("Devidas") =>
      Due(if c.calculada == Some("Sim") then Some(Or(c.idCalculo, MissingId)) else None,
          if c.paga == Some("Sim") then Some(Or(c.idPagamento, MissingId)) else None)
    case _ => NoSituation
  }

  /** Reads the payment half of a costs-due line. */
  function ReadPayment(s: string): Option<Option<string>> {
    if s == PaymentPendingMsg then Some(None)
    else if HasPrefix(s, PaidOpen) && |s| > |PaidOpen| && s[|s| - 1] == ')' then Some(Some(s[|PaidOpen|..|s| - 1]))
    else None
  }

  /** Reads a costs-due line without its final ".". */
  function ReadDue(s: string): Option<CostsReading> {
    var pendingOpen := CalculationPendingMsg + ", ";
    if HasPrefix(s, pendingOpen) then
      match ReadPayment(s[|pendingOpen|..])
      case Some(pay) => Some(Due(None, pay))
      case None => None
    else if HasPrefix(s, CalculatedOpen) then
      var rest := s[|CalculatedOpen|..];
      var k := IndexOf(rest, ')');
      if HasPrefix(rest[k..], "), ") then
        match ReadPayment(rest[k + 3..])
        case Some(pay) => Some(Due(Some(rest[..k]), pay))
        case None => None
      else None
    else None
  }

  /** Reads a costs line back into the situation it reports. */
  function ReadCustasStatus(s: string): Option<CostsReading> {
    if s == ExemptMsg then Some(Exempt)
    else if s == AtEndMsg then Some(PayableAtEnd)
    else if s == NoSituationMsg then Some(NoSituation)
    else if |s| > 0 && s[|s| - 1] == '.' then ReadDue(s[..|s| - 1])
    else None
  }

  /** Exactly four outcomes, chosen by `situacao` alone: the three fixed
      lines appear exactly for their situation value (and the fallback for
      every other value), and a costs-due line is none of them. */
  lemma CustasStatusOutcomes(c: Custas)
    ensures CustasStatus(c) == ExemptMsg <==> c.situacao == Some("Isenção")
    ensures CustasStatus(c) == AtEndMsg <==> c.situacao == Some("Ao final")
    ensures CustasStatus(c) == NoSituationMsg
        <==> c.situacao !in {Some("Isenção"), Some("Ao final"), Some("Devidas")}
  {
    var s := CustasStatus(c);
    if c.situacao == Some("Devidas") {
      assert s[0] == 'C';
      assert s[1] == 'a' || s[1] == 'á';
    }
  }

  /** Reading a costs line back gives the situation and references the rules
      chose, provided the calculation reference has no ')'. */
  lemma CustasStatusReadsBack(c: Custas)
    requires ')' !in Or(c.idCalculo, MissingId)
    ensures ReadCustasStatus(CustasStatus(c)) == Some(CostsSituation(c))
  {
    CustasStatusOutcomes(c);
    if c.situacao == Some("Devidas") {
      var calculo := if c.calculada == Some("Sim") then CalculatedOpen + Or(c.idCalculo, MissingId) + ")" else CalculationPendingMsg;
      var pagamento := if c.paga == Some("Sim") then PaidOpen + Or(c.idPagamento, MissingId) + ")" else PaymentPendingMsg;
      PaymentReadsBack(c, pagamento);
      assert CustasStatus(c) == calculo + ", " + pagamento + ".";
      DueReadsBack(calculo, pagamento, CostsSituation(c).calculation, CostsSituation(c).payment);
    }
  }

  /** A costs-due line, given how its calculation half was written. */
  lemma DueReadsBack(calculo: string, pagamento: string, calculation: Option<string>, payment: Option<string>)
    requires calculation.Some? ==> ')' !in calculation.value && calculo == CalculatedOpen + calculation.value + ")"
    requires calculation.None? ==> calculo == CalculationPendingMsg
    requires ReadPayment(pagamento) == Some(payment)
    requires var s := calculo + ", " + pagamento + "."; s != ExemptMsg && s != AtEndMsg && s != NoSituationMsg
    ensures ReadCustasStatus(calculo + ", " + pagamento + ".") == Some(Due(calculation, payment))
  {
    ReadDueLine(calculo + ", " + pagamento);
    if calculation.Some? {
      CalculatedDue(calculation.value, pagamento, payment);
    } else {
      ReadCalculationPending(pagamento);
    }
  }

  lemma CalculatedDue(id: string, pagamento: string, payment: Option<string>)
    requires ')' !in id && ReadPayment(pagamento) == Some(payment)
    ensures ReadDue(CalculatedOpen + id + ")" + ", " + pagamento) == Some(Due(Some(id), payment))
  {
    Assoc3(CalculatedOpen + id, ")", ", ");
    assert ")" + ", " == "), ";
    ReadCalculated(id, pagamento);
  }

  /** A costs-due line, cut at its final ".", is read by `ReadDue`. */
  lemma ReadDueLine(body: string)
    requires body + "." != ExemptMsg && body + "." != AtEndMsg && body + "." != NoSituationMsg
    ensures ReadCustasStatus(body + ".") == ReadDue(body)
  {
    var s := body + ".";
    assert s[|s| - 1] == '.' && s[..|s| - 1] == body;
  }

  lemma ReadCalculated(id: string, pagamento: string)
    requires ')' !in id
    ensures ReadDue(CalculatedOpen + id + "), " + pagamento)
         == match ReadPayment(pagamento) case Some(pay) => Some(Due(Some(id), pay)) case None => None
  {
    var rest := id + "), " + pagamento;
    var body := CalculatedOpen + rest;
    Assoc4(CalculatedOpen, id, "), ", pagamento);
    NotPending(rest);
    assert body[..|CalculatedOpen|] == CalculatedOpen && body[|CalculatedOpen|..] == rest;
    CalculatedRest(id, pagamento);
  }

  /** A "calculated" line does not start like a "calculation pending" one. */
  lemma NotPending(x: string)
    ensures !HasPrefix(CalculatedOpen + x, CalculationPendingMsg + ", ")
  {
    assert (CalculatedOpen + x)[1] == 'a';
  }

  /** After the calculation reference comes the first ')', then the payment. */
  lemma CalculatedRest(id: string, pagamento: string)
    requires ')' !in id
    ensures var rest := id + "), " + pagamento;
      && IndexOf(rest, ')') == |id| && rest[..|id|] == id
      && HasPrefix(rest[|id|..], "), ") && rest[|id| + 3..] == pagamento
  {
    var more := "), " + pagamento;
    var rest := id + more;
    Assoc3(id, "), ", pagamento);
    IndexOfAfter(id, ')', more);
    assert rest[|id|..] == more && rest[..|id|] == id;
    assert more[..3] == "), " && more[3..] == pagamento;
  }

  lemma ReadCalculationPending(pagamento: string)
    ensures ReadDue(CalculationPendingMsg + ", " + pagamento)
         == match ReadPayment(pagamento) case Some(pay) => Some(Due(None, pay)) case None => None
  {
    var body := CalculationPendingMsg + ", " + pagamento;
    assert body[..|CalculationPendingMsg + ", "|] == CalculationPendingMsg + ", ";
    assert body[|CalculationPendingMsg + ", "|..] == pagamento;
  }

  lemma PaymentReadsBack(c: Custas, pagamento: string)
    requires pagamento == if c.paga == Some("Sim") then PaidOpen + Or(c.idPagamento, MissingId) + ")" else PaymentPendingMsg
    ensures ReadPayment(pagamento) == Some(if c.paga == Some("Sim") then Some(Or(c.idPagamento, MissingId)) else None)
  {
    if c.paga == Some("Sim") {
      assert pagamento[..|PaidOpen|] == PaidOpen;
      assert pagamento[|PaidOpen|..|pagamento| - 1] == Or(c.idPagamento, MissingId);
      assert pagamento != PaymentPendingMsg by {
        assert pagamento[1] == 'a' && pagamento[4] == 's';
      }
    }
  }
}
