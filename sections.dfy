/** The sections of the certificate, in the order the template writes
    them. Each optional section is guarded by the condition the template
    tests; each list is rendered item by item and joined. */
module Sections {
  import opened Js
  import opened Formatters
  import opened Markup
  import opened HeirTree
  import opened CaseData

  // ----- Pendencies -----

  const PendenciesComment := "Seção de Pendências"
  const PendenciesTitle := "<i data-lucide=\"alert-triangle\"></i>" + " PENDÊNCIAS"

  function PendencyItem(p: string): string {
    "<li>" + p + "</li>"
  }

  const PendenciesOpen :=
    Line(16, Div("preview-section pendencies-section")) + Line(18, Heading(PendenciesTitle))
    + Line(18, Div("preview-card")) + Line(20, "<ul class=" + "\"pendencies-list\">")

  const PendenciesClose := Line(20, "</ul>") + Line(18, EndDiv) + PanelClose

  function PendenciesSection(pendencies: seq<string>): string {
    Optional(PendenciesComment, |pendencies| > 0,
      PendenciesOpen + Line(22, JoinMap(pendencies, PendencyItem)) + PendenciesClose)
  }
  /** The pendencies panel is written exactly when there are pendencies:
      then it shows its heading and every pendency as a list item; with no
      pendency only the section's comment is written. */
  lemma PendenciesListed(pendencies: seq<string>)
    ensures forall k :: 0 <= k < |pendencies| ==> Contains(PendenciesSection(pendencies), PendencyItem(pendencies[k]))
    ensures |pendencies| == 0 ==> PendenciesSection(pendencies) == Hidden(PendenciesComment)
    ensures |pendencies| > 0 ==> Contains(PendenciesSection(pendencies), Heading(PendenciesTitle))
  {
    var shown := |pendencies| > 0;
    var list := Line(22, JoinMap(pendencies, PendencyItem));
    var panel := PendenciesOpen + list + PendenciesClose;
    OptionalLayout(PendenciesComment, shown, panel);
    if shown {
      var a := Line(16, Div("preview-section pendencies-section"));
      var b := Line(18, Heading(PendenciesTitle));
      LineShows(18, Heading(PendenciesTitle));
      Pieces4(a, b, Line(18, Div("preview-card")), Line(20, "<ul class=" + "\"pendencies-list\">"));
      ContainsTrans(PendenciesOpen, b, Heading(PendenciesTitle));
      Pieces3(PendenciesOpen, list, PendenciesClose);
      ContainsTrans(panel, PendenciesOpen, Heading(PendenciesTitle));
      ShownIn(PendenciesComment, shown, panel, Heading(PendenciesTitle));
    }
    forall k | 0 <= k < |pendencies|
      ensures Contains(PendenciesSection(pendencies), PendencyItem(pendencies[k]))
    {
      ItemOnLine(22, pendencies, PendencyItem, k);
      ContainsIn3(PendenciesOpen, list, PendenciesClose, PendencyItem(pendencies[k]));
      ShownIn(PendenciesComment, shown, panel, PendencyItem(pendencies[k]));
    }
  }

  /** The pendencies are listed in the order they are given. */
  lemma PendenciesInOrder(pendencies: seq<string>)
    ensures forall i, j :: 0 <= i < j < |pendencies| ==>
      Before(PendenciesSection(pendencies), PendencyItem(pendencies[i]), PendencyItem(pendencies[j]))
  {
    var panel := PendenciesOpen + Line(22, JoinMap(pendencies, PendencyItem)) + PendenciesClose;
    ItemsBetweenInOrder(PendenciesOpen, 22, pendencies, PendencyItem, PendenciesClose);
    forall i, j | 0 <= i < j < |pendencies|
      ensures Before(PendenciesSection(pendencies), PendencyItem(pendencies[i]), PendencyItem(pendencies[j]))
    {
      BeforePrepend(Hidden(PendenciesComment), panel, PendencyItem(pendencies[i]), PendencyItem(pendencies[j]));
    }
  }


  // ----- Section 1: the process -----

  const ProcessComment := "Seção 1: Dados do Processo"
  const ProcessTitle := "1. Dados do Processo"
  const CumulativeLine := Tight("Tipo:", "Inventário Cumulativo")

  function ProcessCard(p: Process): string {
    Line(18, Div("preview-card"))
    + Line(20, Tight("Número do Processo:", Show(p.numero)))
    + Line(20, if p.cumulativo then CumulativeLine else "")
    + Line(18, EndDiv)
  }

  /** The process card shows the process number, and the type line of a
      cumulative inventory. */
  lemma ProcessCardShows(p: Process)
    ensures Contains(ProcessCard(p), Tight("Número do Processo:", Show(p.numero)))
    ensures p.cumulativo ==> Contains(ProcessCard(p), CumulativeLine)
  {
    var number := Tight("Número do Processo:", Show(p.numero));
    var kind := if p.cumulativo then CumulativeLine else "";
    Pieces4(Line(18, Div("preview-card")), Line(20, number), Line(20, kind), Line(18, EndDiv));
    LineShows(20, number);
    LineShows(20, kind);
    ContainsTrans(ProcessCard(p), Line(20, number), number);
    ContainsTrans(ProcessCard(p), Line(20, kind), kind);
  }

  function ProcessSection(p: Process): string {
    Optional(ProcessComment, Truthy(p.numero), Panel(ProcessTitle, ProcessCard(p)))
  }
  /** Section 1 is written exactly when the process number is set: then it
      shows the number, and the "cumulative inventory" type line when the
      process is cumulative. */
  lemma ProcessShown(p: Process)
    ensures !Truthy(p.numero) ==> ProcessSection(p) == Hidden(ProcessComment)
    ensures Truthy(p.numero) ==> Contains(ProcessSection(p), Heading(ProcessTitle))
    ensures Truthy(p.numero) ==> Contains(ProcessSection(p), Tight("Número do Processo:", p.numero.value))
    ensures Truthy(p.numero) && p.cumulativo ==> Contains(ProcessSection(p), CumulativeLine)
  {
    PanelLayout(ProcessComment, Truthy(p.numero), ProcessTitle, ProcessCard(p));
    ProcessCardShows(p);
  }


  // ----- Section 2: the deceased -----

  const DeceasedComment := "Seção 2: Falecidos"
  const DeceasedTitle := "2. De Cujus (Falecido/a/s)"

  function DeceasedCard(f: Deceased, localDate: string -> string): string {
    ItemCard(
      Line(22, Tight("Nome:", Or(f.nome, NotInformed)))
      + Line(22, Tight("Data do Falecimento:", FormatDate(f.dataFalecimento, localDate)))
      + Line(22, Tight("Certidão de Óbito (ID):", Or(f.idCertidaoObito, NotInformed))))
  }

  function DeceasedRenderer(localDate: string -> string): Deceased -> string {
    f => DeceasedCard(f, localDate)
  }

  function DeceasedSection(falecidos: seq<Deceased>, localDate: string -> string): string {
    Optional(DeceasedComment, |falecidos| > 0,
      Panel(DeceasedTitle, Line(18, JoinMap(falecidos, DeceasedRenderer(localDate)))))
  }
  /** A deceased person's card shows the name, the formatted date of death
      (the placeholder when the date is missing) and the death certificate,
      each defaulting to "not informed". */
  lemma DeceasedCardShows(f: Deceased, localDate: string -> string)
    ensures Contains(DeceasedCard(f, localDate), Tight("Nome:", Or(f.nome, NotInformed)))
    ensures Contains(DeceasedCard(f, localDate),
      Tight("Data do Falecimento:", FormatDate(f.dataFalecimento, localDate)))
    ensures Contains(DeceasedCard(f, localDate), Tight("Certidão de Óbito (ID):", Or(f.idCertidaoObito, NotInformed)))
  {
    CardOfThree(22, Tight("Nome:", Or(f.nome, NotInformed)),
      Tight("Data do Falecimento:", FormatDate(f.dataFalecimento, localDate)),
      Tight("Certidão de Óbito (ID):", Or(f.idCertidaoObito, NotInformed)));
  }

  /** Section 2 is written exactly when there are deceased persons, and then
      holds every one's card. */
  lemma DeceasedListed(falecidos: seq<Deceased>, localDate: string -> string)
    ensures forall k :: 0 <= k < |falecidos| ==>
      Contains(DeceasedSection(falecidos, localDate), DeceasedCard(falecidos[k], localDate))
    ensures |falecidos| == 0 ==> DeceasedSection(falecidos, localDate) == Hidden(DeceasedComment)
    ensures |falecidos| > 0 ==> Contains(DeceasedSection(falecidos, localDate), Heading(DeceasedTitle))
  {
    var content := Line(18, JoinMap(falecidos, DeceasedRenderer(localDate)));
    PanelLayout(DeceasedComment, |falecidos| > 0, DeceasedTitle, content);
    PanelItems(DeceasedComment, |falecidos| > 0, DeceasedTitle, 18, falecidos, DeceasedRenderer(localDate));
  }

  /** The deceased persons' cards follow the order of the list. */
  lemma DeceasedInOrder(falecidos: seq<Deceased>, localDate: string -> string)
    ensures forall i, j :: 0 <= i < j < |falecidos| ==>
      Before(DeceasedSection(falecidos, localDate),
        DeceasedCard(falecidos[i], localDate), DeceasedCard(falecidos[j], localDate))
  {
    PanelItemsInOrder(DeceasedComment, |falecidos| > 0, DeceasedTitle, 18, falecidos, DeceasedRenderer(localDate));
  }


  // ----- Section 3: the administrator -----

  const AdministratorComment := "Seção 3: Inventariante"
  const AdministratorTitle := "3. Inventariante"

  /** The power-of-attorney box of the administrator and of an assignee. */
  function PowerOfAttorney(id: Option<string>): string {
    if Truthy(id) then Div("info-procuracao") + Tight("Procuração (ID):", id.value) + EndDiv else ""
  }

  lemma PowerOfAttorneyShows(id: Option<string>)
    ensures Truthy(id) ==> Contains(PowerOfAttorney(id), Tight("Procuração (ID):", Show(id)))
    ensures !Truthy(id) ==> PowerOfAttorney(id) == ""
  {
    if Truthy(id) {
      ContainsMiddle(Div("info-procuracao"), Tight("Procuração (ID):", Show(id)), EndDiv);
    }
  }

  function AdministratorCard(a: Administrator): string {
    Line(18, Div("preview-card"))
    + Line(20, Tight("Nome:", Show(a.nome)))
    + Line(20, Tight("Parentesco:", Or(a.parentesco, NotInformed)))
    + Line(20, Tight("Termo de Compromisso (ID):", Or(a.idTermoCompromisso, NotInformed)))
    + Line(20, PowerOfAttorney(a.idProcuracao))
    + Line(18, EndDiv)
  }

  /** The administrator's card shows the name, the kinship and the
      commitment term, and the power of attorney when there is one. */
  lemma AdministratorCardShows(a: Administrator)
    ensures Contains(AdministratorCard(a), Tight("Nome:", Show(a.nome)))
    ensures Contains(AdministratorCard(a), Tight("Parentesco:", Or(a.parentesco, NotInformed)))
    ensures Contains(AdministratorCard(a), Tight("Termo de Compromisso (ID):", Or(a.idTermoCompromisso, NotInformed)))
    ensures Truthy(a.idProcuracao) ==> Contains(AdministratorCard(a), Tight("Procuração (ID):", Show(a.idProcuracao)))
  {
    var card := AdministratorCard(a);
    var name := Tight("Nome:", Show(a.nome));
    var kinship := Tight("Parentesco:", Or(a.parentesco, NotInformed));
    var term := Tight("Termo de Compromisso (ID):", Or(a.idTermoCompromisso, NotInformed));
    var power := PowerOfAttorney(a.idProcuracao);
    Pieces6(Line(18, Div("preview-card")), Line(20, name), Line(20, kinship), Line(20, term), Line(20, power), Line(18, EndDiv));
    LineShows(20, name);
    LineShows(20, kinship);
    LineShows(20, term);
    LineShows(20, power);
    ContainsTrans(card, Line(20, name), name);
    ContainsTrans(card, Line(20, kinship), kinship);
    ContainsTrans(card, Line(20, term), term);
    PowerOfAttorneyShows(a.idProcuracao);
    ContainsTrans(card, Line(20, power), power);
    if Truthy(a.idProcuracao) {
      ContainsTrans(card, power, Tight("Procuração (ID):", Show(a.idProcuracao)));
    }
  }

  function AdministratorSection(a: Administrator): string {
    Optional(AdministratorComment, Truthy(a.nome), Panel(AdministratorTitle, AdministratorCard(a)))
  }
  /** Section 3 is written exactly when the administrator has a name: then
      it shows the name, the kinship and the commitment term (each missing
      one as "not informed"), and the power of attorney when there is one. */
  lemma AdministratorShown(a: Administrator)
    ensures !Truthy(a.nome) ==> AdministratorSection(a) == Hidden(AdministratorComment)
    ensures Truthy(a.nome) ==> Contains(AdministratorSection(a), Heading(AdministratorTitle))
    ensures Truthy(a.nome) ==> Contains(AdministratorSection(a), Tight("Nome:", Show(a.nome)))
    ensures Truthy(a.nome) ==> Contains(AdministratorSection(a), Tight("Parentesco:", Or(a.parentesco, NotInformed)))
    ensures Truthy(a.nome) ==>
      Contains(AdministratorSection(a), Tight("Termo de Compromisso (ID):", Or(a.idTermoCompromisso, NotInformed)))
    ensures Truthy(a.nome) && Truthy(a.idProcuracao) ==>
      Contains(AdministratorSection(a), Tight("Procuração (ID):", Show(a.idProcuracao)))
  {
    PanelLayout(AdministratorComment, Truthy(a.nome), AdministratorTitle, AdministratorCard(a));
    AdministratorCardShows(a);
  }


  // ----- Section 4: the heirs -----

  const HeirsComment := "Seção 4: Herdeiros"
  const HeirsTitle := "4. Herdeiros e Sucessores"

  function HeirsSection(herdeiros: seq<Heir>): string
    requires AllRenderable(herdeiros)
  {
    Optional(HeirsComment, |herdeiros| > 0, Panel(HeirsTitle, Line(18, HeirsHtml(herdeiros, 0))))
  }
  /** Section 4 is written exactly when there are heirs, and then holds the
      card of every heir and successor the rendering walk opens, each at its
      own nesting level. */
  lemma HeirsShown(herdeiros: seq<Heir>)
    requires AllRenderable(herdeiros)
    ensures forall j :: 0 <= j < |Walk(herdeiros, 0)| && Walk(herdeiros, 0)[j].Enter? ==>
      Renderable(Walk(herdeiros, 0)[j].heir)
      && Contains(HeirsSection(herdeiros), CardHead(Walk(herdeiros, 0)[j].heir, Walk(herdeiros, 0)[j].level))
    ensures |herdeiros| == 0 ==> HeirsSection(herdeiros) == Hidden(HeirsComment)
    ensures |herdeiros| > 0 ==> Contains(HeirsSection(herdeiros), Heading(HeirsTitle))
  {
    var content := Line(18, HeirsHtml(herdeiros, 0));
    PanelLayout(HeirsComment, |herdeiros| > 0, HeirsTitle, content);
    forall j | 0 <= j < |Walk(herdeiros, 0)| && Walk(herdeiros, 0)[j].Enter?
      ensures Renderable(Walk(herdeiros, 0)[j].heir)
      ensures Contains(HeirsSection(herdeiros), CardHead(Walk(herdeiros, 0)[j].heir, Walk(herdeiros, 0)[j].level))
    {
      var e := Walk(herdeiros, 0)[j];
      WalkSplit(herdeiros, 0, j);
      CardIsWritten(herdeiros, 0, j);
      LineShows(18, HeirsHtml(herdeiros, 0));
      ContainsTrans(content, HeirsHtml(herdeiros, 0), CardHead(e.heir, e.level));
    }
  }

  /** Section 4 writes the heirs' cards in the order of the list. */
  lemma HeirsInOrder(herdeiros: seq<Heir>)
    requires AllRenderable(herdeiros)
    ensures forall i, j :: 0 <= i < j < |herdeiros| ==>
      Before(HeirsSection(herdeiros), Card(herdeiros[i], 0), Card(herdeiros[j], 0))
  {
    forall i, j | 0 <= i < j < |herdeiros|
      ensures Before(HeirsSection(herdeiros), Card(herdeiros[i], 0), Card(herdeiros[j], 0))
    {
      HeirPairInOrder(herdeiros, i, j);
    }
  }

  lemma HeirPairInOrder(herdeiros: seq<Heir>, i: nat, j: nat)
    requires AllRenderable(herdeiros) && i < j < |herdeiros|
    ensures Before(HeirsSection(herdeiros), Card(herdeiros[i], 0), Card(herdeiros[j], 0))
  {
    CardsInOrder(herdeiros, 0, i, j);
    HeirsSectionKeepsOrder(herdeiros, Card(herdeiros[i], 0), Card(herdeiros[j], 0));
  }

  lemma HeirsSectionKeepsOrder(herdeiros: seq<Heir>, t: string, u: string)
    requires AllRenderable(herdeiros) && |herdeiros| > 0
    requires Before(HeirsHtml(herdeiros, 0), t, u)
    ensures Before(HeirsSection(herdeiros), t, u)
  {
    LineContentInOrder(HeirsComment, |herdeiros| > 0, HeirsTitle, 18, HeirsHtml(herdeiros, 0), t, u);
  }

  /** `doc` holds the card of every heir the renderer visits. */
  ghost predicate EveryHeirCardIn(doc: string, herdeiros: seq<Heir>) {
    forall j :: 0 <= j < |Walk(herdeiros, 0)| && Walk(herdeiros, 0)[j].Enter? ==>
      Renderable(Walk(herdeiros, 0)[j].heir)
      && Contains(doc, CardHead(Walk(herdeiros, 0)[j].heir, Walk(herdeiros, 0)[j].level))
  }

  /** Whatever text holds the heirs section holds every heir's card. */
  lemma HeirCardsIn(doc: string, herdeiros: seq<Heir>)
    requires AllRenderable(herdeiros)
    requires Contains(doc, HeirsSection(herdeiros))
    ensures EveryHeirCardIn(doc, herdeiros)
  {
    HeirsShown(herdeiros);
    EveryHeirCardTrans(doc, HeirsSection(herdeiros), herdeiros);
  }

  lemma EveryHeirCardTrans(doc: string, part: string, herdeiros: seq<Heir>)
    requires EveryHeirCardIn(part, herdeiros)
    requires Contains(doc, part)
    ensures EveryHeirCardIn(doc, herdeiros)
  {
    forall j | 0 <= j < |Walk(herdeiros, 0)| && Walk(herdeiros, 0)[j].Enter?
      ensures Contains(doc, CardHead(Walk(herdeiros, 0)[j].heir, Walk(herdeiros, 0)[j].level))
    {
      ContainsTrans(doc, part, CardHead(Walk(herdeiros, 0)[j].heir, Walk(herdeiros, 0)[j].level));
    }
  }

  // ----- Renunciation of rights -----

  const RenunciationComment := "Seção de Renúncia"
  const RenunciationTitle := "Renúncia de Direitos"

  function RenunciantCard(r: Renunciant, herdeiros: seq<Heir>): string {
    ItemCard(
      Line(22, Tight("Renunciante:", HeirNameById(r.herdeiroId, herdeiros)))
      + Line(22, Tight("Tipo de Renúncia:", Show(r.tipo)))
      + Line(22, Tight("ID da Escritura/Termo:", Or(r.idEscritura, NotInformed))))
  }

  function RenunciantRenderer(herdeiros: seq<Heir>): Renunciant -> string {
    r => RenunciantCard(r, herdeiros)
  }

  function RenunciationSection(r: Renunciation, herdeiros: seq<Heir>): string {
    Optional(RenunciationComment, r.houveRenuncia && |r.renunciantes| > 0,
      Panel(RenunciationTitle, Line(18, JoinMap(r.renunciantes, RenunciantRenderer(herdeiros)))))
  }
  /** A renunciant's card shows the name the lookup finds for the heir id,
      the kind of renunciation and the deed. */
  lemma RenunciantCardShows(r: Renunciant, herdeiros: seq<Heir>)
    ensures Contains(RenunciantCard(r, herdeiros), Tight("Renunciante:", HeirNameById(r.herdeiroId, herdeiros)))
    ensures Contains(RenunciantCard(r, herdeiros), Tight("Tipo de Renúncia:", Show(r.tipo)))
    ensures Contains(RenunciantCard(r, herdeiros), Tight("ID da Escritura/Termo:", Or(r.idEscritura, NotInformed)))
  {
    CardOfThree(22, Tight("Renunciante:", HeirNameById(r.herdeiroId, herdeiros)),
      Tight("Tipo de Renúncia:", Show(r.tipo)),
      Tight("ID da Escritura/Termo:", Or(r.idEscritura, NotInformed)));
  }

  /** The renunciation section is written exactly when a renunciation took
      place and it has renunciants, and then holds every renunciant's card. */
  lemma RenunciationListed(r: Renunciation, herdeiros: seq<Heir>)
    ensures r.houveRenuncia ==> forall k :: 0 <= k < |r.renunciantes| ==>
      Contains(RenunciationSection(r, herdeiros), RenunciantCard(r.renunciantes[k], herdeiros))
    ensures !(r.houveRenuncia && |r.renunciantes| > 0) ==>
      RenunciationSection(r, herdeiros) == Hidden(RenunciationComment)
    ensures r.houveRenuncia && |r.renunciantes| > 0 ==>
      Contains(RenunciationSection(r, herdeiros), Heading(RenunciationTitle))
  {
    RenunciationItems(r, herdeiros);
    RenunciationLayout(r, herdeiros);
  }

  lemma RenunciationItems(r: Renunciation, herdeiros: seq<Heir>)
    ensures r.houveRenuncia ==> forall k :: 0 <= k < |r.renunciantes| ==>
      Contains(RenunciationSection(r, herdeiros), RenunciantCard(r.renunciantes[k], herdeiros))
  {
    PanelItems(RenunciationComment, r.houveRenuncia && |r.renunciantes| > 0, RenunciationTitle, 18,
      r.renunciantes, RenunciantRenderer(herdeiros));
  }

  lemma RenunciationLayout(r: Renunciation, herdeiros: seq<Heir>)
    ensures !(r.houveRenuncia && |r.renunciantes| > 0) ==>
      RenunciationSection(r, herdeiros) == Hidden(RenunciationComment)
    ensures r.houveRenuncia && |r.renunciantes| > 0 ==>
      Contains(RenunciationSection(r, herdeiros), Heading(RenunciationTitle))
  {
    PanelLayout(RenunciationComment, r.houveRenuncia && |r.renunciantes| > 0, RenunciationTitle,
      Line(18, JoinMap(r.renunciantes, RenunciantRenderer(herdeiros))));
  }

  /** The renunciants' cards follow the order of the list. */
  lemma RenunciantsInOrder(r: Renunciation, herdeiros: seq<Heir>)
    ensures r.houveRenuncia ==> forall i, j :: 0 <= i < j < |r.renunciantes| ==>
      Before(RenunciationSection(r, herdeiros),
        RenunciantCard(r.renunciantes[i], herdeiros), RenunciantCard(r.renunciantes[j], herdeiros))
  {
    PanelItemsInOrder(RenunciationComment, r.houveRenuncia && |r.renunciantes| > 0, RenunciationTitle, 18,
      r.renunciantes, RenunciantRenderer(herdeiros));
  }


  // ----- Assignment of rights -----

  const AssignmentComment := "Seção de Cessão"
  const AssignmentTitle := "Cessão de Direitos"

  function AssigneeCard(c: Assignee): string {
    Line(22, Div("preview-sub-card"))
    + Line(24, Tight("Cessionário:", Or(c.nome, NotInformed)))
    + Line(24, Tight("Documentos:", Or(c.documentos, NotInformed)))
    + Line(24, PowerOfAttorney(c.idProcuracao))
    + Line(22, EndDiv)
    + Line(20, "")
  }

  function AssignmentCard(c: Assignment): string {
    Line(18, Div("preview-card"))
    + Line(20, Tight("Escritura de Cessão (ID):", Or(c.idEscritura, NotInformed)))
    + Line(20, JoinMap(c.cessionarios, AssigneeCard))
    + Line(18, EndDiv)
  }

  /** The assignment card shows the deed of assignment and every assignee's
      sub-card. */
  lemma AssignmentCardShows(c: Assignment)
    ensures forall k :: 0 <= k < |c.cessionarios| ==> Contains(AssignmentCard(c), AssigneeCard(c.cessionarios[k]))
    ensures Contains(AssignmentCard(c), Tight("Escritura de Cessão (ID):", Or(c.idEscritura, NotInformed)))
  {
    AssignmentCardItems(c);
    AssignmentDeedShown(c);
  }

  lemma AssignmentCardItems(c: Assignment)
    ensures forall k :: 0 <= k < |c.cessionarios| ==> Contains(AssignmentCard(c), AssigneeCard(c.cessionarios[k]))
  {
    ItemsBetween(Line(18, Div("preview-card"))
      + Line(20, Tight("Escritura de Cessão (ID):", Or(c.idEscritura, NotInformed))),
      20, c.cessionarios, AssigneeCard, Line(18, EndDiv));
  }

  lemma AssignmentDeedShown(c: Assignment)
    ensures Contains(AssignmentCard(c), Tight("Escritura de Cessão (ID):", Or(c.idEscritura, NotInformed)))
  {
    var deed := Tight("Escritura de Cessão (ID):", Or(c.idEscritura, NotInformed));
    var list := Line(20, JoinMap(c.cessionarios, AssigneeCard));
    Pieces4(Line(18, Div("preview-card")), Line(20, deed), list, Line(18, EndDiv));
    LineShows(20, deed);
    ContainsTrans(AssignmentCard(c), Line(20, deed), deed);
  }

  function AssignmentSection(c: Assignment): string {
    Optional(AssignmentComment, c.houveCessao && |c.cessionarios| > 0, Panel(AssignmentTitle, AssignmentCard(c)))
  }
  /** An assignee's sub-card shows the name and documents (each defaulting to
      "not informed") and the power of attorney when there is one. */
  lemma AssigneeCardShows(c: Assignee)
    ensures Contains(AssigneeCard(c), Tight("Cessionário:", Or(c.nome, NotInformed)))
    ensures Contains(AssigneeCard(c), Tight("Documentos:", Or(c.documentos, NotInformed)))
    ensures Truthy(c.idProcuracao) ==> Contains(AssigneeCard(c), Tight("Procuração (ID):", Show(c.idProcuracao)))
  {
    var name := Tight("Cessionário:", Or(c.nome, NotInformed));
    var documents := Tight("Documentos:", Or(c.documentos, NotInformed));
    var power := PowerOfAttorney(c.idProcuracao);
    var card := AssigneeCard(c);
    Pieces6(Line(22, Div("preview-sub-card")), Line(24, name), Line(24, documents), Line(24, power), Line(22, EndDiv), Line(20, ""));
    LineShows(24, name);
    LineShows(24, documents);
    LineShows(24, power);
    ContainsTrans(card, Line(24, name), name);
    ContainsTrans(card, Line(24, documents), documents);
    ContainsTrans(card, Line(24, power), power);
    PowerOfAttorneyShows(c.idProcuracao);
    if Truthy(c.idProcuracao) {
      ContainsTrans(card, power, Tight("Procuração (ID):", Show(c.idProcuracao)));
    }
  }

  /** The assignment section is written exactly when an assignment took
      place and it has assignees, and then shows the deed and every
      assignee's sub-card. */
  lemma AssignmentListed(c: Assignment)
    ensures c.houveCessao ==> forall k :: 0 <= k < |c.cessionarios| ==>
      Contains(AssignmentSection(c), AssigneeCard(c.cessionarios[k]))
    ensures !(c.houveCessao && |c.cessionarios| > 0) ==> AssignmentSection(c) == Hidden(AssignmentComment)
    ensures c.houveCessao && |c.cessionarios| > 0 ==> Contains(AssignmentSection(c), Heading(AssignmentTitle))
    ensures c.houveCessao && |c.cessionarios| > 0 ==>
      Contains(AssignmentSection(c), Tight("Escritura de Cessão (ID):", Or(c.idEscritura, NotInformed)))
  {
    PanelLayout(AssignmentComment, c.houveCessao && |c.cessionarios| > 0, AssignmentTitle, AssignmentCard(c));
    AssignmentCardShows(c);
  }

  /** The assignees' sub-cards follow the order of the list. */
  lemma AssigneesInOrder(c: Assignment)
    ensures c.houveCessao ==> forall i, j :: 0 <= i < j < |c.cessionarios| ==>
      Before(AssignmentSection(c), AssigneeCard(c.cessionarios[i]), AssigneeCard(c.cessionarios[j]))
  {
    forall i, j | c.houveCessao && 0 <= i < j < |c.cessionarios|
      ensures Before(AssignmentSection(c), AssigneeCard(c.cessionarios[i]), AssigneeCard(c.cessionarios[j]))
    {
      AssigneePairInOrder(c, i, j);
    }
  }

  lemma AssigneePairInOrder(c: Assignment, i: nat, j: nat)
    requires c.houveCessao && i < j < |c.cessionarios|
    ensures Before(AssignmentSection(c), AssigneeCard(c.cessionarios[i]), AssigneeCard(c.cessionarios[j]))
  {
    AssignmentCardInOrder(c);
    ContentInOrder(AssignmentComment, c.houveCessao && |c.cessionarios| > 0, AssignmentTitle,
      AssignmentCard(c), AssigneeCard(c.cessionarios[i]), AssigneeCard(c.cessionarios[j]));
  }

  lemma AssignmentCardInOrder(c: Assignment)
    ensures forall i, j :: 0 <= i < j < |c.cessionarios| ==>
      Before(AssignmentCard(c), AssigneeCard(c.cessionarios[i]), AssigneeCard(c.cessionarios[j]))
  {
    ItemsBetweenInOrder(Line(18, Div("preview-card"))
      + Line(20, Tight("Escritura de Cessão (ID):", Or(c.idEscritura, NotInformed))),
      20, c.cessionarios, AssigneeCard, Line(18, EndDiv));
  }


  // ----- Section 5: assets, rights and debts -----

  const AssetsComment := "Seção 5: Bens"
  const AssetsTitle := "5. Relação de Bens," + " Direitos e Dívidas"

  /** Some category of `bens` has items. */
  predicate HasAssets(bens: map<string, seq<Item>>) {
    exists k | k in bens :: |bens[k]| > 0
  }

  /** The category `key` is present in `bens` and has items. */
  predicate HasItems(bens: map<string, seq<Item>>, key: string) {
    key in bens && |bens[key]| > 0
  }

  /** One labelled value of an item: the field's text, or "N/A". */
  function AssetField(item: Item, f: FieldSpec): string {
    Line(30, Spaced(f.caption + ":", Or(Get(item, f.model), MissingId))) + Line(28, "")
  }

  function AssetFieldRenderer(item: Item): FieldSpec -> string {
    f => AssetField(item, f)
  }

  const AssetCardClose := Line(26, EndDiv) + Line(24, "")

  /** The small card of one item: one line per column of its category. */
  function AssetCard(fields: seq<FieldSpec>, item: Item): string {
    Line(26, Div("preview-card-small")) + Line(28, JoinMap(fields, AssetFieldRenderer(item))) + AssetCardClose
  }

  function AssetCardRenderer(fields: seq<FieldSpec>): Item -> string {
    item => AssetCard(fields, item)
  }

  function AssetGroupTitle(s: AssetSection): string {
    "<h4>" + s.title + "</h4>"
  }

  /** The group of one category: its title and its items' cards, or
      nothing when the category has no items. */
  function AssetGroup(bens: map<string, seq<Item>>, s: AssetSection): string {
    if HasItems(bens, s.key)
    then Line(24, AssetGroupTitle(s)) + Line(24, JoinMap(bens[s.key], AssetCardRenderer(s.fields))) + Line(22, "")
    else ""
  }

  function AssetGroupRenderer(bens: map<string, seq<Item>>): AssetSection -> string {
    s => AssetGroup(bens, s)
  }

  function AssetsSection(bens: map<string, seq<Item>>, bensSections: seq<AssetSection>): string {
    Optional(AssetsComment, HasAssets(bens),
      Panel(AssetsTitle, Line(18, JoinMap(bensSections, AssetGroupRenderer(bens)))))
  }

  /** A column shows the item's text for its field, or "N/A" when the item
      lacks the field or the text is empty. */
  lemma AssetFieldShows(item: Item, f: FieldSpec)
    ensures Contains(AssetField(item, f),
      Spaced(f.caption + ":", if f.model in item && item[f.model] != "" then item[f.model] else MissingId))
  {
    var value := Spaced(f.caption + ":", Or(Get(item, f.model), MissingId));
    LineShows(30, value);
    ContainsInLeft(Line(30, value), Line(28, ""), value);
  }

  /** An item's card has a line for every column of its category. */
  lemma AssetCardShows(fields: seq<FieldSpec>, item: Item)
    ensures forall k :: 0 <= k < |fields| ==> Contains(AssetCard(fields, item), AssetField(item, fields[k]))
  {
    ItemsBetween(Line(26, Div("preview-card-small")), 28, fields, AssetFieldRenderer(item), AssetCardClose);
  }

  /** A category is written only when it has items: then with its title and
      the card of every item. */
  lemma AssetGroupShown(bens: map<string, seq<Item>>, s: AssetSection)
    ensures HasItems(bens, s.key) ==> forall k :: 0 <= k < |bens[s.key]| ==>
      Contains(AssetGroup(bens, s), AssetCard(s.fields, bens[s.key][k]))
    ensures !HasItems(bens, s.key) ==> AssetGroup(bens, s) == ""
    ensures HasItems(bens, s.key) ==> Contains(AssetGroup(bens, s), AssetGroupTitle(s))
  {
    if HasItems(bens, s.key) {
      var items := bens[s.key];
      ItemsBetween(Line(24, AssetGroupTitle(s)), 24, items, AssetCardRenderer(s.fields), Line(22, ""));
      var list := Line(24, JoinMap(items, AssetCardRenderer(s.fields)));
      LineShows(24, AssetGroupTitle(s));
      ContainsFirst(Line(24, AssetGroupTitle(s)), list, Line(22, ""));
      ContainsTrans(AssetGroup(bens, s), Line(24, AssetGroupTitle(s)), AssetGroupTitle(s));
    }
  }

  /** A category with items means there are assets. */
  lemma HasItemsHasAssets(bens: map<string, seq<Item>>, key: string)
    requires HasItems(bens, key)
    ensures HasAssets(bens)
  {
  }

  /** Section 5 is written exactly when some category of `bens` has items,
      and then holds the group of every listed category that has items. */
  lemma AssetsListed(bens: map<string, seq<Item>>, bensSections: seq<AssetSection>)
    ensures forall j :: 0 <= j < |bensSections| && HasItems(bens, bensSections[j].key) ==>
      Contains(AssetsSection(bens, bensSections), AssetGroup(bens, bensSections[j]))
    ensures !HasAssets(bens) ==> AssetsSection(bens, bensSections) == Hidden(AssetsComment)
    ensures HasAssets(bens) ==> Contains(AssetsSection(bens, bensSections), Heading(AssetsTitle))
  {
    AssetGroupsListed(bens, bensSections);
    PanelLayout(AssetsComment, HasAssets(bens), AssetsTitle,
      Line(18, JoinMap(bensSections, AssetGroupRenderer(bens))));
  }

  lemma AssetGroupsListed(bens: map<string, seq<Item>>, bensSections: seq<AssetSection>)
    ensures forall j :: 0 <= j < |bensSections| && HasItems(bens, bensSections[j].key) ==>
      Contains(AssetsSection(bens, bensSections), AssetGroup(bens, bensSections[j]))
  {
    PanelItems(AssetsComment, HasAssets(bens), AssetsTitle, 18, bensSections, AssetGroupRenderer(bens));
    forall j | 0 <= j < |bensSections| && HasItems(bens, bensSections[j].key)
      ensures HasAssets(bens)
    {
      HasItemsHasAssets(bens, bensSections[j].key);
    }
  }

  /** The groups follow the order of the list of categories. */
  lemma AssetGroupsInOrder(bens: map<string, seq<Item>>, bensSections: seq<AssetSection>)
    ensures forall i, j :: 0 <= i < j < |bensSections| && HasItems(bens, bensSections[i].key) ==>
      Before(AssetsSection(bens, bensSections), AssetGroup(bens, bensSections[i]), AssetGroup(bens, bensSections[j]))
  {
    PanelItemsInOrder(AssetsComment, HasAssets(bens), AssetsTitle, 18, bensSections, AssetGroupRenderer(bens));
    forall i | 0 <= i < |bensSections| && HasItems(bens, bensSections[i].key)
      ensures HasAssets(bens)
    {
      HasItemsHasAssets(bens, bensSections[i].key);
    }
  }

  /** A group lists its category's items in their order. */
  lemma AssetCardsInOrder(bens: map<string, seq<Item>>, s: AssetSection)
    ensures HasItems(bens, s.key) ==> forall i, j :: 0 <= i < j < |bens[s.key]| ==>
      Before(AssetGroup(bens, s), AssetCard(s.fields, bens[s.key][i]), AssetCard(s.fields, bens[s.key][j]))
  {
    if HasItems(bens, s.key) {
      ItemsBetweenInOrder(Line(24, AssetGroupTitle(s)), 24, bens[s.key], AssetCardRenderer(s.fields), Line(22, ""));
    }
  }

  /** An item's card writes its columns in the order of the category's
      columns. */
  lemma AssetFieldsInOrder(fields: seq<FieldSpec>, item: Item)
    ensures forall i, j :: 0 <= i < j < |fields| ==>
      Before(AssetCard(fields, item), AssetField(item, fields[i]), AssetField(item, fields[j]))
  {
    ItemsBetweenInOrder(Line(26, Div("preview-card-small")), 28, fields, AssetFieldRenderer(item), AssetCardClose);
  }

  /** When the items of `bens` all sit under categories the front end does
      not list, section 5 is still written, with its heading and no group. */
  lemma AssetsWithoutListedGroups(bens: map<string, seq<Item>>, bensSections: seq<AssetSection>)
    requires HasAssets(bens)
    requires forall j :: 0 <= j < |bensSections| ==> !HasItems(bens, bensSections[j].key)
    ensures AssetsSection(bens, bensSections) == Hidden(AssetsComment) + Panel(AssetsTitle, Line(18, ""))
  {
    forall j | 0 <= j < |bensSections| ensures AssetGroupRenderer(bens)(bensSections[j]) == "" {
      AssetGroupShown(bens, bensSections[j]);
    }
    JoinMapAllEmpty(bensSections, AssetGroupRenderer(bens));
  }

  // ----- Section 6: procedural documents (always written) -----

  const ProceduralComment := "Seção 6: Documentos" + " Processuais"
  const ProceduralTitle := "6. Documentos" + " Processuais"

  const WillPrefix := "Testamento ("
  const CensecPrefix := "Certidão CENSEC ("
  const WillPending := "Pendente"

  /** The caption of a will entry: a will or a CENSEC certificate, with the
      deceased person's name. */
  function WillCaption(w: WillRecord): string {
    (if w.deixouTestamento then WillPrefix else CensecPrefix) + Show(w.nomeFalecido) + ")"
  }

  function WillState(w: WillRecord): string {
    if Truthy(w.id) then "Apresentado (ID: " + w.id.value + ")" else WillPending
  }

  function WillEntry(w: WillRecord): string {
    Line(24, "<p>")
    + Line(26, "<strong>" + WillCaption(w) + ":</strong> ")
    + Line(26, "<span>" + WillState(w) + "</span>")
    + Line(24, "</p>")
    + Line(22, "")
  }

  /** The first three lines of the procedural card. */
  function ProceduralHead(d: ProceduralDocs): string {
    Line(22, Spaced("Primeiras Declarações:", MilestoneStatus(d.primeirasDeclaracoes, "Apresentada")))
    + Line(22, Spaced("Edital:", EditalStatus(d.edital)))
    + Line(22, Spaced("Últimas Declarações:", MilestoneStatus(d.ultimasDeclaracoes, "Apresentada")))
  }

  /** The last two lines of the procedural card. */
  function ProceduralTail(d: ProceduralDocs): string {
    Line(22, Spaced("Sentença:", MilestoneStatus(d.sentenca, "Proferida")))
    + Line(22, Spaced("Trânsito em Julgado:", MilestoneStatus(d.transito, "Ocorrido")))
  }

  function ProceduralLines(d: ProceduralDocs): string {
    ProceduralHead(d) + Line(22, JoinMap(d.testamentosCensec, WillEntry)) + ProceduralTail(d)
  }

  const ProceduralOpen :=
    Line(14, Comment(ProceduralComment)) + Line(14, Div("preview-section"))
    + Line(18, Heading(ProceduralTitle)) + Line(18, Div("preview-card"))

  const ProceduralClose := Line(18, EndDiv) + Line(14, EndDiv)

  function ProceduralSection(d: ProceduralDocs): string {
    ProceduralOpen + ProceduralLines(d) + ProceduralClose
  }

  /** A will entry is captioned "Testamento (…)" exactly when the deceased
      left a will, and "Certidão CENSEC (…)" otherwise, with the deceased's
      name; its state is "Pendente" exactly when no document id is set. */
  lemma WillWording(w: WillRecord)
    ensures HasPrefix(WillCaption(w), WillPrefix) <==> w.deixouTestamento
    ensures !w.deixouTestamento ==> HasPrefix(WillCaption(w), CensecPrefix)
    ensures Contains(WillCaption(w), Show(w.nomeFalecido))
    ensures WillState(w) == WillPending <==> !Truthy(w.id)
    ensures Truthy(w.id) ==> Contains(WillState(w), w.id.value)
  {
    var start := if w.deixouTestamento then WillPrefix else CensecPrefix;
    PrefixOfAppend(start + Show(w.nomeFalecido), ")");
    PrefixOfAppend(start, Show(w.nomeFalecido));
    PrefixTrans(WillCaption(w), start + Show(w.nomeFalecido), start);
    if !w.deixouTestamento {
      assert WillCaption(w)[0] == 'C';
    }
    ContainsMiddle(start, Show(w.nomeFalecido), ")");
    if Truthy(w.id) {
      assert WillState(w)[0] == 'A';
      ContainsMiddle("Apresentado (ID: ", w.id.value, ")");
    }
  }

  /** A will entry writes its caption and its state. */
  lemma WillEntryShows(w: WillRecord)
    ensures Contains(WillEntry(w), WillCaption(w))
    ensures Contains(WillEntry(w), WillState(w))
  {
    var caption := "<strong>" + WillCaption(w) + ":</strong> ";
    var state := "<span>" + WillState(w) + "</span>";
    Pieces5(Line(24, "<p>"), Line(26, caption), Line(26, state), Line(24, "</p>"), Line(22, ""));
    LineShows(26, caption);
    LineShows(26, state);
    ContainsMiddle("<strong>", WillCaption(w), ":</strong> ");
    ContainsMiddle("<span>", WillState(w), "</span>");
    ContainsTrans(Line(26, caption), caption, WillCaption(w));
    ContainsTrans(Line(26, state), state, WillState(w));
    ContainsTrans(WillEntry(w), Line(26, caption), WillCaption(w));
    ContainsTrans(WillEntry(w), Line(26, state), WillState(w));
  }

  /** Section 6 is always written, with its heading, the status of every
      procedural step and an entry for every will or CENSEC certificate. */
  lemma ProceduralShows(d: ProceduralDocs)
    ensures forall k :: 0 <= k < |d.testamentosCensec| ==>
      Contains(ProceduralSection(d), WillEntry(d.testamentosCensec[k]))
    ensures Contains(ProceduralSection(d), Heading(ProceduralTitle))
    ensures Contains(ProceduralSection(d),
      Spaced("Primeiras Declarações:", MilestoneStatus(d.primeirasDeclaracoes, "Apresentada")))
    ensures Contains(ProceduralSection(d), Spaced("Edital:", EditalStatus(d.edital)))
    ensures Contains(ProceduralSection(d),
      Spaced("Últimas Declarações:", MilestoneStatus(d.ultimasDeclaracoes, "Apresentada")))
    ensures Contains(ProceduralSection(d), Spaced("Sentença:", MilestoneStatus(d.sentenca, "Proferida")))
    ensures Contains(ProceduralSection(d), Spaced("Trânsito em Julgado:", MilestoneStatus(d.transito, "Ocorrido")))
  {
    ProceduralWillsShown(d);
    ProceduralHeadingShown(d);
    ProceduralStepsShown(d);
  }

  lemma ProceduralWillsShown(d: ProceduralDocs)
    ensures forall k :: 0 <= k < |d.testamentosCensec| ==>
      Contains(ProceduralSection(d), WillEntry(d.testamentosCensec[k]))
  {
    ItemsBetween(ProceduralHead(d), 22, d.testamentosCensec, WillEntry, ProceduralTail(d));
    Framed(ProceduralOpen, ProceduralLines(d), ProceduralClose);
  }

  lemma ProceduralHeadingShown(d: ProceduralDocs)
    ensures Contains(ProceduralSection(d), Heading(ProceduralTitle))
  {
    var heading := Line(18, Heading(ProceduralTitle));
    LineShows(18, Heading(ProceduralTitle));
    Pieces4(Line(14, Comment(ProceduralComment)), Line(14, Div("preview-section")), heading, Line(18, Div("preview-card")));
    ContainsTrans(ProceduralOpen, heading, Heading(ProceduralTitle));
    ContainsFirst(ProceduralOpen, ProceduralLines(d), ProceduralClose);
    ContainsTrans(ProceduralSection(d), ProceduralOpen, Heading(ProceduralTitle));
  }

  lemma ProceduralStepsShown(d: ProceduralDocs)
    ensures Contains(ProceduralSection(d),
      Spaced("Primeiras Declarações:", MilestoneStatus(d.primeirasDeclaracoes, "Apresentada")))
    ensures Contains(ProceduralSection(d), Spaced("Edital:", EditalStatus(d.edital)))
    ensures Contains(ProceduralSection(d),
      Spaced("Últimas Declarações:", MilestoneStatus(d.ultimasDeclaracoes, "Apresentada")))
    ensures Contains(ProceduralSection(d), Spaced("Sentença:", MilestoneStatus(d.sentenca, "Proferida")))
    ensures Contains(ProceduralSection(d), Spaced("Trânsito em Julgado:", MilestoneStatus(d.transito, "Ocorrido")))
  {
    ProceduralFirstSteps(d);
    ProceduralLastSteps(d);
  }

  lemma ProceduralFirstSteps(d: ProceduralDocs)
    ensures Contains(ProceduralSection(d),
      Spaced("Primeiras Declarações:", MilestoneStatus(d.primeirasDeclaracoes, "Apresentada")))
    ensures Contains(ProceduralSection(d), Spaced("Edital:", EditalStatus(d.edital)))
    ensures Contains(ProceduralSection(d),
      Spaced("Últimas Declarações:", MilestoneStatus(d.ultimasDeclaracoes, "Apresentada")))
  {
    LinesBeforeList(ProceduralOpen, 22,
      Spaced("Primeiras Declarações:", MilestoneStatus(d.primeirasDeclaracoes, "Apresentada")),
      Spaced("Edital:", EditalStatus(d.edital)),
      Spaced("Últimas Declarações:", MilestoneStatus(d.ultimasDeclaracoes, "Apresentada")),
      Line(22, JoinMap(d.testamentosCensec, WillEntry)), ProceduralTail(d), ProceduralClose);
  }

  lemma ProceduralLastSteps(d: ProceduralDocs)
    ensures Contains(ProceduralSection(d), Spaced("Sentença:", MilestoneStatus(d.sentenca, "Proferida")))
    ensures Contains(ProceduralSection(d), Spaced("Trânsito em Julgado:", MilestoneStatus(d.transito, "Ocorrido")))
  {
    LinesAfterList(ProceduralOpen, ProceduralHead(d), Line(22, JoinMap(d.testamentosCensec, WillEntry)), 22,
      Spaced("Sentença:", MilestoneStatus(d.sentenca, "Proferida")),
      Spaced("Trânsito em Julgado:", MilestoneStatus(d.transito, "Ocorrido")), ProceduralClose);
  }

  /** The will entries follow the order of the list. */
  lemma WillsInOrder(d: ProceduralDocs)
    ensures forall i, j :: 0 <= i < j < |d.testamentosCensec| ==>
      Before(ProceduralSection(d), WillEntry(d.testamentosCensec[i]), WillEntry(d.testamentosCensec[j]))
  {
    ItemsBetweenInOrder(ProceduralHead(d), 22, d.testamentosCensec, WillEntry, ProceduralTail(d));
    forall i, j | 0 <= i < j < |d.testamentosCensec|
      ensures Before(ProceduralSection(d), WillEntry(d.testamentosCensec[i]), WillEntry(d.testamentosCensec[j]))
    {
      BeforeIn3(ProceduralOpen, ProceduralLines(d), ProceduralClose,
        WillEntry(d.testamentosCensec[i]), WillEntry(d.testamentosCensec[j]));
    }
  }

  // ----- Section 7: tax standing and court costs (always written) -----

  const TaxComment := "Seção 7: Regularidade" + " Tributária e Custas"
  const TaxTitle := "7. Regularidade" + " Tributária e Custas"

  /** The tax card of one deceased person's estate. */
  function TaxCard(t: TaxRecord): string {
    ItemCard(
      Line(22, Tight("Referente a:", Show(t.nomeFalecido)))
      + Line(22, Tight("Status ITCD:", Show(t.statusItcd)))
      + Line(22, Tight("CND Municipal:", MilestoneStatus(t.cndMunicipal, "Juntada")))
      + Line(22, Tight("CND Estadual:", MilestoneStatus(t.cndEstadual, "Juntada")))
      + Line(22, Tight("CND Federal:", MilestoneStatus(t.cndFederal, "Juntada"))))
  }

  const TaxOpen :=
    Line(14, Comment(TaxComment)) + Line(14, Div("preview-section")) + Line(18, Heading(TaxTitle))

  /** The court costs card. */
  function CostsCard(c: Custas): string {
    Line(18, Div("preview-card")) + Line(23, Tight("Custas Processuais:", CustasStatus(c))) + Line(19, EndDiv)
  }

  function TaxClose(c: Custas): string {
    CostsCard(c) + Line(14, EndDiv)
  }

  function TaxSection(records: seq<TaxRecord>, custas: Custas): string {
    TaxOpen + Line(18, JoinMap(records, TaxCard)) + TaxClose(custas)
  }

  /** A tax card shows the deceased person, the ITCD status and the three
      clearance certificates. */
  lemma TaxCardShows(t: TaxRecord)
    ensures Contains(TaxCard(t), Tight("Referente a:", Show(t.nomeFalecido)))
    ensures Contains(TaxCard(t), Tight("Status ITCD:", Show(t.statusItcd)))
    ensures Contains(TaxCard(t), Tight("CND Municipal:", MilestoneStatus(t.cndMunicipal, "Juntada")))
    ensures Contains(TaxCard(t), Tight("CND Estadual:", MilestoneStatus(t.cndEstadual, "Juntada")))
    ensures Contains(TaxCard(t), Tight("CND Federal:", MilestoneStatus(t.cndFederal, "Juntada")))
  {
    CardOfFive(22, Tight("Referente a:", Show(t.nomeFalecido)),
      Tight("Status ITCD:", Show(t.statusItcd)),
      Tight("CND Municipal:", MilestoneStatus(t.cndMunicipal, "Juntada")),
      Tight("CND Estadual:", MilestoneStatus(t.cndEstadual, "Juntada")),
      Tight("CND Federal:", MilestoneStatus(t.cndFederal, "Juntada")));
  }

  /** Section 7 is always written, with its heading, the tax card of every
      record and the court costs. */
  lemma TaxShows(records: seq<TaxRecord>, custas: Custas)
    ensures forall k :: 0 <= k < |records| ==> Contains(TaxSection(records, custas), TaxCard(records[k]))
    ensures Contains(TaxSection(records, custas), Heading(TaxTitle))
    ensures Contains(TaxSection(records, custas), Tight("Custas Processuais:", CustasStatus(custas)))
  {
    ItemsBetween(TaxOpen, 18, records, TaxCard, TaxClose(custas));
    TaxFramingShown(records, custas);
  }

  lemma TaxFramingShown(records: seq<TaxRecord>, custas: Custas)
    ensures Contains(TaxSection(records, custas), Heading(TaxTitle))
    ensures Contains(TaxSection(records, custas), Tight("Custas Processuais:", CustasStatus(custas)))
  {
    TaxHeadingShown(records, custas);
    CostsShown(records, custas);
  }

  lemma TaxHeadingShown(records: seq<TaxRecord>, custas: Custas)
    ensures Contains(TaxSection(records, custas), Heading(TaxTitle))
  {
    LastOpeningLine(Line(14, Comment(TaxComment)), Line(14, Div("preview-section")), 18, Heading(TaxTitle),
      Line(18, JoinMap(records, TaxCard)), TaxClose(custas));
  }

  lemma CostsShown(records: seq<TaxRecord>, custas: Custas)
    ensures Contains(TaxSection(records, custas), Tight("Custas Processuais:", CustasStatus(custas)))
  {
    ClosingCardLine(TaxOpen, Line(18, JoinMap(records, TaxCard)), Line(18, Div("preview-card")), 23,
      Tight("Custas Processuais:", CustasStatus(custas)), Line(19, EndDiv), Line(14, EndDiv));
  }

  /** The tax cards follow the order of the list. */
  lemma TaxRecordsInOrder(records: seq<TaxRecord>, custas: Custas)
    ensures forall i, j :: 0 <= i < j < |records| ==>
      Before(TaxSection(records, custas), TaxCard(records[i]), TaxCard(records[j]))
  {
    ItemsBetweenInOrder(TaxOpen, 18, records, TaxCard, TaxClose(custas));
  }

  // ----- Section 8: observations -----

  const ObservationsComment := "Seção 8: Observações"
  const ObservationsTitle := "8. Observações" + " Adicionais"
  const DefaultObservationTitle := "Observação"

  /** The heading line of an observation: its title (or the default one)
      and its relevance. */
  function ObservationCaption(o: Observation): string {
    Or(o.titulo, DefaultObservationTitle) + " (Relevância: " + Show(o.relevancia) + ")"
  }

  function ObservationContent(o: Observation): string {
    "<p class=\"obs-content\">" + "<span>" + Show(o.conteudo) + "</span></p>"
  }

  function ObservationCard(o: Observation): string {
    ItemCard(Line(22, "<p><strong>" + ObservationCaption(o) + "</strong></p>") + Line(22, ObservationContent(o)))
  }

  function ObservationsSection(observacoes: seq<Observation>): string {
    Optional(ObservationsComment, |observacoes| > 0,
      Panel(ObservationsTitle, Line(18, JoinMap(observacoes, ObservationCard))))
  }

  /** An observation is captioned by its title, "Observação" when the title
      is missing or empty, followed by its relevance. */
  lemma ObservationCaptionShows(o: Observation)
    ensures Truthy(o.titulo) ==> HasPrefix(ObservationCaption(o), o.titulo.value)
    ensures !Truthy(o.titulo) ==> HasPrefix(ObservationCaption(o), DefaultObservationTitle)
    ensures HasSuffix(ObservationCaption(o), " (Relevância: " + Show(o.relevancia) + ")")
  {
    var title := Or(o.titulo, DefaultObservationTitle);
    var rest := " (Relevância: " + Show(o.relevancia) + ")";
    assert ObservationCaption(o) == title + rest;
    PrefixOfAppend(title, rest);
    SuffixOfAppend(title, rest);
  }

  /** An observation's card shows its caption and its content. */
  lemma ObservationCardShows(o: Observation)
    ensures Contains(ObservationCard(o), ObservationCaption(o))
    ensures Contains(ObservationCard(o), Show(o.conteudo))
  {
    var caption := "<p><strong>" + ObservationCaption(o) + "</strong></p>";
    CardOfTwo(22, caption, ObservationContent(o));
    ContainsMiddle("<p><strong>", ObservationCaption(o), "</strong></p>");
    ContainsMiddle("<p class=\"obs-content\">" + "<span>", Show(o.conteudo), "</span></p>");
    ContainsTrans(ObservationCard(o), caption, ObservationCaption(o));
    ContainsTrans(ObservationCard(o), ObservationContent(o), Show(o.conteudo));
  }

  /** Section 8 is written exactly when there are observations, and then
      holds every observation's card. */
  lemma ObservationsListed(observacoes: seq<Observation>)
    ensures forall k :: 0 <= k < |observacoes| ==>
      Contains(ObservationsSection(observacoes), ObservationCard(observacoes[k]))
    ensures |observacoes| == 0 ==> ObservationsSection(observacoes) == Hidden(ObservationsComment)
    ensures |observacoes| > 0 ==> Contains(ObservationsSection(observacoes), Heading(ObservationsTitle))
  {
    var content := Line(18, JoinMap(observacoes, ObservationCard));
    PanelLayout(ObservationsComment, |observacoes| > 0, ObservationsTitle, content);
    PanelItems(ObservationsComment, |observacoes| > 0, ObservationsTitle, 18, observacoes, ObservationCard);
  }

  /** The observations' cards follow the order of the list. */
  lemma ObservationsInOrder(observacoes: seq<Observation>)
    ensures forall i, j :: 0 <= i < j < |observacoes| ==>
      Before(ObservationsSection(observacoes), ObservationCard(observacoes[i]), ObservationCard(observacoes[j]))
  {
    PanelItemsInOrder(ObservationsComment, |observacoes| > 0, ObservationsTitle, 18, observacoes, ObservationCard);
  }
}
