/** The whole certificate: the page header, the sections in their fixed
    order with the blank lines between them, and the signature footer. */
module Certificate {
  import opened Js
  import opened Markup
  import opened HeirTree
  import opened CaseData
  import opened Sections

  function Header(css: string): string {
    Line(6, "<html>")
    + Line(8, "<head><style>" + css + "</style></head>")
    + Line(8, "<body>")
    + Line(10, "<div id=\"preview-panel\"" + " class=\"preview-panel\">")
    + Line(12, Div("preview-header"))
    + Line(14, Div("header-text"))
    + Line(16, "<p>" + "PODER JUDICIÁRIO DO" + " ESTADO DE MINAS GERAIS" + "</p>")
    + Line(16, "<p class=\"comarca\">" + "VARA ÚNICA DA COMARCA" + " DE NOVA RESENDE/MG" + "</p>")
    + Line(14, EndDiv)
    + Line(14, "<h1>" + "CERTIDÃO DE" + " REGULARIDADE" + "</h1>")
    + Line(12, EndDiv)
    + Line(12, Div("preview-content"))
  }

  /** The line a signature is written on when no responsible is named. */
  const SignatureBlank := "____________________" + "____________________" + "_"
  const DefaultRole := "Cargo do Responsável"

  function SignatureName(r: Responsible): string {
    Or(r.nome, SignatureBlank)
  }

  function SignatureRole(r: Responsible): string {
    Or(r.cargo, DefaultRole)
  }

  const FooterOpen :=
    Line(12, EndDiv)
    + Line(12, Div("preview-footer"))
    + Line(16, Div("signature-area"))
    + Line(20, Div("signature-line"))

  function SignatureNameLine(r: Responsible): string {
    "<p class=\"signature-name\">" + SignatureName(r) + "</p>"
  }

  function SignatureRoleLine(r: Responsible): string {
    "<p class=\"signature-title\">" + SignatureRole(r) + "</p>"
  }

  const FooterMiddle :=
    Line(20, EndDiv)
    + Line(16, EndDiv)
    + Line(16, Div("footer-info"))
    + Line(20, "<p>" + "Este documento foi" + " gerado eletronicamente" + " pelo Sistema de" + " Gerenciamento de" + " Certidões." + "</p>")

  function IssueDate(today: string): string {
    "Data de Emissão: " + today
  }

  const FooterEnd :=
    Line(16, EndDiv)
    + Line(12, EndDiv)
    + Line(10, EndDiv)
    + Line(8, "</body>")
    + Line(6, "</html>")
    + Line(4, "")

  /** The footer; `today` is the issuing date as the runtime formats it. */
  function Footer(r: Responsible, today: string): string {
    FooterOpen + Line(24, SignatureNameLine(r)) + Line(24, SignatureRoleLine(r)) + FooterMiddle
    + Line(20, "<p>" + IssueDate(today) + "</p>") + FooterEnd
  }

  /** The footer signs with the responsible's name and role, or a blank
      line and "Cargo do Responsável" when they are missing or empty, and
      states the issuing date. */
  lemma FooterShows(r: Responsible, today: string)
    ensures Contains(Footer(r, today), Or(r.nome, SignatureBlank))
    ensures Contains(Footer(r, today), Or(r.cargo, DefaultRole))
    ensures Contains(Footer(r, today), IssueDate(today))
  {
    FooterNameShown(r, today);
    FooterRoleShown(r, today);
    FooterDateShown(r, today);
  }

  lemma FooterNameShown(r: Responsible, today: string)
    ensures Contains(Footer(r, today), SignatureName(r))
  {
    WrappedLine(24, "<p class=\"signature-name\">", SignatureName(r), "</p>");
    InSecondOfSix(FooterOpen, Line(24, SignatureNameLine(r)), Line(24, SignatureRoleLine(r)), FooterMiddle,
      Line(20, "<p>" + IssueDate(today) + "</p>"), FooterEnd, SignatureName(r));
  }

  lemma FooterRoleShown(r: Responsible, today: string)
    ensures Contains(Footer(r, today), SignatureRole(r))
  {
    WrappedLine(24, "<p class=\"signature-title\">", SignatureRole(r), "</p>");
    InThirdOfSix(FooterOpen, Line(24, SignatureNameLine(r)), Line(24, SignatureRoleLine(r)), FooterMiddle,
      Line(20, "<p>" + IssueDate(today) + "</p>"), FooterEnd, SignatureRole(r));
  }

  lemma FooterDateShown(r: Responsible, today: string)
    ensures Contains(Footer(r, today), IssueDate(today))
  {
    WrappedLine(20, "<p>", IssueDate(today), "</p>");
    InFifthOfSix(FooterOpen, Line(24, SignatureNameLine(r)), Line(24, SignatureRoleLine(r)), FooterMiddle,
      Line(20, "<p>" + IssueDate(today) + "</p>"), FooterEnd, IssueDate(today));
  }

  /** The certificate's skeleton: the parts in the order they are written,
      with the blank template lines between them. */
  function Assemble(header: string, pendencies: string, process: string, deceased: string,
                    administrator: string, heirs: string, renunciation: string, assignment: string,
                    assets: string, procedural: string, tax: string, observations: string,
                    footer: string): string
  {
    header + Line(14, "") + pendencies + Line(0, "") + process + Line(0, "") + deceased + Line(0, "")
    + administrator + Line(14, "") + heirs + Line(14, "") + renunciation + Line(0, "")
    + assignment + Line(14, "") + assets + Line(0, "") + procedural + Line(0, "") + tax + Line(0, "")
    + observations + Line(0, "") + footer
  }

  /** The HTML handed to the PDF renderer. */
  function Document(css: string, data: Case, bensSections: seq<AssetSection>, pendencies: seq<string>,
                    localDate: string -> string, today: string): string
    requires AllRenderable(data.herdeiros)
  {
    Assemble(
      Header(css),
      PendenciesSection(pendencies),
      ProcessSection(data.processo),
      DeceasedSection(data.falecidos, localDate),
      AdministratorSection(data.inventariante),
      HeirsSection(data.herdeiros),
      RenunciationSection(data.renuncia, data.herdeiros),
      AssignmentSection(data.cessao),
      AssetsSection(data.bens, bensSections),
      ProceduralSection(data.documentosProcessuais),
      TaxSection(data.documentacaoTributaria, data.custas),
      ObservationsSection(data.observacoes),
      Footer(data.processo.responsavel, today))
  }

  /** Every part is written into the certificate. */
  lemma AssembleContains(header: string, pendencies: string, process: string, deceased: string,
                         administrator: string, heirs: string, renunciation: string, assignment: string,
                         assets: string, procedural: string, tax: string, observations: string,
                         footer: string)
    ensures var doc := Assemble(header, pendencies, process, deceased, administrator,
                                heirs, renunciation, assignment, assets, procedural, tax, observations, footer);
      && Contains(doc, header) && Contains(doc, pendencies) && Contains(doc, process)
      && Contains(doc, deceased) && Contains(doc, administrator) && Contains(doc, heirs)
      && Contains(doc, renunciation) && Contains(doc, assignment) && Contains(doc, assets)
      && Contains(doc, procedural) && Contains(doc, tax) && Contains(doc, observations)
      && Contains(doc, footer)
  {
    AssembleOrder(header, pendencies, process, deceased, administrator, heirs, renunciation,
                  assignment, assets, procedural, tax, observations, footer);
    var doc := Assemble(header, pendencies, process, deceased, administrator, heirs, renunciation,
                        assignment, assets, procedural, tax, observations, footer);
    BeforeContains(doc, header, pendencies);
    BeforeContains(doc, pendencies, process);
    BeforeContains(doc, process, deceased);
    BeforeContains(doc, deceased, administrator);
    BeforeContains(doc, administrator, heirs);
    BeforeContains(doc, heirs, renunciation);
    BeforeContains(doc, renunciation, assignment);
    BeforeContains(doc, assignment, assets);
    BeforeContains(doc, assets, procedural);
    BeforeContains(doc, procedural, tax);
    BeforeContains(doc, tax, observations);
    BeforeContains(doc, observations, footer);
  }

  /** Each part is written after the one before it. */
  lemma AssembleOrder(header: string, pendencies: string, process: string, deceased: string,
                      administrator: string, heirs: string, renunciation: string, assignment: string,
                      assets: string, procedural: string, tax: string, observations: string,
                      footer: string)
    ensures var doc := Assemble(header, pendencies, process, deceased, administrator,
                                heirs, renunciation, assignment, assets, procedural, tax, observations, footer);
      && Before(doc, header, pendencies) && Before(doc, pendencies, process)
      && Before(doc, process, deceased) && Before(doc, deceased, administrator)
      && Before(doc, administrator, heirs) && Before(doc, heirs, renunciation)
      && Before(doc, renunciation, assignment) && Before(doc, assignment, assets)
      && Before(doc, assets, procedural) && Before(doc, procedural, tax)
      && Before(doc, tax, observations) && Before(doc, observations, footer)
  {
    var z := Line(0, "");
    var f := Line(14, "");
    var p1 := header + f + pendencies;
    var p2 := p1 + z + process;
    var p3 := p2 + z + deceased;
    var p4 := p3 + z + administrator;
    var p5 := p4 + f + heirs;
    var p6 := p5 + f + renunciation;
    var p7 := p6 + z + assignment;
    var p8 := p7 + f + assets;
    var p9 := p8 + z + procedural;
    var p10 := p9 + z + tax;
    var p11 := p10 + z + observations;
    var p12 := p11 + z + footer;
    ContainsSelf(p12);
    ContainsPrefix(p12, p11, z, footer);
    ContainsPrefix(p12, p10, z, observations);
    ContainsPrefix(p12, p9, z, tax);
    ContainsPrefix(p12, p8, z, procedural);
    ContainsPrefix(p12, p7, f, assets);
    ContainsPrefix(p12, p6, z, assignment);
    ContainsPrefix(p12, p5, f, renunciation);
    ContainsPrefix(p12, p4, f, heirs);
    ContainsPrefix(p12, p3, z, administrator);
    ContainsPrefix(p12, p2, z, deceased);
    ContainsPrefix(p12, p1, z, process);
    ContainsLeft(header, f);
    ContainsSelf(pendencies);
    BeforeSplit(header + f, pendencies, header, pendencies);
    BeforeInside(p12, p1, header, pendencies);
    BeforeAdjacent(header + f, pendencies, z, process);
    BeforeInside(p12, p2, pendencies, process);
    BeforeAdjacent(p1 + z, process, z, deceased);
    BeforeInside(p12, p3, process, deceased);
    BeforeAdjacent(p2 + z, deceased, z, administrator);
    BeforeInside(p12, p4, deceased, administrator);
    BeforeAdjacent(p3 + z, administrator, f, heirs);
    BeforeInside(p12, p5, administrator, heirs);
    BeforeAdjacent(p4 + f, heirs, f, renunciation);
    BeforeInside(p12, p6, heirs, renunciation);
    BeforeAdjacent(p5 + f, renunciation, z, assignment);
    BeforeInside(p12, p7, renunciation, assignment);
    BeforeAdjacent(p6 + z, assignment, f, assets);
    BeforeInside(p12, p8, assignment, assets);
    BeforeAdjacent(p7 + f, assets, z, procedural);
    BeforeInside(p12, p9, assets, procedural);
    BeforeAdjacent(p8 + z, procedural, z, tax);
    BeforeInside(p12, p10, procedural, tax);
    BeforeAdjacent(p9 + z, tax, z, observations);
    BeforeInside(p12, p11, tax, observations);
    BeforeAdjacent(p10 + z, observations, z, footer);
    BeforeInside(p12, p12, observations, footer);
  }

  lemma DocumentHasHeirs(css: string, data: Case, bensSections: seq<AssetSection>, pendencies: seq<string>,
                         localDate: string -> string, today: string)
    requires AllRenderable(data.herdeiros)
    ensures Contains(Document(css, data, bensSections, pendencies, localDate, today), HeirsSection(data.herdeiros))
  {
    AssembleContains(
      Header(css),
      PendenciesSection(pendencies),
      ProcessSection(data.processo),
      DeceasedSection(data.falecidos, localDate),
      AdministratorSection(data.inventariante),
      HeirsSection(data.herdeiros),
      RenunciationSection(data.renuncia, data.herdeiros),
      AssignmentSection(data.cessao),
      AssetsSection(data.bens, bensSections),
      ProceduralSection(data.documentosProcessuais),
      TaxSection(data.documentacaoTributaria, data.custas),
      ObservationsSection(data.observacoes),
      Footer(data.processo.responsavel, today));
  }

  /** Every section is written into the certificate, in its place. */
  lemma DocumentSections(css: string, data: Case, bensSections: seq<AssetSection>, pendencies: seq<string>,
                         localDate: string -> string, today: string)
    requires AllRenderable(data.herdeiros)
    ensures var doc := Document(css, data, bensSections, pendencies, localDate, today);
      && Contains(doc, Header(css))
      && Contains(doc, PendenciesSection(pendencies))
      && Contains(doc, ProcessSection(data.processo))
      && Contains(doc, DeceasedSection(data.falecidos, localDate))
      && Contains(doc, AdministratorSection(data.inventariante))
      && Contains(doc, HeirsSection(data.herdeiros))
      && Contains(doc, RenunciationSection(data.renuncia, data.herdeiros))
      && Contains(doc, AssignmentSection(data.cessao))
      && Contains(doc, AssetsSection(data.bens, bensSections))
      && Contains(doc, ProceduralSection(data.documentosProcessuais))
      && Contains(doc, TaxSection(data.documentacaoTributaria, data.custas))
      && Contains(doc, ObservationsSection(data.observacoes))
      && Contains(doc, Footer(data.processo.responsavel, today))
  {
    AssembleContains(
      Header(css),
      PendenciesSection(pendencies),
      ProcessSection(data.processo),
      DeceasedSection(data.falecidos, localDate),
      AdministratorSection(data.inventariante),
      HeirsSection(data.herdeiros),
      RenunciationSection(data.renuncia, data.herdeiros),
      AssignmentSection(data.cessao),
      AssetsSection(data.bens, bensSections),
      ProceduralSection(data.documentosProcessuais),
      TaxSection(data.documentacaoTributaria, data.custas),
      ObservationsSection(data.observacoes),
      Footer(data.processo.responsavel, today));
  }

  /** The sections are written in the template's fixed order. */
  lemma DocumentOrder(css: string, data: Case, bensSections: seq<AssetSection>, pendencies: seq<string>,
                      localDate: string -> string, today: string)
    requires AllRenderable(data.herdeiros)
    ensures var doc := Document(css, data, bensSections, pendencies, localDate, today);
      && Before(doc, Header(css), PendenciesSection(pendencies))
      && Before(doc, PendenciesSection(pendencies), ProcessSection(data.processo))
      && Before(doc, ProcessSection(data.processo), DeceasedSection(data.falecidos, localDate))
      && Before(doc, DeceasedSection(data.falecidos, localDate), AdministratorSection(data.inventariante))
      && Before(doc, AdministratorSection(data.inventariante), HeirsSection(data.herdeiros))
      && Before(doc, HeirsSection(data.herdeiros), RenunciationSection(data.renuncia, data.herdeiros))
      && Before(doc, RenunciationSection(data.renuncia, data.herdeiros), AssignmentSection(data.cessao))
      && Before(doc, AssignmentSection(data.cessao), AssetsSection(data.bens, bensSections))
      && Before(doc, AssetsSection(data.bens, bensSections), ProceduralSection(data.documentosProcessuais))
      && Before(doc, ProceduralSection(data.documentosProcessuais),
                TaxSection(data.documentacaoTributaria, data.custas))
      && Before(doc, TaxSection(data.documentacaoTributaria, data.custas), ObservationsSection(data.observacoes))
      && Before(doc, ObservationsSection(data.observacoes), Footer(data.processo.responsavel, today))
  {
    AssembleOrder(
      Header(css),
      PendenciesSection(pendencies),
      ProcessSection(data.processo),
      DeceasedSection(data.falecidos, localDate),
      AdministratorSection(data.inventariante),
      HeirsSection(data.herdeiros),
      RenunciationSection(data.renuncia, data.herdeiros),
      AssignmentSection(data.cessao),
      AssetsSection(data.bens, bensSections),
      ProceduralSection(data.documentosProcessuais),
      TaxSection(data.documentacaoTributaria, data.custas),
      ObservationsSection(data.observacoes),
      Footer(data.processo.responsavel, today));
  }

  /** The certificate shows the card of every heir, at every depth of the
      succession tree. */
  lemma DocumentShowsEveryHeir(css: string, data: Case, bensSections: seq<AssetSection>, pendencies: seq<string>,
                               localDate: string -> string, today: string)
    requires AllRenderable(data.herdeiros)
    ensures EveryHeirCardIn(Document(css, data, bensSections, pendencies, localDate, today), data.herdeiros)
  {
    DocumentHasHeirs(css, data, bensSections, pendencies, localDate, today);
    HeirCardsIn(Document(css, data, bensSections, pendencies, localDate, today), data.herdeiros);
  }

  /** The certificate is signed and dated. */
  lemma DocumentSigned(css: string, data: Case, bensSections: seq<AssetSection>, pendencies: seq<string>,
                       localDate: string -> string, today: string)
    requires AllRenderable(data.herdeiros)
    ensures Contains(Document(css, data, bensSections, pendencies, localDate, today), IssueDate(today))
  {
    DocumentHasFooter(css, data, bensSections, pendencies, localDate, today);
    FooterDateShown(data.processo.responsavel, today);
    ContainsTrans(Document(css, data, bensSections, pendencies, localDate, today),
      Footer(data.processo.responsavel, today), IssueDate(today));
  }

  lemma DocumentHasFooter(css: string, data: Case, bensSections: seq<AssetSection>, pendencies: seq<string>,
                          localDate: string -> string, today: string)
    requires AllRenderable(data.herdeiros)
    ensures Contains(Document(css, data, bensSections, pendencies, localDate, today),
      Footer(data.processo.responsavel, today))
  {
    DocumentSections(css, data, bensSections, pendencies, localDate, today);
  }
}
