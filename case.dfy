/** The request payload of the certificate endpoint: the state of a probate
    case as the front end keeps it. Field names are the payload's own.
    String fields that the template tests or defaults are `Option<string>`;
    flags the template only tests for truthiness are `bool`; a list the
    template guards against being absent is a plain sequence, absent being
    empty. */
module CaseData {
  import opened Js
  import opened Formatters
  import opened HeirTree

  datatype Responsible = Responsible(nome: Option<string>, cargo: Option<string>)

  datatype Process = Process(numero: Option<string>, cumulativo: bool, responsavel: Responsible)

  /** A deceased person whose estate is inventoried. */
  datatype Deceased = Deceased(nome: Option<string>, dataFalecimento: Option<string>, idCertidaoObito: Option<string>)

  /** The administrator of the estate (`inventariante`). */
  datatype Administrator = Administrator(
    nome: Option<string>,
    parentesco: Option<string>,
    idTermoCompromisso: Option<string>,
    idProcuracao: Option<string>)

  datatype Renunciant = Renunciant(herdeiroId: Option<string>, tipo: Option<string>, idEscritura: Option<string>)

  datatype Renunciation = Renunciation(houveRenuncia: bool, renunciantes: seq<Renunciant>)

  /** A person to whom hereditary rights were assigned (`cessionário`). */
  datatype Assignee = Assignee(nome: Option<string>, documentos: Option<string>, idProcuracao: Option<string>)

  datatype Assignment = Assignment(houveCessao: bool, idEscritura: Option<string>, cessionarios: seq<Assignee>)

  /** One asset, debt or right: a JSON object of text fields. */
  type Item = map<string, string>

  /** A column of an asset category: its caption and the item field it shows. */
  datatype FieldSpec = FieldSpec(caption: string, model: string)

  /** A category of assets as the front end describes it (`bensSections`):
      the key of its list in `bens`, its title and its columns. */
  datatype AssetSection = AssetSection(key: string, title: string, fields: seq<FieldSpec>)

  /** A will or CENSEC certificate of a deceased person. */
  datatype WillRecord = WillRecord(deixouTestamento: bool, nomeFalecido: Option<string>, id: Option<string>)

  datatype ProceduralDocs = ProceduralDocs(
    primeirasDeclaracoes: Milestone,
    edital: Edital,
    ultimasDeclaracoes: Milestone,
    testamentosCensec: seq<WillRecord>,
    sentenca: Milestone,
    transito: Milestone)

  /** The tax standing of one deceased person's estate. */
  datatype TaxRecord = TaxRecord(
    nomeFalecido: Option<string>,
    statusItcd: Option<string>,
    cndMunicipal: Milestone,
    cndEstadual: Milestone,
    cndFederal: Milestone)

  datatype Observation = Observation(titulo: Option<string>, relevancia: Option<string>, conteudo: Option<string>)

  /** The whole case (`state`). `bens` maps each asset category key to its
      list of items. */
  datatype Case = Case(
    processo: Process,
    falecidos: seq<Deceased>,
    inventariante: Administrator,
    herdeiros: seq<Heir>,
    renuncia: Renunciation,
    cessao: Assignment,
    bens: map<string, seq<Item>>,
    documentosProcessuais: ProceduralDocs,
    documentacaoTributaria: seq<TaxRecord>,
    custas: Custas,
    observacoes: seq<Observation>)
}
