/** The heir forest of a probate case: looking a heir's name up by id, and
    rendering the forest as nested cards, deceased heirs' successors one
    indentation step deeper than the heir they succeed. */
module HeirTree {
  import opened Js
  import opened Formatters
  import opened Markup

  datatype Guardian = Guardian(nome: Option<string>, idTermo: Option<string>)

  datatype Spouse = Spouse(nome: Option<string>, regimeDeBens: Option<string>)

  /** A heir; `representantes` are the successors of a deceased heir, each a
      heir in its own right. An absent list is the empty list. */
  datatype Heir = Heir(
    id: Option<string>,
    nome: Option<string>,
    parentesco: Option<string>,
    estado: Option<string>,
    documentos: Option<string>,
    idProcuracao: Option<string>,
    isMeeiro: bool,
    curador: Option<Guardian>,
    estadoCivil: Option<string>,
    conjuge: Option<Spouse>,
    idCertidaoObito: Option<string>,
    representantes: seq<Heir>)

  const HeirNotFound := "Herdeiro não encontrado"

  /** Every heir of the forest, parents before their successors and earlier
      siblings before later ones. */
  function Preorder(heirs: seq<Heir>): seq<Heir> {
    if |heirs| == 0 then []
    else [heirs[0]] + Preorder(heirs[0].representantes) + Preorder(heirs[1..])
  }

  /** `findHeir`: depth-first search for `heirId`. `None` stands for every
      falsy JavaScript result (no match, or a match whose name is absent or
      empty). A match in a list ends the search of that list, whatever its
      name; a falsy result from the successors does not. */
  function FindHeir(heirId: Option<string>, heirs: seq<Heir>): Option<string> {
    if |heirs| == 0 then None
    else
      var heir := heirs[0];
      if heir.id == heirId then WhenTruthy(heir.nome)
      else
        var found := if |heir.representantes| > 0 then FindHeir(heirId, heir.representantes) else None;
        if found.Some? then found else FindHeir(heirId, heirs[1..])
  }

  /** `getHeirNameById`: the name found, or the "not found" placeholder. */
  function HeirNameById(heirId: Option<string>, allHeirs: seq<Heir>): (r: string)
    ensures r == HeirNotFound
         || exists h :: h in Preorder(allHeirs) && h.id == heirId && h.nome == Some(r) && r != ""
    ensures (forall h :: h in Preorder(allHeirs) ==> h.id != heirId) ==> r == HeirNotFound
  {
    FindHeirSound(heirId, allHeirs);
    FindHeirAbsent(heirId, allHeirs);
    match FindHeir(heirId, allHeirs)
    case Some(name) => name
    case None => HeirNotFound
  }

  lemma PreorderHead(heirs: seq<Heir>)
    requires |heirs| > 0
    ensures Preorder(heirs) == [heirs[0]] + Preorder(heirs[0].representantes) + Preorder(heirs[1..])
  {
  }

  /** A name the search returns belongs to a heir of the forest with that id. */
  lemma {:induction false} FindHeirSound(heirId: Option<string>, heirs: seq<Heir>)
    ensures FindHeir(heirId, heirs).Some? ==>
      exists h :: h in Preorder(heirs) && h.id == heirId && h.nome == FindHeir(heirId, heirs) && Truthy(h.nome)
  {
    if |heirs| > 0 {
      var heir := heirs[0];
      PreorderHead(heirs);
      if heir.id == heirId {
        assert heir in Preorder(heirs);
      } else {
        FindHeirSound(heirId, heir.representantes);
        FindHeirSound(heirId, heirs[1..]);
        var found := if |heir.representantes| > 0 then FindHeir(heirId, heir.representantes) else None;
        if found.Some? {
          var h :| h in Preorder(heir.representantes) && h.id == heirId && h.nome == found && Truthy(h.nome);
          assert h in Preorder(heirs);
        } else if FindHeir(heirId, heirs[1..]).Some? {
          var h :| h in Preorder(heirs[1..]) && h.id == heirId && h.nome == FindHeir(heirId, heirs[1..]) && Truthy(h.nome);
          assert h in Preorder(heirs);
        }
      }
    }
  }

  /** An id that no heir of the forest carries is not found. */
  lemma {:induction false} FindHeirAbsent(heirId: Option<string>, heirs: seq<Heir>)
    ensures (forall h :: h in Preorder(heirs) ==> h.id != heirId) ==> FindHeir(heirId, heirs) == None
  {
    if |heirs| > 0 && forall h :: h in Preorder(heirs) ==> h.id != heirId {
      PreorderHead(heirs);
      assert heirs[0] in Preorder(heirs);
      assert forall h :: h in Preorder(heirs[0].representantes) ==> h in Preorder(heirs);
      assert forall h :: h in Preorder(heirs[1..]) ==> h in Preorder(heirs);
      FindHeirAbsent(heirId, heirs[0].representantes);
      FindHeirAbsent(heirId, heirs[1..]);
    }
  }

  /** The search visits the forest in pre-order: when the first heir in
      pre-order that carries the id has a non-empty name, that name is the
      result. */
  lemma {:induction false} FindHeirFirstMatch(heirId: Option<string>, heirs: seq<Heir>, k: nat)
    requires k < |Preorder(heirs)| && Preorder(heirs)[k].id == heirId && Truthy(Preorder(heirs)[k].nome)
    requires forall j :: 0 <= j < k ==> Preorder(heirs)[j].id != heirId
    ensures FindHeir(heirId, heirs) == Preorder(heirs)[k].nome
  {
    var heir := heirs[0];
    var inner := Preorder(heir.representantes);
    var later := Preorder(heirs[1..]);
    PreorderHead(heirs);
    var all := Preorder(heirs);
    if k == 0 {
    } else if k <= |inner| {
      assert all[0] == heir;
      forall j | 0 <= j < k - 1
        ensures inner[j].id != heirId
      {
        assert inner[j] == all[j + 1];
      }
      assert inner[k - 1] == all[k];
      FindHeirFirstMatch(heirId, heir.representantes, k - 1);
    } else {
      assert all[0] == heir;
      forall h | h in inner
        ensures h.id != heirId
      {
        var j :| 0 <= j < |inner| && inner[j] == h;
        assert h == all[j + 1];
      }
      FindHeirAbsent(heirId, heir.representantes);
      var m := k - 1 - |inner|;
      forall j | 0 <= j < m
        ensures later[j].id != heirId
      {
        assert later[j] == all[j + 1 + |inner|];
      }
      assert later[m] == all[k];
      FindHeirFirstMatch(heirId, heirs[1..], m);
    }
  }

  /** Order of the search over a list: the heirs of `xs` (and their
      successors) are searched before those of `ys`, and a match among the
      heirs of `xs` themselves ends the search even when its name is falsy. */
  lemma {:induction false} FindHeirAppend(heirId: Option<string>, xs: seq<Heir>, ys: seq<Heir>)
    ensures FindHeir(heirId, xs + ys)
         == if FindHeir(heirId, xs).Some? || exists i :: 0 <= i < |xs| && xs[i].id == heirId
            then FindHeir(heirId, xs) else FindHeir(heirId, ys)
  {
    if |xs| == 0 {
      assert xs + ys == ys;
    } else {
      assert (xs + ys)[0] == xs[0];
      assert (xs + ys)[1..] == xs[1..] + ys;
      FindHeirAppend(heirId, xs[1..], ys);
      if xs[0].id != heirId {
        assert (exists i :: 0 <= i < |xs| && xs[i].id == heirId)
           <==> (exists i :: 0 <= i < |xs[1..]| && xs[1..][i].id == heirId) by {
          forall i | 0 < i < |xs| ensures xs[i] == xs[1..][i - 1] { }
        }
      }
    }
  }

  // ----- generateHeirsHtml -----

  /** The heir shows a succession block: deceased, with successors. */
  predicate ShowsSuccession(h: Heir) {
    h.estado == Some("Falecido") && |h.representantes| > 0
  }

  predicate IsPartnered(h: Heir) {
    h.estadoCivil == Some("Casado(a)") || h.estadoCivil == Some("União Estável")
  }

  /** The nested objects a card dereferences are present: the guardian of an
      incapable heir and the spouse of a married or partnered heir, in every
      card that is actually rendered. */
  predicate Renderable(h: Heir)
    decreases h, 1
  {
    && (h.estado == Some("Incapaz") ==> h.curador.Some?)
    && (IsPartnered(h) ==> h.conjuge.Some?)
    && (ShowsSuccession(h) ==> AllRenderable(h.representantes))
  }

  predicate AllRenderable(heirs: seq<Heir>)
    decreases heirs, 0
  {
    forall i :: 0 <= i < |heirs| ==> Renderable(heirs[i])
  }

  /** The card label: a meeiro keeps its label at any depth; otherwise a card
      below the top level is a representative's. */
  function Label(isMeeiro: bool, level: nat): string {
    if isMeeiro then "Meeiro(a):" else if level > 0 then "Representante:" else "Herdeiro(a):"
  }

  /** The indentation of a card: 20 pixels per level. */
  function Margin(level: nat): string {
    "margin-left: " + NatToString(level * 20) + "px;"
  }

  function CardOpening(level: nat): string {
    Line(4, "<div class=\"preview-card\" style=\"" + Margin(level) + "\">")
  }

  const CardTail := Line(4, EndDiv) + Line(2, "")

  function ProcurationBlock(h: Heir): string
  {
    if Truthy(h.idProcuracao)
    then Div("info-procuracao") + Spaced("Procuração (ID):", h.idProcuracao.value) + EndDiv
    else ""
  }

  function GuardianBlock(h: Heir): string
    requires h.estado == Some("Incapaz") ==> h.curador.Some?
  {
    if h.estado == Some("Incapaz")
    then Div("preview-sub-card warning")
       + Spaced("Curador(a):", Or(h.curador.value.nome, NotInformed))
       + Spaced("Termo de Curador (ID):", Or(h.curador.value.idTermo, NotInformed)) + EndDiv
    else ""
  }

  function SpouseBlock(h: Heir): string
    requires IsPartnered(h) ==> h.conjuge.Some?
  {
    if IsPartnered(h)
    then Div("preview-sub-card spouse")
       + Spaced("Cônjuge/Comp.:", Or(h.conjuge.value.nome, NotInformed))
       + Spaced("Regime de Bens:", Or(h.conjuge.value.regimeDeBens, NotInformed)) + EndDiv
    else ""
  }

  /** The kinship written after an heir's name: in parentheses when set. */
  function Kinship(h: Heir): string {
    if Truthy(h.parentesco) then "(" + h.parentesco.value + ")" else ""
  }

  /** Everything of a card up to where its succession block goes: the
      opening tag and the lines below it. */
  function CardHead(h: Heir, level: nat): string
    requires Renderable(h)
  {
    CardOpening(level)
    + Line(6, Tight(Label(h.isMeeiro, level), Or(h.nome, NotInformed) + " " + Kinship(h)))
    + Line(6, Spaced("Condição:", Or(h.estado, NotInformed)))
    + Line(6, Spaced("Documentos Pessoais:", Or(h.documentos, NotInformed)))
    + Line(6, ProcurationBlock(h))
    + Line(6, GuardianBlock(h))
    + Line(6, SpouseBlock(h))
    + Line(6, "")
  }

  function SuccessionOpen(h: Heir): string {
    Div("preview-sub-card danger")
    + Spaced("Certidão de Óbito (ID):", Or(h.idCertidaoObito, NotInformed))
    + "<p><strong>" + "Sucessão de Herdeiro Falecido:" + "</strong></p>"
  }

  const SuccessionClose := EndDiv

  /** The succession block of a card: the death certificate and the
      successors' cards one level deeper; empty for every other heir,
      including a deceased heir without successors. */
  function SuccessionBlock(h: Heir, level: nat): string
    requires Renderable(h)
    decreases h, 1
  {
    if ShowsSuccession(h)
    then SuccessionOpen(h) + HeirsHtml(h.representantes, level + 1) + SuccessionClose
    else ""
  }

  /** The card of one heir. */
  function Card(h: Heir, level: nat): string
    requires Renderable(h)
    decreases h, 2
  {
    CardHead(h, level) + SuccessionBlock(h, level) + CardTail
  }

  /** `generateHeirsHtml`: the cards of the heirs, in order, joined. */
  function HeirsHtml(heirs: seq<Heir>, level: nat): string
    requires AllRenderable(heirs)
    decreases heirs, 3
  {
    if |heirs| == 0 then "" else Card(heirs[0], level) + HeirsHtml(heirs[1..], level)
  }

  /** `heirs.map(...)`: the card of every heir, before they are joined. */
  function Cards(heirs: seq<Heir>, level: nat): (r: seq<string>)
    requires AllRenderable(heirs)
    ensures |r| == |heirs|
    ensures forall k :: 0 <= k < |heirs| ==> r[k] == Card(heirs[k], level)
  {
    if |heirs| == 0 then [] else [Card(heirs[0], level)] + Cards(heirs[1..], level)
  }

  /** The heirs' markup is the join of their cards. */
  lemma {:induction false} HeirsHtmlJoinsCards(heirs: seq<Heir>, level: nat)
    requires AllRenderable(heirs)
    ensures HeirsHtml(heirs, level) == Concat(Cards(heirs, level))
  {
    if |heirs| > 0 {
      HeirsHtmlJoinsCards(heirs[1..], level);
      ConcatCons(Card(heirs[0], level), Cards(heirs[1..], level));
    }
  }

  /** The heirs' cards are written in the order of the list. */
  lemma CardsInOrder(heirs: seq<Heir>, level: nat, i: nat, j: nat)
    requires AllRenderable(heirs)
    requires i < j < |heirs|
    ensures Before(HeirsHtml(heirs, level), Card(heirs[i], level), Card(heirs[j], level))
  {
    HeirsHtmlJoinsCards(heirs, level);
    ConcatOrder(Cards(heirs, level), i, j);
  }

  /** A card's own lines come before its successors' cards. */
  lemma SuccessorsAfterHead(h: Heir, level: nat)
    requires Renderable(h) && ShowsSuccession(h)
    ensures Before(Card(h, level), CardHead(h, level), HeirsHtml(h.representantes, level + 1))
  {
    SuccessorsInBlock(h, level);
    ContainsSelf(CardHead(h, level));
    BeforeParts(CardHead(h, level), SuccessionBlock(h, level), CardTail, CardHead(h, level),
      HeirsHtml(h.representantes, level + 1));
  }

  /** The cards of a list are the cards of its parts, in order. */
  lemma {:induction false} HeirsHtmlAppend(xs: seq<Heir>, ys: seq<Heir>, level: nat)
    requires AllRenderable(xs) && AllRenderable(ys)
    ensures AllRenderable(xs + ys)
    ensures HeirsHtml(xs + ys, level) == HeirsHtml(xs, level) + HeirsHtml(ys, level)
  {
    AllRenderableAppend(xs, ys);
    if |xs| == 0 {
      assert xs + ys == ys;
    } else {
      assert (xs + ys)[1..] == xs[1..] + ys;
      assert (xs + ys)[0] == xs[0];
      HeirsHtmlAppend(xs[1..], ys, level);
      Assoc3(Card(xs[0], level), HeirsHtml(xs[1..], level), HeirsHtml(ys, level));
    }
  }

  lemma AllRenderableAppend(xs: seq<Heir>, ys: seq<Heir>)
    requires AllRenderable(xs) && AllRenderable(ys)
    ensures AllRenderable(xs + ys)
  {
    forall i | 0 <= i < |xs + ys|
      ensures Renderable((xs + ys)[i])
    {
      if i < |xs| {
        assert (xs + ys)[i] == xs[i];
      } else {
        assert (xs + ys)[i] == ys[i - |xs|];
      }
    }
  }

  // ----- The rendering as a walk over the forest -----

  /** A card being opened or closed during the rendering. */
  datatype Event = Enter(heir: Heir, level: nat) | Leave(heir: Heir, level: nat)

  /** The cards the rendering opens and closes, in the order it writes them. */
  function Walk(heirs: seq<Heir>, level: nat): seq<Event>
    decreases heirs, 1
  {
    if |heirs| == 0 then [] else WalkCard(heirs[0], level) + Walk(heirs[1..], level)
  }

  function WalkCard(h: Heir, level: nat): seq<Event>
    decreases h, 0
  {
    [Enter(h, level)] + (if ShowsSuccession(h) then Walk(h.representantes, level + 1) else []) + [Leave(h, level)]
  }

  /** Cards open minus cards closed. */
  function Depth(es: seq<Event>): int {
    if |es| == 0 then 0 else Depth(es[..|es| - 1]) + (if es[|es| - 1].Enter? then 1 else -1)
  }

  lemma {:induction false} DepthAppend(a: seq<Event>, b: seq<Event>)
    ensures Depth(a + b) == Depth(a) + Depth(b)
  {
    if |b| == 0 {
      assert a + b == a;
    } else {
      assert (a + b)[..|a + b| - 1] == a + b[..|b| - 1];
      DepthAppend(a, b[..|b| - 1]);
    }
  }

  /** Every event's level is the base level plus the number of cards open
      around it. */
  ghost predicate LevelsTrackNesting(es: seq<Event>, base: int) {
    forall j :: 0 <= j < |es| ==> es[j].level == base + Depth(es[..j]) - (if es[j].Leave? then 1 else 0)
  }

  lemma NestingConcat(a: seq<Event>, b: seq<Event>, base: int)
    requires LevelsTrackNesting(a, base) && Depth(a) == 0 && LevelsTrackNesting(b, base)
    ensures LevelsTrackNesting(a + b, base)
  {
    forall j | |a| <= j < |a + b|
      ensures (a + b)[j].level == base + Depth((a + b)[..j]) - (if (a + b)[j].Leave? then 1 else 0)
    {
      assert (a + b)[..j] == a + b[..j - |a|];
      DepthAppend(a, b[..j - |a|]);
      assert (a + b)[j] == b[j - |a|];
    }
    forall j | 0 <= j < |a|
      ensures (a + b)[j].level == base + Depth((a + b)[..j]) - (if (a + b)[j].Leave? then 1 else 0)
    {
      assert (a + b)[..j] == a[..j];
    }
  }

  lemma NestingWrap(h: Heir, inner: seq<Event>, base: nat)
    requires LevelsTrackNesting(inner, base + 1) && Depth(inner) == 0
    ensures LevelsTrackNesting([Enter(h, base)] + inner + [Leave(h, base)], base)
    ensures Depth([Enter(h, base)] + inner + [Leave(h, base)]) == 0
  {
    var x := Enter(h, base);
    var es := [x] + inner + [Leave(h, base)];
    assert Depth([x]) == 1 by {
      assert [x][..0] == [];
    }
    DepthAppend([x], inner);
    assert es[..|es| - 1] == [x] + inner;
    forall j | 0 <= j < |es|
      ensures es[j].level == base + Depth(es[..j]) - (if es[j].Leave? then 1 else 0)
    {
      if j == 0 {
        assert es[..0] == [];
      } else if j <= |inner| {
        assert es[..j] == [x] + inner[..j - 1];
        DepthAppend([x], inner[..j - 1]);
        assert es[j] == inner[j - 1];
      }
    }
  }

  /** The level of every card written for a heir list is the starting level
      plus the number of cards it is nested in, and a finished walk leaves no
      card open. */
  lemma {:induction false} WalkNesting(heirs: seq<Heir>, level: nat)
    ensures LevelsTrackNesting(Walk(heirs, level), level)
    ensures Depth(Walk(heirs, level)) == 0
    decreases heirs, 1
  {
    if |heirs| > 0 {
      WalkCardNesting(heirs[0], level);
      WalkNesting(heirs[1..], level);
      NestingConcat(WalkCard(heirs[0], level), Walk(heirs[1..], level), level);
      DepthAppend(WalkCard(heirs[0], level), Walk(heirs[1..], level));
    }
  }

  lemma {:induction false} WalkCardNesting(h: Heir, level: nat)
    ensures LevelsTrackNesting(WalkCard(h, level), level)
    ensures Depth(WalkCard(h, level)) == 0
    decreases h, 0
  {
    if ShowsSuccession(h) {
      WalkNesting(h.representantes, level + 1);
      NestingWrap(h, Walk(h.representantes, level + 1), level);
    } else {
      NestingWrap(h, [], level);
      assert [Enter(h, level)] + [] + [Leave(h, level)] == WalkCard(h, level);
    }
  }

  /** In the heirs section (rendered from level 0), the j-th card opened is at
      the level of the number of cards it is nested in, and it is labelled as
      a representative exactly when it is nested in another card and is not a
      meeiro's. */
  lemma NestedCardLayout(heirs: seq<Heir>, j: nat)
    requires j < |Walk(heirs, 0)| && Walk(heirs, 0)[j].Enter?
    ensures var e := Walk(heirs, 0)[j];
      && e.level == Depth(Walk(heirs, 0)[..j])
      && (Label(e.heir.isMeeiro, e.level) == "Representante:" <==> !e.heir.isMeeiro && Depth(Walk(heirs, 0)[..j]) > 0)
  {
    WalkNesting(heirs, 0);
  }

  /** An event of a list's walk is an event of its first card's walk or of
      the rest of the list's walk. */
  lemma WalkSplit(heirs: seq<Heir>, level: nat, j: nat)
    requires j < |Walk(heirs, level)|
    ensures |heirs| > 0
    ensures j < |WalkCard(heirs[0], level)| ==> Walk(heirs, level)[j] == WalkCard(heirs[0], level)[j]
    ensures j >= |WalkCard(heirs[0], level)| ==>
      j - |WalkCard(heirs[0], level)| < |Walk(heirs[1..], level)|
      && Walk(heirs, level)[j] == Walk(heirs[1..], level)[j - |WalkCard(heirs[0], level)|]
  {
  }

  /** A card opened inside a card's walk, after its own opening, belongs to
      the walk of its successors. */
  lemma WalkCardInner(h: Heir, level: nat, j: nat)
    requires 0 < j < |WalkCard(h, level)| && WalkCard(h, level)[j].Enter?
    ensures ShowsSuccession(h)
    ensures j - 1 < |Walk(h.representantes, level + 1)|
    ensures WalkCard(h, level)[j] == Walk(h.representantes, level + 1)[j - 1]
  {
    var inner := if ShowsSuccession(h) then Walk(h.representantes, level + 1) else [];
    assert WalkCard(h, level) == [Enter(h, level)] + inner + [Leave(h, level)];
    assert WalkCard(h, level)[j] == inner[j - 1];
  }

  lemma HeadInCard(h: Heir, level: nat)
    requires Renderable(h)
    ensures Contains(Card(h, level), CardHead(h, level))
  {
    ContainsFirst(CardHead(h, level), SuccessionBlock(h, level), CardTail);
  }

  lemma BlockInCard(h: Heir, level: nat)
    requires Renderable(h)
    ensures Contains(Card(h, level), SuccessionBlock(h, level))
  {
    ContainsMiddle(CardHead(h, level), SuccessionBlock(h, level), CardTail);
  }

  lemma SuccessorsInBlock(h: Heir, level: nat)
    requires Renderable(h) && ShowsSuccession(h)
    ensures Contains(SuccessionBlock(h, level), HeirsHtml(h.representantes, level + 1))
  {
    ContainsMiddle(SuccessionOpen(h), HeirsHtml(h.representantes, level + 1), SuccessionClose);
  }

  lemma FirstCardInHeirs(heirs: seq<Heir>, level: nat)
    requires AllRenderable(heirs) && |heirs| > 0
    ensures Contains(HeirsHtml(heirs, level), Card(heirs[0], level))
  {
    ContainsFirst(Card(heirs[0], level), HeirsHtml(heirs[1..], level), "");
  }

  lemma RestInHeirs(heirs: seq<Heir>, level: nat)
    requires AllRenderable(heirs) && |heirs| > 0
    ensures Contains(HeirsHtml(heirs, level), HeirsHtml(heirs[1..], level))
  {
    ContainsLast(Card(heirs[0], level), HeirsHtml(heirs[1..], level));
  }

  /** Every card the walk opens is a rendered card, and its head, for its own
      level, is written into the heirs' markup. */
  lemma {:induction false} CardIsWritten(heirs: seq<Heir>, level: nat, j: nat)
    requires AllRenderable(heirs)
    requires j < |Walk(heirs, level)| && Walk(heirs, level)[j].Enter?
    ensures Renderable(Walk(heirs, level)[j].heir)
    ensures Contains(HeirsHtml(heirs, level), CardHead(Walk(heirs, level)[j].heir, Walk(heirs, level)[j].level))
    decreases heirs, 1
  {
    WalkSplit(heirs, level, j);
    var n := |WalkCard(heirs[0], level)|;
    var e := Walk(heirs, level)[j];
    if j < n {
      CardHeadIsWritten(heirs[0], level, j);
      FirstCardInHeirs(heirs, level);
      ContainsTrans(HeirsHtml(heirs, level), Card(heirs[0], level), CardHead(e.heir, e.level));
    } else {
      CardIsWritten(heirs[1..], level, j - n);
      RestInHeirs(heirs, level);
      ContainsTrans(HeirsHtml(heirs, level), HeirsHtml(heirs[1..], level), CardHead(e.heir, e.level));
    }
  }

  lemma {:induction false} CardHeadIsWritten(h: Heir, level: nat, j: nat)
    requires Renderable(h)
    requires j < |WalkCard(h, level)| && WalkCard(h, level)[j].Enter?
    ensures Renderable(WalkCard(h, level)[j].heir)
    ensures Contains(Card(h, level), CardHead(WalkCard(h, level)[j].heir, WalkCard(h, level)[j].level))
    decreases h, 0
  {
    if j == 0 {
      HeadInCard(h, level);
    } else {
      WalkCardInner(h, level, j);
      SuccessorHeadIsWritten(h, level, j - 1);
    }
  }

  lemma {:induction false} SuccessorHeadIsWritten(h: Heir, level: nat, j: nat)
    requires Renderable(h) && ShowsSuccession(h)
    requires j < |Walk(h.representantes, level + 1)| && Walk(h.representantes, level + 1)[j].Enter?
    ensures Renderable(Walk(h.representantes, level + 1)[j].heir)
    ensures Contains(Card(h, level), CardHead(Walk(h.representantes, level + 1)[j].heir, Walk(h.representantes, level + 1)[j].level))
    decreases h, -1
  {
    var e := Walk(h.representantes, level + 1)[j];
    CardIsWritten(h.representantes, level + 1, j);
    SuccessorsInBlock(h, level);
    BlockInCard(h, level);
    ContainsTrans(SuccessionBlock(h, level), HeirsHtml(h.representantes, level + 1), CardHead(e.heir, e.level));
    ContainsTrans(Card(h, level), SuccessionBlock(h, level), CardHead(e.heir, e.level));
  }

  /** Cards at different levels are indented differently. */
  lemma MarginsDiffer(l1: nat, l2: nat)
    requires Margin(l1) == Margin(l2)
    ensures l1 == l2
  {
    var open := "margin-left: ";
    assert NatToString(l1 * 20) == Margin(l1)[|open|..|Margin(l1)| - 3];
    assert NatToString(l2 * 20) == Margin(l2)[|open|..|Margin(l2)| - 3];
    NatToStringInjective(l1 * 20, l2 * 20);
  }

  /** Locates a piece of one of the lines of a card's head in the head. */
  lemma InCardHead(h: Heir, level: nat, t: string)
    requires Renderable(h)
    requires Contains(CardOpening(level), t)
          || Contains(Line(6, Tight(Label(h.isMeeiro, level), Or(h.nome, NotInformed) + " " + Kinship(h))), t)
          || Contains(Line(6, Spaced("Condição:", Or(h.estado, NotInformed))), t)
          || Contains(Line(6, Spaced("Documentos Pessoais:", Or(h.documentos, NotInformed))), t)
          || Contains(Line(6, ProcurationBlock(h)), t)
          || Contains(Line(6, GuardianBlock(h)), t)
          || Contains(Line(6, SpouseBlock(h)), t)
    ensures Contains(CardHead(h, level), t)
  {
    InEight(CardOpening(level),
      Line(6, Tight(Label(h.isMeeiro, level), Or(h.nome, NotInformed) + " " + Kinship(h))),
      Line(6, Spaced("Condição:", Or(h.estado, NotInformed))),
      Line(6, Spaced("Documentos Pessoais:", Or(h.documentos, NotInformed))),
      Line(6, ProcurationBlock(h)), Line(6, GuardianBlock(h)), Line(6, SpouseBlock(h)), Line(6, ""), t);
  }

  /** A card opens with its level's indentation and its label. */
  lemma CardHeadOpening(h: Heir, level: nat)
    requires Renderable(h)
    ensures Contains(CardHead(h, level), Margin(level))
    ensures Contains(CardHead(h, level), Label(h.isMeeiro, level))
  {
    WrappedLine(4, "<div class=\"preview-card\" style=\"", Margin(level), "\">");
    InCardHead(h, level, Margin(level));
    CaptionOnLine(6, Label(h.isMeeiro, level), Or(h.nome, NotInformed) + " " + Kinship(h));
    InCardHead(h, level, Label(h.isMeeiro, level));
  }

  /** The lines every card writes below its opening tag: the label with the
      heir's name (or "Não informado") followed by the kinship in parentheses
      when it is set, the condition and the personal documents. */
  lemma CardHeadLines(h: Heir, level: nat)
    requires Renderable(h)
    ensures Contains(CardHead(h, level), Tight(Label(h.isMeeiro, level), Or(h.nome, NotInformed) + " " + Kinship(h)))
    ensures Contains(CardHead(h, level), Or(h.nome, NotInformed))
    ensures Truthy(h.parentesco) ==> Contains(CardHead(h, level), "(" + h.parentesco.value + ")")
    ensures Contains(CardHead(h, level), Spaced("Condição:", Or(h.estado, NotInformed)))
    ensures Contains(CardHead(h, level), Spaced("Documentos Pessoais:", Or(h.documentos, NotInformed)))
  {
    var name := Tight(Label(h.isMeeiro, level), Or(h.nome, NotInformed) + " " + Kinship(h));
    LineShows(6, name);
    InCardHead(h, level, name);
    TightShowsPieces(Label(h.isMeeiro, level), Or(h.nome, NotInformed), " ", Kinship(h));
    InLine(6, name, Or(h.nome, NotInformed));
    InCardHead(h, level, Or(h.nome, NotInformed));
    InLine(6, name, Kinship(h));
    InCardHead(h, level, Kinship(h));
    LineShows(6, Spaced("Condição:", Or(h.estado, NotInformed)));
    InCardHead(h, level, Spaced("Condição:", Or(h.estado, NotInformed)));
    LineShows(6, Spaced("Documentos Pessoais:", Or(h.documentos, NotInformed)));
    InCardHead(h, level, Spaced("Documentos Pessoais:", Or(h.documentos, NotInformed)));
  }

  /** The power-of-attorney block is written exactly when its id is set, and
      then shows the id under its caption. */
  lemma ProcurationBlockShows(h: Heir)
    ensures ProcurationBlock(h) != "" <==> Truthy(h.idProcuracao)
    ensures Truthy(h.idProcuracao) ==>
      Contains(ProcurationBlock(h), Spaced("Procuração (ID):", h.idProcuracao.value))
  {
    if Truthy(h.idProcuracao) {
      assert ProcurationBlock(h)[0] == '<';
      ContainsMiddle(Div("info-procuracao"), Spaced("Procuração (ID):", h.idProcuracao.value), EndDiv);
    }
  }

  /** The guardian block is written exactly for an heir whose condition is
      "Incapaz", and then shows the guardian's name and term id, each
      defaulting to "Não informado". */
  lemma GuardianBlockShows(h: Heir)
    requires h.estado == Some("Incapaz") ==> h.curador.Some?
    ensures GuardianBlock(h) != "" <==> h.estado == Some("Incapaz")
    ensures h.estado == Some("Incapaz") ==>
      && Contains(GuardianBlock(h), Spaced("Curador(a):", Or(h.curador.value.nome, NotInformed)))
      && Contains(GuardianBlock(h), Spaced("Termo de Curador (ID):", Or(h.curador.value.idTermo, NotInformed)))
  {
    if h.estado == Some("Incapaz") {
      assert GuardianBlock(h)[0] == '<';
      Pieces4(Div("preview-sub-card warning"),
        Spaced("Curador(a):", Or(h.curador.value.nome, NotInformed)),
        Spaced("Termo de Curador (ID):", Or(h.curador.value.idTermo, NotInformed)), EndDiv);
    }
  }

  /** The spouse block is written exactly for a married or partnered heir,
      and then shows the spouse's name and the property regime, each
      defaulting to "Não informado". */
  lemma SpouseBlockShows(h: Heir)
    requires IsPartnered(h) ==> h.conjuge.Some?
    ensures SpouseBlock(h) != "" <==> IsPartnered(h)
    ensures IsPartnered(h) ==>
      && Contains(SpouseBlock(h), Spaced("Cônjuge/Comp.:", Or(h.conjuge.value.nome, NotInformed)))
      && Contains(SpouseBlock(h), Spaced("Regime de Bens:", Or(h.conjuge.value.regimeDeBens, NotInformed)))
  {
    if IsPartnered(h) {
      assert SpouseBlock(h)[0] == '<';
      Pieces4(Div("preview-sub-card spouse"),
        Spaced("Cônjuge/Comp.:", Or(h.conjuge.value.nome, NotInformed)),
        Spaced("Regime de Bens:", Or(h.conjuge.value.regimeDeBens, NotInformed)), EndDiv);
    }
  }

  /** A card writes its three optional blocks, each empty unless it applies:
      the power of attorney when its id is set, the guardian of an incapable
      heir and the spouse of a married or partnered heir. */
  lemma CardBlocksShown(h: Heir, level: nat)
    requires Renderable(h)
    ensures Contains(CardHead(h, level), ProcurationBlock(h))
    ensures Contains(CardHead(h, level), GuardianBlock(h))
    ensures Contains(CardHead(h, level), SpouseBlock(h))
    ensures Truthy(h.idProcuracao) ==>
      Contains(CardHead(h, level), Spaced("Procuração (ID):", h.idProcuracao.value))
    ensures h.estado == Some("Incapaz") ==>
      && Contains(CardHead(h, level), Spaced("Curador(a):", Or(h.curador.value.nome, NotInformed)))
      && Contains(CardHead(h, level), Spaced("Termo de Curador (ID):", Or(h.curador.value.idTermo, NotInformed)))
    ensures IsPartnered(h) ==>
      && Contains(CardHead(h, level), Spaced("Cônjuge/Comp.:", Or(h.conjuge.value.nome, NotInformed)))
      && Contains(CardHead(h, level), Spaced("Regime de Bens:", Or(h.conjuge.value.regimeDeBens, NotInformed)))
  {
    ProcurationShown(h, level);
    GuardianShown(h, level);
    SpouseShown(h, level);
  }

  lemma ProcurationShown(h: Heir, level: nat)
    requires Renderable(h)
    ensures Contains(CardHead(h, level), ProcurationBlock(h))
    ensures Truthy(h.idProcuracao) ==>
      Contains(CardHead(h, level), Spaced("Procuração (ID):", h.idProcuracao.value))
  {
    LineShows(6, ProcurationBlock(h));
    InCardHead(h, level, ProcurationBlock(h));
    ProcurationBlockShows(h);
    if Truthy(h.idProcuracao) {
      ContainsTrans(CardHead(h, level), ProcurationBlock(h), Spaced("Procuração (ID):", h.idProcuracao.value));
    }
  }

  lemma GuardianShown(h: Heir, level: nat)
    requires Renderable(h)
    ensures Contains(CardHead(h, level), GuardianBlock(h))
    ensures h.estado == Some("Incapaz") ==>
      && Contains(CardHead(h, level), Spaced("Curador(a):", Or(h.curador.value.nome, NotInformed)))
      && Contains(CardHead(h, level), Spaced("Termo de Curador (ID):", Or(h.curador.value.idTermo, NotInformed)))
  {
    LineShows(6, GuardianBlock(h));
    InCardHead(h, level, GuardianBlock(h));
    GuardianBlockShows(h);
    if h.estado == Some("Incapaz") {
      ContainsTrans(CardHead(h, level), GuardianBlock(h), Spaced("Curador(a):", Or(h.curador.value.nome, NotInformed)));
      ContainsTrans(CardHead(h, level), GuardianBlock(h),
        Spaced("Termo de Curador (ID):", Or(h.curador.value.idTermo, NotInformed)));
    }
  }

  lemma SpouseShown(h: Heir, level: nat)
    requires Renderable(h)
    ensures Contains(CardHead(h, level), SpouseBlock(h))
    ensures IsPartnered(h) ==>
      && Contains(CardHead(h, level), Spaced("Cônjuge/Comp.:", Or(h.conjuge.value.nome, NotInformed)))
      && Contains(CardHead(h, level), Spaced("Regime de Bens:", Or(h.conjuge.value.regimeDeBens, NotInformed)))
  {
    LineShows(6, SpouseBlock(h));
    InCardHead(h, level, SpouseBlock(h));
    SpouseBlockShows(h);
    if IsPartnered(h) {
      ContainsTrans(CardHead(h, level), SpouseBlock(h), Spaced("Cônjuge/Comp.:", Or(h.conjuge.value.nome, NotInformed)));
      ContainsTrans(CardHead(h, level), SpouseBlock(h),
        Spaced("Regime de Bens:", Or(h.conjuge.value.regimeDeBens, NotInformed)));
    }
  }

  /** A card has a succession block exactly when the heir is deceased and has
      successors; the block shows the death certificate's id (or "Não
      informado") and holds the successors' cards one level deeper. */
  lemma SuccessionShown(h: Heir, level: nat)
    requires Renderable(h)
    ensures SuccessionBlock(h, level) != "" <==> ShowsSuccession(h)
    ensures ShowsSuccession(h) ==>
      Contains(SuccessionBlock(h, level), Spaced("Certidão de Óbito (ID):", Or(h.idCertidaoObito, NotInformed)))
    ensures ShowsSuccession(h) ==> Contains(SuccessionBlock(h, level), HeirsHtml(h.representantes, level + 1))
  {
    if ShowsSuccession(h) {
      assert SuccessionBlock(h, level)[0] == '<';
      SuccessorsInBlock(h, level);
      DeathCertificateInBlock(h, level);
    }
  }

  lemma DeathCertificateInBlock(h: Heir, level: nat)
    requires Renderable(h) && ShowsSuccession(h)
    ensures Contains(SuccessionBlock(h, level), Spaced("Certidão de Óbito (ID):", Or(h.idCertidaoObito, NotInformed)))
  {
    var line := Spaced("Certidão de Óbito (ID):", Or(h.idCertidaoObito, NotInformed));
    Pieces5(Div("preview-sub-card danger"), line, "<p><strong>", "Sucessão de Herdeiro Falecido:", "</strong></p>");
    ContainsFirst(SuccessionOpen(h), HeirsHtml(h.representantes, level + 1), SuccessionClose);
    ContainsTrans(SuccessionBlock(h, level), SuccessionOpen(h), line);
  }
}
