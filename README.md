# Probate certificate renderer

`server.js` answers a `POST /generate-pdf` request with a "Certidão de
Regularidade": a certificate of the standing of a probate case (inventário)
of the single court of Nova Resende/MG. This project models the pure part
of that request: the text the handler renders before it hands it to a
headless browser. The request body carries the case (`state`), the list of
asset categories with their columns (`bensSections`) and the list of
pendencies. The HTML is one template that writes these parts:

- a fixed page header;
- the pendencies panel;
- eight numbered sections: process, deceased, administrator, heirs,
  assets, procedural documents, tax and costs, observations;
- the renunciation and assignment panels, between the heirs and the assets;
- the signature footer.

Each optional part is guarded by a condition on the case. Lists are written
with `map(...).join('')`. Missing fields fall back to `'Não informado'`,
`'N/A'` or another placeholder through JavaScript's `||`.

Helpers the template uses:
- `getHeirNameById` searches the heir forest depth first. Each heir may
  carry the representatives who succeed them.
- `generateHeirsHtml` renders that forest recursively. Each level is
  indented 20 pixels further than the one above it.
- `getEditalStatus` and `getCustasStatus` turn the public notice (edital)
  and the court costs (custas) into one status sentence each.

How the HTML is modelled:
- The text is reproduced character for character, including the
  template's line breaks and indentation. `Js.Line(n, t)` is a newline,
  `n` spaces, then `t`.
- A JavaScript string field that may be absent is an `Option<string>`.
  `Js.Truthy` is JavaScript truthiness on such a field: present and
  non-empty.
- `Js.Or` models `x || d`.
- `Js.Show` models `${x}`, which writes `"undefined"` for an absent field.
- `Js.JoinMap` models `map(f).join('')`.
- `Js.Contains(s, t)` means `t` occurs in `s` as a contiguous substring.
  Most facts about the rendered page are stated with it.
- `Js.Before(s, t, u)` means `s` splits into a first part that contains
  `t` and a second part that contains `u`. Facts about the order of the
  page are stated with it.

Modules, in dependency order:
- `Js`: the JavaScript conventions above, and decimal rendering of numbers.
- `Markup`: tags, panels and cards shared by the sections.
- `Formatters`: `formatDate`, `getEditalStatus`, `getCustasStatus` and the
  "step done" phrases.
- `HeirTree`: `getHeirNameById`, `generateHeirsHtml`, and the walk that
  lists the cards in the order they are opened and closed.
- `CaseData`: the records of the request body.
- `Sections`: the parts of the page.
- `Certificate`: the header, the footer and the whole page.

## Model

| member | source | states |
|---|---|---|
| `HeirTree.HeirNameById` | server.js:26-38 | The result is either the "Herdeiro não encontrado" placeholder or the non-empty name of some heir, at any depth, whose id equals the query. An id that no heir carries gives the placeholder. |
| `HeirTree.FindHeirSound` | server.js:27-36 | The inner search returns only a name that belongs to an heir of the forest with the queried id, and that name is truthy. |
| `HeirTree.FindHeirAbsent` | server.js:27-36 | The inner search finds nothing for an id absent from the whole forest. |
| `HeirTree.FindHeirFirstMatch` | server.js:28-33 | The search is pre-order. If the first heir in pre-order that carries the id has a non-empty name, that name is the result. |
| `HeirTree.FindHeirAppend` | server.js:28-35 | Earlier siblings are searched, with their descendants, before later ones. A match among the earlier siblings themselves ends the search of the list, even when its name is falsy. |
| `HeirTree.HeirsHtmlAppend` | server.js:40-53 | The markup of a concatenated heir list is the markup of the first part followed by that of the second: one card per heir, in input order. |
| `HeirTree.WalkNesting` | server.js:40-53 | Every card of the rendering is written at the starting level plus the number of cards it is nested in, and a finished rendering leaves no card open. So representatives go exactly one level below the heir they succeed. |
| `HeirTree.NestedCardLayout` | server.js:43-50 | In the heirs section, the j-th card opened has a level equal to the number of cards enclosing it. It is labelled "Representante:" exactly when it is nested and is not a meeiro's card. |
| `HeirTree.MarginsDiffer` | server.js:43 | The `margin-left` written for two levels is the same only when the levels are equal, so each depth has its own indentation. |
| `HeirTree.CardHeadOpening` | server.js:43-44 | A card carries the margin of its level (`level * 20` pixels) and the label "Meeiro(a):", "Representante:" or "Herdeiro(a):" that its meeiro flag and level select. |
| `HeirTree.CardHeadLines` | server.js:44-46 | A card shows the label line with the heir's name (or "Não informado"), followed by the kinship in parentheses when it is set. It also shows the "Condição:" and "Documentos Pessoais:" lines, each defaulting to "Não informado". |
| `HeirTree.ProcurationBlockShows` | server.js:47 | The power-of-attorney block is non-empty exactly when the id is truthy. It then holds the "Procuração (ID):" line with that id. |
| `HeirTree.GuardianBlockShows` | server.js:48 | The guardian block is non-empty exactly when the heir's condition is "Incapaz". It then holds the "Curador(a):" and "Termo de Curador (ID):" lines, each defaulting to "Não informado". |
| `HeirTree.SpouseBlockShows` | server.js:49 | The spouse block is non-empty exactly when the heir is married or in a stable union. It then holds the "Cônjuge/Comp.:" and "Regime de Bens:" lines, each defaulting to "Não informado". |
| `HeirTree.CardBlocksShown` | server.js:47-49 | A card contains its three optional blocks. When a block applies, the card holds that block's captioned lines. |
| `HeirTree.SuccessionShown` | server.js:50 | A succession block is written exactly when the heir is deceased and has representatives. It then shows the "Certidão de Óbito (ID):" line, defaulting to "Não informado", and holds the representatives' cards, rendered one level deeper. |
| `HeirTree.Cards` | server.js:42-52 | The mapped list has one card per heir, and its k-th entry is the card of the k-th heir. |
| `HeirTree.HeirsHtmlJoinsCards` | server.js:42-52 | The heirs' markup is the join of the mapped cards. |
| `HeirTree.CardsInOrder` | server.js:42-52 | Of two heirs of a list, the earlier one's card is written before the later one's card. |
| `HeirTree.SuccessorsAfterHead` | server.js:43-51 | In a card with a succession block, the representatives' cards come after the heir's own lines. |
| `HeirTree.CardIsWritten` | server.js:40-53 | Every card the recursive rendering opens, at any depth, has its head written into the heirs' markup at its own level. |
| `Formatters.MilestoneStatusReadsBack` | server.js:224 | A step line can be read back into whether the step is done ("Apresentada (ID: …)" and the like) and, if so, into the reference shown, with "N/A" for a missing one. A "Não …" line is never read as done. |
| `Formatters.EditalStatusOrder` | server.js:55-60 | "Não determinada a expedição." appears exactly when `determinado` is "Não", whatever else is set. "Expedição pendente." appears exactly when that rule does not apply and the status is "Não Expedido". The awaiting line appears exactly when neither applies and the term has not elapsed. The other rules give an "Expedido (ID: …" line. |
| `Formatters.EditalStatusReadsBack` | server.js:55-60 | Reading the edital line back gives the situation the ordered rules chose and the ids written ("N/A" when missing). This holds whenever the issue reference contains no ")". |
| `Formatters.CustasStatusOutcomes` | server.js:62-71 | "Isento de custas.", "Custas a serem pagas ao final do processo." and "Situação não informada." each appear exactly for their `situacao`, the last one for every value other than the three known ones. |
| `Formatters.CustasStatusReadsBack` | server.js:62-71 | Reading the costs line back gives one of four outcomes. For "Devidas" it recovers the calculation and payment halves, each pending or with its id ("N/A" when missing). This holds whenever the calculation id contains no ")". |
| `Sections.PendenciesListed` | server.js:109-119 | The pendencies panel is written exactly when the list is non-empty; otherwise only its comment line is written. When written, it carries its heading and every pendency as an `<li>`. |
| `Sections.PendenciesInOrder` | server.js:115 | The pendencies are written in the order of the list. |
| `Sections.ProcessCardShows` | server.js:125-128 | The process card shows the process number, and the "Inventário Cumulativo" type line for a cumulative process. |
| `Sections.ProcessShown` | server.js:121-130 | Section 1 is written exactly when the process number is truthy. It then has its heading, the number, and the cumulative type line when that applies. |
| `Sections.DeceasedCardShows` | server.js:137-141 | A deceased person's card shows the name and the death-certificate id, each defaulting to "Não informado", and the formatted date of death. |
| `Sections.DeceasedListed` | server.js:132-144 | Section 2 is written exactly when there is some deceased person, with its heading and one card per person. |
| `Sections.DeceasedInOrder` | server.js:136-142 | The deceased persons' cards are written in the order of the list. |
| `Sections.PowerOfAttorneyShows` | server.js:154 | The power-of-attorney line is written exactly when its id is truthy, showing that id. Otherwise nothing is written. |
| `Sections.AdministratorCardShows` | server.js:150-155 | The administrator card shows: the name; the kinship and the commitment-term id, each defaulting to "Não informado"; the power of attorney when set. |
| `Sections.AdministratorShown` | server.js:146-157 | Section 3 is written exactly when the administrator's name is truthy. It then has its heading and every line of the card. |
| `Sections.HeirsShown` | server.js:159-165 | Section 4 is written exactly when there are heirs. It then has its heading and the head of every card the recursive rendering opens. |
| `Sections.HeirsInOrder` | server.js:159-165 | The cards of the top-level heirs are written in the order of the list. |
| `Sections.HeirCardsIn` | server.js:159-165 | Any text that contains the heirs section contains every card the rendering opens. |
| `Sections.RenunciantCardShows` | server.js:172-176 | A renunciant's card shows: the name that `getHeirNameById` finds for the heir id; the kind of renunciation; the deed id, defaulting to "Não informado". |
| `Sections.RenunciationListed` | server.js:167-179 | The renunciation panel is written exactly when a renunciation took place and there are renunciants. It then has its heading and one card per renunciant. |
| `Sections.RenunciantsInOrder` | server.js:171-177 | When a renunciation took place, the renunciants' cards are written in the order of the list. |
| `Sections.AssigneeCardShows` | server.js:188-192 | An assignee's sub-card shows the name and the documents, each defaulting to "Não informado", and the power of attorney when set. |
| `Sections.AssignmentCardShows` | server.js:185-194 | The assignment card shows the deed id, defaulting to "Não informado", and every assignee's sub-card. |
| `Sections.AssignmentListed` | server.js:181-196 | The assignment panel is written exactly when an assignment took place and there are assignees. It then has its heading, the deed line and every assignee. |
| `Sections.AssigneesInOrder` | server.js:187-193 | When an assignment took place, the assignees' sub-cards are written in the order of the list. |
| `Sections.AssetFieldShows` | server.js:209 | A column line shows the column's caption and the item's text for the column's model field. It shows "N/A" when the item lacks that field or the text is empty. |
| `Sections.AssetCardShows` | server.js:207-211 | An item's card has a line for every column of its category. |
| `Sections.AssetFieldsInOrder` | server.js:208-210 | An item's card writes its column lines in the order of the category's columns. |
| `Sections.AssetGroupShown` | server.js:203-215 | A category writes nothing unless it is present with items. Otherwise it writes its `<h4>` title and the card of every item. |
| `Sections.AssetCardsInOrder` | server.js:206-212 | A category with items writes its items' cards in the order of its list. |
| `Sections.AssetsListed` | server.js:198-218 | Section 5 is written exactly when some category of `bens` has items. It then has its heading and the group of every listed category that has items. |
| `Sections.AssetGroupsInOrder` | server.js:202-216 | A listed category with items has its group written before the group of every category listed after it. |
| `Sections.AssetsWithoutListedGroups` | server.js:199-216 | When all items sit under categories not listed in `bensSections`, section 5 is still written: a heading and no group. |
| `Sections.WillWording` | server.js:229-230 | A will entry is captioned "Testamento (…)" exactly when the deceased left a will, and "Certidão CENSEC (…)" otherwise, with the deceased's name. Its state is "Pendente" exactly when no document id is set; otherwise it shows the id. |
| `Sections.WillEntryShows` | server.js:228-231 | A will entry writes its caption and its state. |
| `Sections.WillsInOrder` | server.js:227-232 | The will and CENSEC entries are written in the order of the list. |
| `Sections.ProceduralShows` | server.js:220-236 | Section 6 is always written. It shows its heading and the status of the first declarations (primeiras declarações), the edital, the last declarations (últimas declarações), the sentence (sentença) and its becoming final (trânsito em julgado). It also has an entry for every will or CENSEC certificate. |
| `Sections.TaxCardShows` | server.js:242-248 | A tax card shows the deceased person, the ITCD status and the municipal, state and federal clearance certificates. |
| `Sections.TaxShows` | server.js:238-253 | Section 7 is always written, with its heading, a tax card per record and the court-costs line from `getCustasStatus`. |
| `Sections.TaxRecordsInOrder` | server.js:241-249 | The tax cards are written in the order of the records. |
| `Sections.ObservationCaptionShows` | server.js:261 | An observation is captioned by its title, or "Observação" when the title is missing or empty, followed by its relevance. |
| `Sections.ObservationCardShows` | server.js:260-263 | An observation's card shows its caption and its content. |
| `Sections.ObservationsListed` | server.js:255-266 | Section 8 is written exactly when there are observations, with its heading and one card per observation. |
| `Sections.ObservationsInOrder` | server.js:259-264 | The observations' cards are written in the order of the list. |
| `Certificate.FooterShows` | server.js:269-280 | The footer signs with the responsible's name, or a blank signature line when it is missing or empty. It gives the role, or "Cargo do Responsável", and the issue date. |
| `Certificate.AssembleContains` | server.js:95-284 | The assembled page contains each of its thirteen parts: the header, every section, and the footer. |
| `Certificate.AssembleOrder` | server.js:95-284 | Each of the thirteen parts is written after the one before it, in the template's fixed order. |
| `Certificate.DocumentSections` | server.js:95-284 | The rendered certificate contains each of its parts exactly as rendered by that part's own function. |
| `Certificate.DocumentOrder` | server.js:95-284 | The rendered parts follow each other in the template's order: header, pendencies, sections 1 to 4, renunciation, assignment, sections 5 to 8, footer. |
| `Certificate.DocumentShowsEveryHeir` | server.js:159-165 | The certificate contains the card of every heir the renderer writes, at every depth it descends to. |
| `Certificate.DocumentSigned` | server.js:276-279 | The certificate carries its issue date. |

## Left out

- The Express server is not modelled: routing, CORS, body-size limits, `app.listen` and the undefined `port` of the second listen call. These are HTTP plumbing.
- The Puppeteer browser is not modelled: launching it, `setContent`, `pdf`, `close`, and sending the PDF. This is an external engine driven by asynchronous I/O.
- The style sheet read from disk is the string parameter `css`.
- The response sent when rendering fails, and the console logging, are not modelled.
- `formatDate` is `Formatters.FormatDate`. Only its missing-or-empty branch ("Não informado") is specified. The calendar parsing and pt-BR formatting of the JavaScript runtime are the parameter `localDate`, which includes the fallback to the raw text.
- The issue date is the parameter `today`, because the wall clock is outside the model.
- The model does not cover the exceptions the template raises on absent nested objects. The handler catches them and answers with an error (server.js:295-298). The cases are:
  - a guardian missing for an "Incapaz" heir, or a spouse missing for a married one. Instead, `HeirTree.Renderable` requires them, on the cards that are actually written;
  - an absent `herdeiros` list while a renunciation is shown: `getHeirNameById` then iterates over `undefined` (server.js:28, 173);
  - an absent `processo.responsavel` (server.js:272-273);
  - an absent `cndMunicipal`, `cndEstadual` or `cndFederal` on a tax record (server.js:245-247).
- Fields the template dereferences without a guard are always present in the model. These are `processo` and its `responsavel`, `inventariante`, `renuncia`, `cessao`, `bens`, `documentosProcessuais` and its steps, `custas`, the certificates of each tax record, and the lists the template maps over. An absent `herdeiros` list is modelled as an empty one. Section 4's guard handles that case, but the renunciation lookup does not.
- Case values are strings, absent fields or booleans. JSON numbers, `null` and non-string texts are not modelled.
- Asset entries are lists of items with string fields. The section's guard `Array.isArray` is then always true. An asset entry that is not an array is not modelled.
- Boolean flags (`isMeeiro`, `cumulativo`, `houveRenuncia`, `houveCessao`, `deixouTestamento`) are `bool`. Truthy non-boolean values there are not modelled.
- Text is written verbatim, without HTML escaping, as the template does.
- The page header and the footer's fixed lines are constant text with no property of their own beyond being written.
