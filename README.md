# APA 7 reference formatter — a Dafny model

This project models the reference-formatting engine of a Word add-in for the
APA 7 style, and proves properties of that model. The engine is the class
`FormatadorAPA7` and the tagged-union data model it works on. It also models
the self-contained helpers of the add-in's `QuoteFormatter`.

`FormatadorAPA7` turns a reference record into three strings:

- the full reference-list entry;
- a narrative in-text citation;
- a parenthetical in-text citation.

It also returns a validation report and metadata. It validates first. It then
dispatches on the `tipo` tag to one of seven per-type formatters. Each
formatter pushes text segments onto a list and joins them with single spaces.

The helpers of `QuoteFormatter` are:

- a cache of paragraph end offsets, and the lookup of a position's paragraph;
- a word count;
- the grouping of validation issues by type;
- the labels of the issue types.

Files:

- `jstext.dfy` (module `JsText`): the JavaScript string built-ins the source
  relies on. These are `split` on one character, `join`, `trim`,
  `split(/\s+/)`, `charAt`, `startsWith`/`endsWith`, and ASCII
  `toUpperCase`/`toLowerCase`.
- `types.dfy` (module `Types`):
  - the 13 reference tags;
  - one datatype constructor per reference interface;
  - the type guards;
  - the output records;
  - the configuration;
  - the `ABREVIACOES` table;
  - the `ErroFormatacaoAPA` error.
- `formatador.dfy` (module `Formatador`): `FormatadorAPA7`.
  - Its pure parts (case transformers, citations, metadata) are functions.
  - The type formatters, `formatarAutores`, `formatarEditores`, `validar` and
    `formatar` are methods of the class `FormatadorAPA7`. They build their
    lists step by step as the source does. Each method is proved equal to a
    specification function, and the properties are lemmas about those
    functions.
- `quote.dfy` (module `APAQuoteFormatter`): the five helpers of
  `QuoteFormatter`.
  - The class `QuoteFormatter` holds the `paragraphOffsets` cache and the
    report's issues.
  - `BuildParagraphOffsets` is a loop with a running position.
  - `GroupIssuesByType` fills a map in a loop.
  - `FindParagraphNumber` is a `findIndex` loop.

How values are represented:

- Optional strings are `string`, with `""` for absent. The source only tests
  them for truthiness, and an empty string fails that test just like
  `undefined`.
- The optional author list is a `seq`. `undefined` and `[]` behave the same at
  every use.
- Dates are the strings the records carry.

The model follows the code where the code departs from APA 7 style:

- A single author formats as `Silva, J..`, not `Silva, J.`. The join appends a
  period after the initial's own period. Two authors give
  `Silva, J., & Santos, M..`.
- The website formatter also drops the site name when there is no author of
  any kind, not only when the corporate author's name equals the site name.
- The podcast episode number is written `(Nº n)`.

## Model

| member | source | states |
|---|---|---|
| Types.IsReferenciaArtigo | references/types.ts:321-323 | the guard holds exactly when `tipo` is "artigo" |
| Types.IsReferenciaLivro | references/types.ts:325-327 | the guard holds exactly when `tipo` is "livro" |
| Types.IsReferenciaCapitulo | references/types.ts:329-331 | the guard holds exactly when `tipo` is "capitulo" |
| Types.IsReferenciaWebsite | references/types.ts:333-335 | the guard holds exactly when `tipo` is "website" |
| Types.IsReferenciaTese | references/types.ts:337-339 | the guard holds exactly when `tipo` is "tese" or "dissertacao" |
| Types.IsReferenciaVideo | references/types.ts:341-343 | the guard holds exactly when `tipo` is "video" |
| Types.IsReferenciaPodcast | references/types.ts:345-347 | the guard holds exactly when `tipo` is "podcast" |
| Types.GuardasDisjuntas | references/types.ts:10-23 | no reference satisfies two guards; exactly the tags jornal, conferencia, relatorio, lei and midia-social satisfy none |
| Types.GuardaTeseDuasTags | references/types.ts:337-339 | the thesis guard holds iff the tag's literal is "tese" or "dissertacao" |
| Types.NovoErroFormatacaoAPA | references/types.ts:306-315 | the error keeps its kind, field and message unchanged, and its name is "ErroFormatacaoAPA" |
| Formatador.MesclarPadroes | references/FormatadorAPA7.ts:27-40 | every option given explicitly is kept: the four booleans (`false` included), `primeiraVez`, the language, the date format, and a nonzero threshold; every option left out takes its default whatever else is given (pt, completo, DOI and URL on, no access date, strict validation, `primeiraVez` off); an absent or 0 threshold becomes 3, so it is never 0 |
| Formatador.ConfiguracaoPadrao | references/FormatadorAPA7.ts:28-39 | with no options the configuration is pt, completo, DOI and URL on, no access date, strict validation, threshold 3, primeiraVez off |
| Formatador.LimiarZeroViraTres | references/FormatadorAPA7.ts:36 | a threshold of 0 becomes 3 and any other threshold is kept, whatever `primeiraVez` is |
| Formatador.FormatadorAPA7.constructor | references/FormatadorAPA7.ts:27-40 | the configuration is the options merged over the defaults |
| Formatador.EntradasAutores | references/FormatadorAPA7.ts:371-403 | up to 20 authors give one entry each; more give exactly 21 entries, the 20th "..." and the 21st the last author |
| Formatador.EntradasAutoresPontual | references/FormatadorAPA7.ts:372-391 | entry i is author i's `Sobrenome, I.` for every listed author, and for the first 19 when there are more than 20 |
| Formatador.AutoresCorporativoPrevalece | references/FormatadorAPA7.ts:357-366 | a corporate author gives exactly its name plus "." whatever the author list; no author at all gives "" |
| Formatador.AutoresMaisDeVinteIgnoraMeio | references/FormatadorAPA7.ts:380-403 | beyond 20 authors, only the first 19 and the last affect the result |
| Formatador.AutoresJuncaoUniforme | references/FormatadorAPA7.ts:405-414 | two or more entries are joined by ", " with ", & " before the last, then "." |
| Formatador.AutoresTerminamEmPontoDuplo | references/FormatadorAPA7.ts:374-378 | any non-empty personal author list ends in ".." |
| Formatador.DoisEditoresSemVirgula | references/FormatadorAPA7.ts:450-455 | two editors are joined by " & " with no comma and take " (eds.),"; two authors give `A, & B.` |
| Formatador.EditoresSufixo | references/FormatadorAPA7.ts:435-461 | no editors give ""; one ends with " (ed.),", several with " (eds.),"; the result starts with the first editor's `I. Sobrenome` |
| Formatador.FormatadorAPA7.FormatarAutores | references/FormatadorAPA7.ts:357-415 | the loop builds exactly the author text specified by `TextoAutores` |
| Formatador.FormatadorAPA7.FormatarEditores | references/FormatadorAPA7.ts:435-461 | the loop builds exactly the editor text specified by `TextoEditores` |
| Formatador.CapitalizarPrimeiraCaixa | references/FormatadorAPA7.ts:588-590 | the result differs from the input only in case; its first character is not lower case and no later one is upper case |
| Formatador.CapitalizarPrimeira | references/FormatadorAPA7.ts:588-590 | the length is kept; character 0 is upper-cased and every other character is lower-cased |
| Formatador.CapitalizarPrimeiraIdempotente | references/FormatadorAPA7.ts:588-590 | capitalising twice is capitalising once |
| Formatador.AplicarSentenceCase | references/FormatadorAPA7.ts:537-552 | the output has as many ':' as the input, one per ": " separator |
| Formatador.SplitSentenceCase | references/FormatadorAPA7.ts:541-551 | the output's colon-split parts are the input's parts formatted, each after the first preceded by one space |
| Formatador.CadaParteSentenceCaseEstavel | references/FormatadorAPA7.ts:543-549 | formatting those parts again, leading space included, changes nothing |
| Formatador.ParteSentenceCaseIdempotente | references/FormatadorAPA7.ts:543-549 | a formatted part is trimmed and formatting it again changes nothing |
| Formatador.SentenceCaseIdempotente | references/FormatadorAPA7.ts:537-552 | applying sentence case twice is applying it once |
| Formatador.PalavraTitleCaseCaixa | references/FormatadorAPA7.ts:564-583 | each word changes only in case |
| Formatador.AplicarTitleCase | references/FormatadorAPA7.ts:554-586 | title case keeps the length and changes only case |
| Formatador.TitleCasePalavras | references/FormatadorAPA7.ts:562-585 | the output's space-split words are the input's words each transformed by the first-word, after-punctuation, minor-word and default rules |
| Formatador.AbreviarTitulo | references/FormatadorAPA7.ts:592-595 | a title of at most `maxPalavras` words comes back unchanged; a longer one gives "..." after a prefix of the title that holds `maxPalavras - 1` blanks and that the title continues with a blank, that is, its first `maxPalavras` words |
| Formatador.DeveUsarEtAl | references/FormatadorAPA7.ts:421-433 | et al. is used only from the threshold on: on a later citation exactly from the threshold, on a first citation only when `primeiraVez` is also set |
| Formatador.GerarCitacaoNarrativa | references/FormatadorAPA7.ts:467-501 | a corporate author gives its name alone; no author gives the quoted short title; otherwise the citation starts with the first author's surname and ends with " (ano)" |
| Formatador.GerarCitacaoParentetica | references/FormatadorAPA7.ts:503-531 | the citation always ends with ", ano)"; it is the corporate name or the quoted short title in parentheses with the year, and otherwise starts with "(" and the first author's surname |
| Formatador.CitacoesMesmaDecisao | references/FormatadorAPA7.ts:467-531 | the parenthetical citation wraps the same name choice as the narrative one: corporate name or quoted title in parentheses with the year; with authors, " e " becomes " & " |
| Formatador.CitacaoEtAlSoPrimeiroSobrenome | references/FormatadorAPA7.ts:421-433 | at or above the threshold only the first surname and the year matter, giving `(Surname et al., year)` |
| Formatador.CitacaoPorTitulo | references/FormatadorAPA7.ts:472-476 | without authors the narrative citation is the quoted title if it has at most 3 words; otherwise it opens with a quote and ends with "...\"", and between them is the prefix of the title holding exactly two blanks that the title continues with a blank: its first three words |
| Formatador.PartesComEnlace | references/FormatadorAPA7.ts:104-139 | article, book, chapter and thesis segments start with authors and year and end with at most one DOI/URL segment |
| Formatador.DoiOuUrlNoFinal | references/FormatadorAPA7.ts:131-137 | with DOI on and a DOI present the entry ends with " https://doi.org/" + doi; otherwise with URL on and a URL present it ends with " " + url |
| Formatador.AutoresEAnoPrimeiro | references/FormatadorAPA7.ts:107-111 | the entry starts with the author text, a space and "(ano)."; with no author it starts with a space |
| Formatador.PrimeiraEdicaoNaoAnotada | references/FormatadorAPA7.ts:153-158 | an edition of "1" gives the same segments as no edition |
| Formatador.CapituloEdicaoParentesesAberto | references/FormatadorAPA7.ts:192-197 | an annotated chapter edition ends in "ª ed.," without a closing parenthesis, and the next segment opens "(pp. " |
| Formatador.WebsiteSiteSseAutor | references/FormatadorAPA7.ts:215-255 | the site name segment appears iff there is an author distinct from the site; without one the entry starts with the date |
| Formatador.VideoPodcastDescritor | references/FormatadorAPA7.ts:287-351 | videos carry "[Vídeo].", podcasts "[Episódio de podcast].", and a URL comes last |
| Formatador.FormatadorAPA7.FormatarArtigo | references/FormatadorAPA7.ts:104-139 | the pushes build exactly the article segments, joined by spaces |
| Formatador.FormatadorAPA7.FormatarLivro | references/FormatadorAPA7.ts:141-171 | the pushes build exactly the book segments, joined by spaces |
| Formatador.FormatadorAPA7.FormatarCapitulo | references/FormatadorAPA7.ts:173-213 | the pushes build exactly the chapter segments, joined by spaces |
| Formatador.FormatadorAPA7.FormatarWebsite | references/FormatadorAPA7.ts:215-255 | the pushes build exactly the website segments, joined by spaces |
| Formatador.FormatadorAPA7.FormatarTese | references/FormatadorAPA7.ts:257-285 | the pushes build exactly the thesis segments, joined by spaces |
| Formatador.FormatadorAPA7.FormatarVideo | references/FormatadorAPA7.ts:287-315 | the pushes build exactly the video segments, joined by spaces |
| Formatador.FormatadorAPA7.FormatarPodcast | references/FormatadorAPA7.ts:317-351 | the pushes build exactly the podcast segments, joined by spaces |
| Formatador.FormatadorAPA7.FormatarPorTipo | references/FormatadorAPA7.ts:61-81 | the guard chain yields the specified entry for the seven supported kinds and nothing for the other five |
| Formatador.EmBrancoSseTrimVazio | references/FormatadorAPA7.ts:608 | a field is blank iff it trims to "" |
| Formatador.ValidacaoPropriedades | references/FormatadorAPA7.ts:601-652 | `valida` iff no errors iff title and year are not blank; `completa` iff no missing fields and no warnings; no optional fields are listed; a failed validation lists "titulo" or "ano" first |
| Formatador.FormatadorAPA7.Validar | references/FormatadorAPA7.ts:601-652 | the four lists built by the pushes are those of `ValidacaoDe` |
| Formatador.FormatacaoEstrita | references/FormatadorAPA7.ts:50-56 | strict mode with a blank title or year fails with campo_obrigatorio naming the first missing field, before dispatch |
| Formatador.FormatacaoTipoInvalido | references/FormatadorAPA7.ts:58-81 | past validation, formatting fails iff the tag has no formatter, and then with tipo_invalido on field "tipo" |
| Formatador.PartesSseFormatador | references/FormatadorAPA7.ts:61-81 | segments exist iff the tag is one of the eight with a formatter |
| Formatador.FormatacaoSucesso | references/FormatadorAPA7.ts:83-97 | a success reports the reference's own tag, its validation, and the metadata of `GerarMetadados` with its author count |
| Formatador.GerarMetadados | references/FormatadorAPA7.ts:658-666 | `temDOI` and `temURL` hold iff the field is non-empty; the author count is the list's length; `contemAutorCorporativo` iff a corporate author is given; the language is the reference's own, else the configured default |
| Formatador.FormatadorAPA7.Formatar | references/FormatadorAPA7.ts:46-98 | the method returns exactly the result specified by `Formatacao` |
| JsText.Split | references/FormatadorAPA7.ts:541 | `split` on one character gives one more piece than there are separators |
| JsText.JoinSplit | apa-quote-formatter.ts:424 | joining the pieces of a split with the separator gives back the text |
| JsText.SplitJoin | references/FormatadorAPA7.ts:562 | splitting a join of separator-free pieces gives back the pieces |
| JsText.TrimVazio | references/FormatadorAPA7.ts:608 | a string trims to "" iff it is all whitespace |
| APAQuoteFormatter.IssueTypeKeyInjective | apa-quote-formatter.ts:30-36 | the five issue types have five distinct keys |
| APAQuoteFormatter.OffsetsFromSnoc | apa-quote-formatter.ts:425-428 | one more paragraph appends the previous end plus its length plus one |
| APAQuoteFormatter.ParagraphOffsetsShape | apa-quote-formatter.ts:419-429 | the cache has one entry per line, strictly increasing, and the last is one past the end of the text |
| APAQuoteFormatter.QuoteFormatter.BuildParagraphOffsets | apa-quote-formatter.ts:419-429 | the cache is replaced by the running end offsets of the lines; the issues are untouched |
| APAQuoteFormatter.FirstGreater | apa-quote-formatter.ts:444 | the index found is the first offset strictly greater than the position, or the length when none is |
| APAQuoteFormatter.ParagraphNumber | apa-quote-formatter.ts:434-446 | with a cache the number is in 1..its length; without one it is one more than the newlines before the position |
| APAQuoteFormatter.QuoteFormatter.FindParagraphNumber | apa-quote-formatter.ts:434-446 | the fallback and the `findIndex` loop return the number specified by `ParagraphNumber` |
| APAQuoteFormatter.CachedLookupMatchesFallback | apa-quote-formatter.ts:432-446 | after the cache is built for a text, the cached lookup agrees with the newline count, at every position |
| APAQuoteFormatter.FirstGreaterCountsNewlines | apa-quote-formatter.ts:424-445 | over newline-free lines, the capped index of the first offset past a position counts the newlines before it |
| APAQuoteFormatter.CountWords | apa-quote-formatter.ts:412-414 | the count is at least 1 |
| APAQuoteFormatter.CountWordsBlank | apa-quote-formatter.ts:412-414 | a blank text counts as one word |
| APAQuoteFormatter.CountWordsInterleaved | apa-quote-formatter.ts:412-414 | words separated by runs of whitespace count as exactly those words |
| APAQuoteFormatter.SplitInterleaved | apa-quote-formatter.ts:413 | splitting on whitespace runs gives back the words |
| APAQuoteFormatter.CountWordsSingleSpaces | apa-quote-formatter.test.ts:199-202 | "uma duas três quatro cinco" counts 5 |
| APAQuoteFormatter.CountWordsSpaceRuns | apa-quote-formatter.test.ts:204-207 | "uma  duas   três" counts 3 |
| APAQuoteFormatter.CountWordsPunctuation | apa-quote-formatter.test.ts:209-211 | "uma, duas. três! quatro?" counts 4 |
| APAQuoteFormatter.QuoteFormatter.GroupIssuesByType | apa-quote-formatter.ts:496-507 | a key is present iff some issue has that type, and its group is exactly those issues in report order |
| APAQuoteFormatter.IssuesWithKeyAppend | apa-quote-formatter.ts:499-504 | grouping distributes over concatenation, so each group keeps the report's order |
| APAQuoteFormatter.IssuesWithKeyMembers | apa-quote-formatter.ts:499-504 | every issue lands in its own type's group, and a group holds only issues of its type |
| APAQuoteFormatter.IssuesWithUnknownKey | apa-quote-formatter.ts:500-503 | no key other than the five issue types ever gets a group |
| APAQuoteFormatter.GroupSizesSum | apa-quote-formatter.ts:496-507 | the five group sizes sum to the number of issues |
| APAQuoteFormatter.GetIssueTypeLabel | apa-quote-formatter.ts:512-521 | a key in the table gets its label; any other string comes back unchanged |
| APAQuoteFormatter.IssueTypeLabels | apa-quote-formatter.ts:512-521 | exactly the five issue keys have a label, never the bare key; any other string comes back unchanged |

## Left out

- Word document I/O of `QuoteFormatter` is not modelled: `execute`, the quote and punctuation rewriting, long-quote detection, block quotes and `undoChanges`. These are asynchronous host calls driven by regular expressions with lookbehind.
- The dialog and UI code and `generateTextReport` are not modelled. They produce presentation text only.
- `QuoteFormatter`'s `config`, the report counters and `undoStack` are not modelled. None of the five helpers reads them. The modelled constructor takes no configuration.
- Key order of the map `GroupIssuesByType` returns is not modelled. A Dafny `map` has no insertion order.
- GetIssueTypeLabel: keys inherited from a JavaScript object's prototype (`"constructor"`, `"toString"`, …) are treated as unknown. In the source, `labels[type]` would find the inherited member.
- BuildParagraphOffsets: lengths count Unicode characters, not the UTF-16 code units of JavaScript's `.length`. The offsets therefore agree with the source only on text inside the Basic Multilingual Plane; every character outside it (an emoji, say) adds 1 where the source adds 2. `ParagraphOffsets` and `ParagraphOffsetsShape` share this.
- Inicial: the initial is the given name's first Unicode character, where JavaScript's `charAt(0)` takes one UTF-16 code unit and nothing rejoins it. For a given name that starts outside the Basic Multilingual Plane the source writes a lone high surrogate and the model the whole character. `EntradaAutor`, `EntradaEditor`, `EntradasAutores`, `EntradasAutoresPontual`, `TextoEditores`, `DoisEditoresSemVirgula`, `EditoresSufixo`, `FormatarAutores` and `FormatarEditores` share this.
- FindParagraphNumber: `position` and the fallback's `substring(0, position)` count Unicode characters, not UTF-16 code units. A position the host reports in code units past a character outside the Basic Multilingual Plane names a different place in the model. `ParagraphNumber` and `CachedLookupMatchesFallback` share this.
- Case mapping is ASCII-only. Full Unicode `toUpperCase`/`toLowerCase` tables are not modelled.
- Dates are not modelled: `dataAcesso`, `formatoData`, `incluirDataAcesso` and the month tables. The formatter never reads them.
- DeveUsarEtAl: the `primeiraVez` branch is modelled and stated in its contract, but no caller reaches it. Both citations pass `false`.
- The website, video and podcast formatters ignore the DOI/URL options, as the source does. They only append `url` when present.
- `ValidationIssue.type` is named `issueType`, because `type` is a Dafny keyword.
- The social-media `plataforma` field is named `plataformaSocial`, because Dafny requires same-named fields to share one type.
