/**
  The APA 7 reference formatter (references/FormatadorAPA7.ts).

  The pure parts of the class (case transformers, title abbreviation, the
  et-al. decision, the two in-text citations, the metadata) are functions of
  the configuration and the record. The parts that the source builds step by
  step (the `partes` arrays of the per-type formatters, the author and editor
  lists, the four lists of `validar`, the dispatch of `formatar`) are methods
  of the class `FormatadorAPA7`, each proved equal to a specification
  function; what the source promises is proved about those functions.
 */
module Formatador {
  import opened JsText
  import opened Types

  // ===========================================================================
  // Configuration
  // ===========================================================================

  /** The defaults merged into the caller's options by the constructor: an
      option given is kept, an option left out takes its default, whatever
      else is given. Booleans use `??`, so an explicit `false` is kept; the
      et-al. threshold uses `|| 3`, so an explicit 0 becomes 3. */
  function MesclarPadroes(c: ConfiguracaoParcial): (cfg: ConfiguracaoAPA)
    ensures cfg.usarEtAl.apartirDeQuantosAutores != 0
    ensures c.incluirDOI.Some? ==> cfg.incluirDOI == c.incluirDOI.value
    ensures c.incluirURL.Some? ==> cfg.incluirURL == c.incluirURL.value
    ensures c.validacaoEstrita.Some? ==> cfg.validacaoEstrita == c.validacaoEstrita.value
    ensures c.incluirDataAcesso.Some? ==> cfg.incluirDataAcesso == c.incluirDataAcesso.value
    ensures c.idiomaPadrao.Some? ==> cfg.idiomaPadrao == c.idiomaPadrao.value
    ensures c.formatoData.Some? ==> cfg.formatoData == c.formatoData.value
    ensures c.usarEtAl.Some? && c.usarEtAl.value.primeiraVez.Some?
      ==> cfg.usarEtAl.primeiraVez == c.usarEtAl.value.primeiraVez.value
    ensures c.usarEtAl.Some? && c.usarEtAl.value.apartirDeQuantosAutores.Some?
            && c.usarEtAl.value.apartirDeQuantosAutores.value != 0
      ==> cfg.usarEtAl.apartirDeQuantosAutores == c.usarEtAl.value.apartirDeQuantosAutores.value
    ensures c.idiomaPadrao.None? ==> cfg.idiomaPadrao == Pt
    ensures c.formatoData.None? ==> cfg.formatoData == Completo
    ensures c.incluirDOI.None? ==> cfg.incluirDOI
    ensures c.incluirURL.None? ==> cfg.incluirURL
    ensures c.incluirDataAcesso.None? ==> !cfg.incluirDataAcesso
    ensures c.validacaoEstrita.None? ==> cfg.validacaoEstrita
    ensures c.usarEtAl.None? || c.usarEtAl.value.primeiraVez.None? ==> !cfg.usarEtAl.primeiraVez
    ensures c.usarEtAl.None? || c.usarEtAl.value.apartirDeQuantosAutores.None?
            || c.usarEtAl.value.apartirDeQuantosAutores == Some(0)
      ==> cfg.usarEtAl.apartirDeQuantosAutores == 3
  {
    var etAl := if c.usarEtAl.Some? then c.usarEtAl.value else UsarEtAlParcial(None, None);
    ConfiguracaoAPA(
      idiomaPadrao := if c.idiomaPadrao.Some? then c.idiomaPadrao.value else Pt,
      formatoData := if c.formatoData.Some? then c.formatoData.value else Completo,
      incluirDOI := if c.incluirDOI.Some? then c.incluirDOI.value else true,
      incluirURL := if c.incluirURL.Some? then c.incluirURL.value else true,
      incluirDataAcesso := if c.incluirDataAcesso.Some? then c.incluirDataAcesso.value else false,
      validacaoEstrita := if c.validacaoEstrita.Some? then c.validacaoEstrita.value else true,
      usarEtAl := UsarEtAl(
        apartirDeQuantosAutores :=
          if etAl.apartirDeQuantosAutores.Some? && etAl.apartirDeQuantosAutores.value != 0
          then etAl.apartirDeQuantosAutores.value else 3,
        primeiraVez := if etAl.primeiraVez.Some? then etAl.primeiraVez.value else false))
  }

  const SEM_OPCOES := ConfiguracaoParcial(None, None, None, None, None, None, None)

  /** With no options the formatter uses Portuguese, full dates, DOI and URL,
      no access date, strict validation and et al. from three authors. */
  lemma ConfiguracaoPadrao()
    ensures MesclarPadroes(SEM_OPCOES)
         == ConfiguracaoAPA(Pt, Completo, true, true, false, true, UsarEtAl(3, false))
  {
  }

  /** A threshold of 0 is treated as absent; any other threshold is kept,
      whatever `primeiraVez` is. */
  lemma LimiarZeroViraTres(c: ConfiguracaoParcial, n: int)
    requires c.usarEtAl.Some? && c.usarEtAl.value.apartirDeQuantosAutores == Some(n)
    ensures MesclarPadroes(c).usarEtAl.apartirDeQuantosAutores == if n == 0 then 3 else n
  {
  }

  // ===========================================================================
  // Authors and editors
  // ===========================================================================

  /** Initial of the given name plus, when present, the middle initial. */
  function Inicial(a: Autor): string {
    if a.inicialMeio != "" then CharAt(a.nome, 0) + ". " + a.inicialMeio + "."
    else CharAt(a.nome, 0) + "."
  }

  /** `Surname, I.` as listed among the authors. */
  function EntradaAutor(a: Autor): string {
    a.sobrenome + ", " + Inicial(a)
  }

  /** `I. Surname` as listed among the editors. */
  function EntradaEditor(e: Autor): string {
    Inicial(e) + " " + e.sobrenome
  }

  /** The list `autoresFormatados`: every author up to 20; beyond 20, the
      first 19, the token "...", and the last author. */
  function EntradasAutores(autores: seq<Autor>): (es: seq<string>)
    ensures |autores| <= 20 ==> |es| == |autores|
    ensures |autores| > 20 ==> |es| == 21 && es[19] == "..." && es[20] == EntradaAutor(autores[|autores| - 1])
  {
    if |autores| <= 20 then CadaEntradaAutor(autores)
    else CadaEntradaAutor(autores[..19]) + ["..."] + [EntradaAutor(autores[|autores| - 1])]
  }

  /** Up to 20 authors every one is listed; beyond, the first 19 are. */
  lemma EntradasAutoresPontual(autores: seq<Autor>)
    ensures var es := EntradasAutores(autores);
      |autores| <= 20 ==> forall i :: 0 <= i < |es| ==> es[i] == EntradaAutor(autores[i])
    ensures var es := EntradasAutores(autores);
      |autores| > 20 ==> forall i :: 0 <= i < 19 ==> es[i] == EntradaAutor(autores[i])
  {
    if |autores| <= 20 {
      CadaEntradaAutorPontual(autores);
    } else {
      CadaEntradaAutorPontual(autores[..19]);
    }
  }

  /** `EntradaAutor` applied to every author. */
  function CadaEntradaAutor(autores: seq<Autor>): (es: seq<string>)
    ensures |es| == |autores|
  {
    if |autores| == 0 then [] else [EntradaAutor(autores[0])] + CadaEntradaAutor(autores[1..])
  }

  lemma {:induction false} CadaEntradaAutorSnoc(autores: seq<Autor>, a: Autor)
    ensures CadaEntradaAutor(autores + [a]) == CadaEntradaAutor(autores) + [EntradaAutor(a)]
  {
    if |autores| > 0 {
      assert (autores + [a])[1..] == autores[1..] + [a];
      CadaEntradaAutorSnoc(autores[1..], a);
    } else {
      assert autores + [a] == [a];
    }
  }

  lemma {:induction false} CadaEntradaEditorSnoc(editores: seq<Autor>, e: Autor)
    ensures CadaEntradaEditor(editores + [e]) == CadaEntradaEditor(editores) + [EntradaEditor(e)]
  {
    if |editores| > 0 {
      assert (editores + [e])[1..] == editores[1..] + [e];
      CadaEntradaEditorSnoc(editores[1..], e);
    } else {
      assert editores + [e] == [e];
    }
  }

  /** One more author of the prefix adds one more entry. */
  lemma CadaEntradaAutorPrefixo(autores: seq<Autor>, i: nat)
    requires i < |autores|
    ensures CadaEntradaAutor(autores[..i + 1]) == CadaEntradaAutor(autores[..i]) + [EntradaAutor(autores[i])]
  {
    assert autores[..i + 1] == autores[..i] + [autores[i]];
    CadaEntradaAutorSnoc(autores[..i], autores[i]);
  }

  /** One more editor of the prefix adds one more entry. */
  lemma CadaEntradaEditorPrefixo(editores: seq<Autor>, i: nat)
    requires i < |editores|
    ensures CadaEntradaEditor(editores[..i + 1]) == CadaEntradaEditor(editores[..i]) + [EntradaEditor(editores[i])]
  {
    assert editores[..i + 1] == editores[..i] + [editores[i]];
    CadaEntradaEditorSnoc(editores[..i], editores[i]);
  }

  lemma {:induction false} CadaEntradaAutorPontual(autores: seq<Autor>)
    ensures forall i :: 0 <= i < |autores| ==> CadaEntradaAutor(autores)[i] == EntradaAutor(autores[i])
  {
    if |autores| > 0 {
      CadaEntradaAutorPontual(autores[1..]);
    }
  }

  /** `EntradaEditor` applied to every editor. */
  function CadaEntradaEditor(editores: seq<Autor>): (es: seq<string>)
    ensures |es| == |editores|
  {
    if |editores| == 0 then [] else [EntradaEditor(editores[0])] + CadaEntradaEditor(editores[1..])
  }

  lemma {:induction false} CadaEntradaEditorPontual(editores: seq<Autor>)
    ensures forall i :: 0 <= i < |editores| ==> CadaEntradaEditor(editores)[i] == EntradaEditor(editores[i])
  {
    if |editores| > 0 {
      CadaEntradaEditorPontual(editores[1..]);
    }
  }

  /** The join of `autoresFormatados`: `A.`, `A, & B.` or `A, B, & C.`; the
      final period is added after each entry's own initial period. */
  function JuntarAutores(es: seq<string>): string
    requires |es| > 0
  {
    if |es| == 1 then es[0] + "."
    else if |es| == 2 then es[0] + ", & " + es[1] + "."
    else Join(es[..|es| - 1], ", ") + ", & " + es[|es| - 1] + "."
  }

  /** What `formatarAutores` returns. */
  function TextoAutores(autores: seq<Autor>, autorCorporativo: Option<AutorCorporativo>): string {
    if autorCorporativo.Some? then autorCorporativo.value.nomeCompleto + "."
    else if |autores| == 0 then ""
    else JuntarAutores(EntradasAutores(autores))
  }

  /** What `formatarEditores` returns. */
  function TextoEditores(editores: seq<Autor>): string {
    if |editores| == 0 then ""
    else
      var sufixo := if |editores| == 1 then ABREVIACOES.ed else ABREVIACOES.eds;
      JuntarEditores(CadaEntradaEditor(editores)) + (" (" + sufixo + "),")
  }

  /** The join of `editoresFormatados`, before the suffix: `A`, `A & B` or
      `A, B, & C`. */
  function JuntarEditores(es: seq<string>): string
    requires |es| > 0
  {
    if |es| == 1 then es[0]
    else if |es| == 2 then es[0] + " & " + es[1]
    else Join(es[..|es| - 1], ", ") + ", & " + es[|es| - 1]
  }

  lemma JuntarEditoresComeca(es: seq<string>)
    requires |es| > 0
    ensures StartsWith(JuntarEditores(es), es[0])
  {
    if |es| > 2 {
      var cabeca := Join(es[..|es| - 1], ", ");
      assert StartsWith(cabeca, es[0]);
      StartsWithConcat(cabeca, ", & " + es[|es| - 1]);
      StartsWithTransitivo(JuntarEditores(es), cabeca, es[0]);
    }
  }

  /** A corporate author wins: the result is its name and a period, whatever
      the author list holds. Without one, no authors give "". */
  lemma AutoresCorporativoPrevalece(autores: seq<Autor>, outros: seq<Autor>, c: AutorCorporativo)
    ensures TextoAutores(autores, Some(c)) == c.nomeCompleto + "."
    ensures TextoAutores(autores, Some(c)) == TextoAutores(outros, Some(c))
    ensures TextoAutores([], None) == ""
  {
  }

  /** Beyond 20 authors only the first 19 and the last one matter: authors
      20 to n-1 never reach the output. */
  lemma AutoresMaisDeVinteIgnoraMeio(a: seq<Autor>, b: seq<Autor>)
    requires |a| > 20 && |b| > 20
    requires a[..19] == b[..19] && a[|a| - 1] == b[|b| - 1]
    ensures TextoAutores(a, None) == TextoAutores(b, None)
  {
    assert forall i :: 0 <= i < 19 ==> a[i] == a[..19][i] && b[i] == b[..19][i];
    assert EntradasAutores(a) == EntradasAutores(b);
  }

  /** For two or more entries the result is always "all but the last,
      comma-joined, then `, & ` and the last, then a period"; the two-entry
      case of the source is that same rule. */
  lemma {:induction false} AutoresJuncaoUniforme(autores: seq<Autor>)
    requires |autores| > 0
    requires |EntradasAutores(autores)| >= 2
    ensures var es := EntradasAutores(autores);
      TextoAutores(autores, None) == Join(es[..|es| - 1], ", ") + ", & " + es[|es| - 1] + "."
  {
    var es := EntradasAutores(autores);
    if |es| == 2 {
      assert es[..1] == [es[0]];
    }
  }

  /** Every individual author entry ends in its initial's period, and the
      joiner adds one more: a non-empty list without a corporate author
      always ends in "..". */
  lemma AutoresTerminamEmPontoDuplo(autores: seq<Autor>)
    requires |autores| > 0
    ensures EndsWith(TextoAutores(autores, None), "..")
  {
    var es := EntradasAutores(autores);
    var e := es[|es| - 1];
    assert |e| > 0 && e[|e| - 1] == '.' by {
      EntradasAutoresPontual(autores);
      assert e == EntradaAutor(autores[|autores| - 1]);
    }
    JuntarAutoresTermina(es);
    PontoDuplo(JuntarAutores(es), e);
  }

  /** A string ending in a period-terminated piece plus "." ends in "..". */
  lemma PontoDuplo(s: string, e: string)
    requires |e| > 0 && e[|e| - 1] == '.'
    requires EndsWith(s, e + ".")
    ensures EndsWith(s, "..")
  {
    EndsWithConcat(e, ".");
    EndsWithTransitivo(s, e + ".", "..");
  }

  /** The joined author list ends with its last entry and a period. */
  lemma JuntarAutoresTermina(es: seq<string>)
    requires |es| > 0
    ensures EndsWith(JuntarAutores(es), es[|es| - 1] + ".")
  {
    var u := es[|es| - 1] + ".";
    if |es| == 2 {
      assert JuntarAutores(es) == (es[0] + ", & ") + u;
    } else if |es| > 2 {
      assert JuntarAutores(es) == (Join(es[..|es| - 1], ", ") + ", & ") + u;
    }
  }

  /** One editor takes `(ed.),`, several take `(eds.),`, none give "". */
  lemma EditoresSufixo(editores: seq<Autor>)
    ensures |editores| == 0 ==> TextoEditores(editores) == ""
    ensures |editores| == 1 ==> EndsWith(TextoEditores(editores), " (ed.),")
    ensures |editores| >= 2 ==> EndsWith(TextoEditores(editores), " (eds.),")
    ensures |editores| >= 1 ==> StartsWith(TextoEditores(editores), EntradaEditor(editores[0]))
  {
    if |editores| > 0 {
      var es := CadaEntradaEditor(editores);
      CadaEntradaEditorPontual(editores);
      var sufixo := if |editores| == 1 then ABREVIACOES.ed else ABREVIACOES.eds;
      var j := JuntarEditores(es);
      SufixosEditores();
      EndsWithConcat(j, " (" + sufixo + "),");
      JuntarEditoresComeca(es);
      StartsWithConcat(j, " (" + sufixo + "),");
      StartsWithTransitivo(TextoEditores(editores), j, es[0]);
    }
  }

  /** The two editor suffixes, spelled out. */
  lemma SufixosEditores()
    ensures " (" + ABREVIACOES.ed + ")," == " (ed.),"
    ensures " (" + ABREVIACOES.eds + ")," == " (eds.),"
  {
  }

  /** Two editors are joined with a bare `&`, two authors with `, &`. */
  lemma DoisEditoresSemVirgula(a: Autor, b: Autor)
    ensures TextoEditores([a, b]) == EntradaEditor(a) + " & " + EntradaEditor(b) + " (eds.),"
    ensures TextoAutores([a, b], None) == EntradaAutor(a) + ", & " + EntradaAutor(b) + "."
  {
    CadaEntradaEditorPontual([a, b]);
    EntradasAutoresPontual([a, b]);
  }

  // ===========================================================================
  // Case transformers
  // ===========================================================================

  /** `capitalizarPrimeira`: the same letters, the first one upper case and
      every other one lower case (ASCII letters only). */
  function CapitalizarPrimeira(texto: string): (r: string)
    ensures |r| == |texto|
    ensures forall i :: 0 <= i < |r| ==> r[i] == (if i == 0 then ToUpperChar(texto[0]) else ToLowerChar(texto[i]))
  {
    var resto := if |texto| > 0 then texto[1..] else "";
    ToUpperPontual(CharAt(texto, 0));
    ToLowerPontual(resto);
    ToUpper(CharAt(texto, 0)) + ToLower(resto)
  }

  /** `capitalizarPrimeira` changes letter case only, and leaves no lower
      case first letter and no upper case letter after it. */
  lemma CapitalizarPrimeiraCaixa(texto: string)
    ensures var r := CapitalizarPrimeira(texto);
      ToLower(r) == ToLower(texto)
      && (|r| > 0 ==> !IsLowerAscii(r[0]))
      && (forall i :: 1 <= i < |r| ==> !IsUpperAscii(r[i]))
  {
    var r := CapitalizarPrimeira(texto);
    ToLowerPontual(r);
    ToLowerPontual(texto);
    forall i | 0 <= i < |r| ensures ToLower(r)[i] == ToLower(texto)[i] {
    }
  }

  /** Capitalizing twice is capitalizing once. */
  lemma CapitalizarPrimeiraIdempotente(texto: string)
    ensures CapitalizarPrimeira(CapitalizarPrimeira(texto)) == CapitalizarPrimeira(texto)
  {
    var r := CapitalizarPrimeira(texto);
    forall i | 0 <= i < |r| ensures CapitalizarPrimeira(r)[i] == r[i] {
    }
  }

  /** One colon-delimited part of a title in sentence case. */
  function ParteSentenceCase(parte: string): string {
    var t := Trim(parte);
    if |t| == 0 then "" else CapitalizarPrimeira(t)
  }

  /** `ParteSentenceCase` applied to every part. */
  function CadaParteSentenceCase(partes: seq<string>): (r: seq<string>)
    ensures |r| == |partes|
  {
    if |partes| == 0 then [] else [ParteSentenceCase(partes[0])] + CadaParteSentenceCase(partes[1..])
  }

  lemma {:induction false} CadaParteSentenceCasePontual(partes: seq<string>)
    ensures forall i :: 0 <= i < |partes| ==> CadaParteSentenceCase(partes)[i] == ParteSentenceCase(partes[i])
  {
    if |partes| > 0 {
      CadaParteSentenceCasePontual(partes[1..]);
    }
  }

  /** `aplicarSentenceCase`. */
  function AplicarSentenceCase(texto: string): (r: string)
    ensures Count(r, ':') == Count(texto, ':')
  {
    if texto == "" then ""
    else
      PartesSentenceCaseDoisPontos(texto);
      Join(CadaParteSentenceCase(Split(texto, ':')), ": ")
  }

  /** The sixteen minor words of title case. */
  const PALAVRAS_MENORES: seq<string> :=
    ["a", "an", "the", "and", "but", "or", "for", "nor", "on", "at", "to", "by", "of", "in", "with", "as"]

  /** `/[:.?!]$/.test(palavra)`. */
  predicate TerminaComPontuacaoForte(palavra: string) {
    |palavra| > 0 && palavra[|palavra| - 1] in ":.?!"
  }

  /** Word `i` of a title in title case. */
  function PalavraTitleCase(palavras: seq<string>, i: nat): string
    requires i < |palavras|
  {
    if i == 0 then CapitalizarPrimeira(palavras[0])
    else if palavras[i - 1] != "" && TerminaComPontuacaoForte(palavras[i - 1]) then CapitalizarPrimeira(palavras[i])
    else if ToLower(palavras[i]) in PALAVRAS_MENORES then ToLower(palavras[i])
    else CapitalizarPrimeira(palavras[i])
  }

  /** Each title-case word differs from its source word in letter case only. */
  lemma PalavraTitleCaseCaixa(palavras: seq<string>, i: nat)
    requires i < |palavras|
    ensures ToLower(PalavraTitleCase(palavras, i)) == ToLower(palavras[i])
  {
    CapitalizarPrimeiraCaixa(palavras[i]);
  }

  /** The words of a title in title case: `palavras.map` with the index. */
  function PalavrasTitleCase(palavras: seq<string>): (r: seq<string>)
    ensures |r| == |palavras|
  {
    seq(|palavras|, k requires 0 <= k < |palavras| => PalavraTitleCase(palavras, k))
  }

  /** `aplicarTitleCase`. */
  function AplicarTitleCase(texto: string): (r: string)
    ensures |r| == |texto|
    ensures ToLower(r) == ToLower(texto)
  {
    if texto == "" then ""
    else
      PalavrasTitleCaseSoMudamCaixa(texto);
      Join(PalavrasTitleCase(Split(texto, ' ')), " ")
  }

  /** `abreviarTitulo`: the first `maxPalavras` space-separated words, and
      "..." when there were more. A title of at most `maxPalavras` words comes
      back unchanged; a longer one becomes a prefix of it holding
      `maxPalavras - 1` blanks, cut just before a blank, followed by "...". */
  function AbreviarTitulo(titulo: string, maxPalavras: nat := 3): (r: string)
    ensures |Split(titulo, ' ')| <= maxPalavras ==> r == titulo
    ensures |Split(titulo, ' ')| > maxPalavras ==> EndsWith(r, "...")
    ensures 1 <= maxPalavras < |Split(titulo, ' ')| ==>
      |r| >= 3 && StartsWith(titulo, r[..|r| - 3] + " ") && Count(r[..|r| - 3], ' ') == maxPalavras - 1
  {
    var palavras := Split(titulo, ' ');
    var k := if maxPalavras < |palavras| then maxPalavras else |palavras|;
    PrimeirasPalavras(titulo, k);
    Join(palavras[..k], " ") + (if |palavras| > maxPalavras then "..." else "")
  }

  lemma ToLowerCharSpace(c: char)
    ensures ToLowerChar(c) == ' ' <==> c == ' '
    ensures ToLowerChar(c) == ':' <==> c == ':'
  {
  }

  /** A string equal to `t` up to case holds `c` iff `t` does, when `c` is
      not a letter. */
  lemma SemCaractereAposCaixa(r: string, t: string, c: char)
    requires ToLower(r) == ToLower(t)
    requires c == ' ' || c == ':'
    requires c !in t
    ensures c !in r
  {
    if c in r {
      var i :| 0 <= i < |r| && r[i] == c;
      ToLowerPontual(r);
      ToLowerPontual(t);
      ToLowerCharSpace(r[i]);
      ToLowerCharSpace(t[i]);
      assert false;
    }
  }

  /** Sentence case of one part brings in no blank and no colon. */
  lemma ParteSentenceCaseSemCaractere(parte: string, c: char)
    requires c == ' ' || c == ':'
    requires c !in parte
    ensures c !in ParteSentenceCase(parte)
  {
    var t := Trim(parte);
    TrimMantemCaracteres(parte, c);
    if |t| > 0 {
      CapitalizarPrimeiraCaixa(t);
      SemCaractereAposCaixa(CapitalizarPrimeira(t), t, c);
    }
  }

  /** No part of a sentence-cased title holds a colon. */
  lemma PartesSentenceCaseSemDoisPontos(texto: string)
    ensures forall i :: 0 <= i < |Split(texto, ':')| ==> ':' !in CadaParteSentenceCase(Split(texto, ':'))[i]
  {
    var partes := Split(texto, ':');
    SplitSemSeparador(texto, ':');
    CadaParteSentenceCasePontual(partes);
    forall i | 0 <= i < |partes| ensures ':' !in CadaParteSentenceCase(partes)[i] {
      ParteSentenceCaseSemCaractere(partes[i], ':');
    }
  }

  /** Rejoining the sentence-cased parts with ": " keeps every colon: one
      per separator, none inside a part. */
  lemma PartesSentenceCaseDoisPontos(texto: string)
    ensures Count(Join(CadaParteSentenceCase(Split(texto, ':')), ": "), ':') == Count(texto, ':')
  {
    var fs := CadaParteSentenceCase(Split(texto, ':'));
    PartesSentenceCaseSemDoisPontos(texto);
    assert Count(": ", ':') == 1 by {
      assert ": "[1..] == " ";
      assert " "[1..] == "";
    }
    CountJoin(fs, ": ", ':');
  }

  /** A part already in sentence case is left unchanged by it. */
  lemma ParteSentenceCaseIdempotente(parte: string)
    ensures ParteSentenceCase(ParteSentenceCase(parte)) == ParteSentenceCase(parte)
    ensures var p := ParteSentenceCase(parte); p == [] || (!IsWhitespace(p[0]) && !IsWhitespace(p[|p| - 1]))
  {
    var t := Trim(parte);
    if |t| > 0 {
      var c := CapitalizarPrimeira(t);
      TrimOfTrimmed(c);
      CapitalizarPrimeiraIdempotente(t);
    }
  }

  /** Every part with a blank put in front of it. */
  function ComEspacoAntes(fs: seq<string>): (gs: seq<string>)
    ensures |gs| == |fs|
  {
    if |fs| == 0 then [] else [" " + fs[0]] + ComEspacoAntes(fs[1..])
  }

  lemma {:induction false} ComEspacoAntesPontual(fs: seq<string>)
    ensures forall i :: 0 <= i < |fs| ==> ComEspacoAntes(fs)[i] == " " + fs[i]
  {
    if |fs| > 0 {
      ComEspacoAntesPontual(fs[1..]);
    }
  }

  /** `Join(fs, ": ")` is the ':'-join of the parts with a blank put before
      every part but the first. */
  lemma {:induction false} JoinDoisPontosEspaco(fs: seq<string>)
    requires |fs| > 0
    ensures Join(fs, ": ") == Join([fs[0]] + ComEspacoAntes(fs[1..]), ":")
  {
    var gs := ComEspacoAntes(fs[1..]);
    assert ([fs[0]] + gs)[1..] == gs;
    if |fs| > 1 {
      var hs := ComEspacoAntes(fs[2..]);
      assert fs[1..][1..] == fs[2..];
      JoinDoisPontosEspaco(fs[1..]);
      assert gs == [" " + fs[1]] + hs;
      JoinPrefixoPrimeira(" ", fs[1], hs, ":");
      DoisPontosEspaco(fs[0], Join([fs[1]] + hs, ":"));
    }
  }

  /** ": " between two strings is ":" followed by a blank on the second. */
  lemma DoisPontosEspaco(a: string, b: string)
    ensures a + ": " + b == a + ":" + (" " + b)
  {
  }

  /** Splitting a sentence-cased title at ':' gives back its parts, every
      part after the first with the blank that ": " put before it. */
  lemma SplitSentenceCase(texto: string)
    requires texto != ""
    ensures var fs := CadaParteSentenceCase(Split(texto, ':'));
      Split(AplicarSentenceCase(texto), ':') == [fs[0]] + ComEspacoAntes(fs[1..])
  {
    var fs := CadaParteSentenceCase(Split(texto, ':'));
    var gs := [fs[0]] + ComEspacoAntes(fs[1..]);
    JoinDoisPontosEspaco(fs);
    PartesSentenceCaseSemDoisPontos(texto);
    ComEspacoAntesPontual(fs[1..]);
    forall i | 0 <= i < |gs| ensures ':' !in gs[i] {
      if i > 0 {
        assert gs[i] == " " + fs[i];
      }
    }
    SplitJoin(gs, ':');
  }

  /** Sentence case maps the parts of a sentence-cased title, blanks in
      front included, back onto themselves. */
  lemma CadaParteSentenceCaseEstavel(partes: seq<string>)
    requires |partes| > 0
    ensures var fs := CadaParteSentenceCase(partes);
      CadaParteSentenceCase([fs[0]] + ComEspacoAntes(fs[1..])) == fs
  {
    var fs := CadaParteSentenceCase(partes);
    var gs := [fs[0]] + ComEspacoAntes(fs[1..]);
    var fs2 := CadaParteSentenceCase(gs);
    ComEspacoAntesPontual(fs[1..]);
    CadaParteSentenceCasePontual(partes);
    CadaParteSentenceCasePontual(gs);
    forall i | 0 <= i < |fs| ensures fs2[i] == fs[i] {
      assert fs2[i] == ParteSentenceCase(gs[i]) && fs[i] == ParteSentenceCase(partes[i]);
      if i > 0 {
        assert gs[i] == " " + fs[i];
        ParteComEspacoEstavel(partes[i]);
      } else {
        ParteSentenceCaseIdempotente(partes[i]);
      }
    }
  }

  /** A sentence-cased part with a blank in front sentence-cases to itself. */
  lemma ParteComEspacoEstavel(parte: string)
    ensures ParteSentenceCase(" " + ParteSentenceCase(parte)) == ParteSentenceCase(parte)
  {
    ParteSentenceCaseIdempotente(parte);
    TrimLeadingSpace(ParteSentenceCase(parte));
  }

  /** Sentence case is idempotent. */
  lemma SentenceCaseIdempotente(texto: string)
    ensures AplicarSentenceCase(AplicarSentenceCase(texto)) == AplicarSentenceCase(texto)
  {
    if texto != "" {
      var r := AplicarSentenceCase(texto);
      if r != "" {
        SplitSentenceCase(texto);
        CadaParteSentenceCaseEstavel(Split(texto, ':'));
      }
    }
  }

  function CadaToLower(ws: seq<string>): (r: seq<string>)
    ensures |r| == |ws|
    ensures forall i :: 0 <= i < |r| ==> r[i] == ToLower(ws[i])
  {
    if |ws| == 0 then [] else [ToLower(ws[0])] + CadaToLower(ws[1..])
  }

  /** Rejoining the title-cased words changes only letter case: lower-casing
      it gives the lower-cased text, and the length is kept. */
  lemma PalavrasTitleCaseSoMudamCaixa(texto: string)
    ensures var r := Join(PalavrasTitleCase(Split(texto, ' ')), " ");
      ToLower(r) == ToLower(texto) && |r| == |texto|
  {
    var palavras := Split(texto, ' ');
    var ws := PalavrasTitleCase(palavras);
    var lowered := CadaToLower(palavras);
    forall i | 0 <= i < |palavras| ensures lowered[i] == ToLower(ws[i]) {
      PalavraTitleCaseCaixa(palavras, i);
    }
    ToLowerJoin(ws, lowered, " ");
    ToLowerJoin(palavras, lowered, " ");
    JoinSplit(texto, ' ');
  }

  /** The words of the title-cased output are the input's words, each
      transformed by the title-case rule for its position. */
  lemma TitleCasePalavras(texto: string)
    requires texto != ""
    ensures Split(AplicarTitleCase(texto), ' ') == PalavrasTitleCase(Split(texto, ' '))
  {
    var palavras := Split(texto, ' ');
    var ws := PalavrasTitleCase(palavras);
    SplitSemSeparador(texto, ' ');
    forall i | 0 <= i < |ws| ensures ' ' !in ws[i] {
      PalavraTitleCaseCaixa(palavras, i);
      SemCaractereAposCaixa(ws[i], palavras[i], ' ');
    }
    SplitJoin(ws, ' ');
  }

  /** The first `k` words of a title, rejoined: the whole title when `k`
      takes every word; otherwise a prefix holding `k - 1` blanks that the
      title continues with a blank. */
  lemma PrimeirasPalavras(titulo: string, k: nat)
    requires k <= |Split(titulo, ' ')|
    ensures var palavras := Split(titulo, ' '); var p := Join(palavras[..k], " ");
      (k == |palavras| ==> p == titulo)
      && (1 <= k < |palavras| ==> StartsWith(titulo, p + " ") && Count(p, ' ') == k - 1)
  {
    var palavras := Split(titulo, ' ');
    var p := Join(palavras[..k], " ");
    JoinSplit(titulo, ' ');
    if k == |palavras| {
      assert palavras[..k] == palavras;
    } else if k >= 1 {
      assert palavras == palavras[..k] + palavras[k..];
      JoinAppend(palavras[..k], palavras[k..], " ");
      assert titulo == p + " " + Join(palavras[k..], " ");
      SplitSemSeparador(titulo, ' ');
      forall i | 0 <= i < k ensures ' ' !in palavras[..k][i] {
        assert palavras[..k][i] == palavras[i];
      }
      CountJoin(palavras[..k], " ", ' ');
    }
  }

  // ===========================================================================
  // In-text citations
  // ===========================================================================

  /** `deveUsarEtAl`: from the threshold on; on a first citation only if
      the configuration says so. */
  function DeveUsarEtAl(cfg: ConfiguracaoAPA, quantidadeAutores: int, primeiraCitacao: bool): (usar: bool)
    ensures usar ==> quantidadeAutores >= cfg.usarEtAl.apartirDeQuantosAutores
    ensures !primeiraCitacao ==> (usar <==> quantidadeAutores >= cfg.usarEtAl.apartirDeQuantosAutores)
    ensures primeiraCitacao ==> (usar <==> quantidadeAutores >= cfg.usarEtAl.apartirDeQuantosAutores && cfg.usarEtAl.primeiraVez)
  {
    if quantidadeAutores >= cfg.usarEtAl.apartirDeQuantosAutores then
      (if primeiraCitacao then cfg.usarEtAl.primeiraVez else true)
    else false
  }

  function Sobrenomes(autores: seq<Autor>): (nomes: seq<string>)
    ensures |nomes| == |autores|
  {
    if |autores| == 0 then [] else [autores[0].sobrenome] + Sobrenomes(autores[1..])
  }

  lemma {:induction false} SobrenomesPontual(autores: seq<Autor>)
    ensures forall i :: 0 <= i < |autores| ==> Sobrenomes(autores)[i] == autores[i].sobrenome
  {
    if |autores| > 0 {
      SobrenomesPontual(autores[1..]);
    }
  }

  /** `gerarCitacaoNarrativa`: the corporate name alone; else the quoted
      short title; else the names, led by the first author's surname and
      followed by the year in parentheses. */
  function GerarCitacaoNarrativa(cfg: ConfiguracaoAPA, ref: Referencia): (c: string)
    ensures ref.base.autorCorporativo.Some? ==> c == ref.base.autorCorporativo.value.nomeCompleto
    ensures ref.base.autorCorporativo.None? && |ref.base.autores| == 0 ==>
      c == "\"" + AbreviarTitulo(ref.base.titulo) + "\""
    ensures ref.base.autorCorporativo.None? && |ref.base.autores| > 0 ==>
      StartsWith(c, ref.base.autores[0].sobrenome) && EndsWith(c, " (" + ref.base.ano + ")")
  {
    var b := ref.base;
    var n := |b.autores|;
    if b.autorCorporativo.Some? then b.autorCorporativo.value.nomeCompleto
    else if n == 0 then "\"" + AbreviarTitulo(b.titulo) + "\""
    else
      var nomes :=
        if DeveUsarEtAl(cfg, n, false) then b.autores[0].sobrenome + " " + ABREVIACOES.et_al
        else if n == 1 then b.autores[0].sobrenome
        else if n == 2 then b.autores[0].sobrenome + " e " + b.autores[1].sobrenome
        else Join(Sobrenomes(b.autores)[..n - 1], ", ") + " e " + Sobrenomes(b.autores)[n - 1];
      NomesComecamPeloPrimeiro(b.autores, " e ");
      AnoAposNomes(nomes, b.ano, b.autores[0].sobrenome);
      nomes + " (" + b.ano + ")"
  }

  /** `gerarCitacaoParentetica`: in parentheses, the corporate name, the
      quoted short title or the names led by the first author's surname,
      then a comma and the year. */
  function GerarCitacaoParentetica(cfg: ConfiguracaoAPA, ref: Referencia): (c: string)
    ensures EndsWith(c, ", " + ref.base.ano + ")")
    ensures ref.base.autorCorporativo.Some? ==>
      c == "(" + ref.base.autorCorporativo.value.nomeCompleto + ", " + ref.base.ano + ")"
    ensures ref.base.autorCorporativo.None? && |ref.base.autores| == 0 ==>
      c == "(" + ("\"" + AbreviarTitulo(ref.base.titulo) + "\"") + ", " + ref.base.ano + ")"
    ensures ref.base.autorCorporativo.None? && |ref.base.autores| > 0 ==>
      StartsWith(c, "(" + ref.base.autores[0].sobrenome)
  {
    var b := ref.base;
    var n := |b.autores|;
    var nomes :=
      if b.autorCorporativo.Some? then b.autorCorporativo.value.nomeCompleto
      else if n == 0 then "\"" + AbreviarTitulo(b.titulo) + "\""
      else if DeveUsarEtAl(cfg, n, false) then b.autores[0].sobrenome + " " + ABREVIACOES.et_al
      else if n == 1 then b.autores[0].sobrenome
      else if n == 2 then b.autores[0].sobrenome + " & " + b.autores[1].sobrenome
      else Join(Sobrenomes(b.autores)[..n - 1], ", ") + " & " + Sobrenomes(b.autores)[n - 1];
    var lider := if b.autorCorporativo.None? && n > 0 then b.autores[0].sobrenome else "";
    NomesComecamPeloPrimeiro(b.autores, " & ");
    AnoEntreParenteses(nomes, b.ano, lider);
    "(" + nomes + ", " + b.ano + ")"
  }

  /** The names a citation lists start with the first author's surname,
      whatever the conjunction. */
  lemma NomesComecamPeloPrimeiro(autores: seq<Autor>, conjuncao: string)
    ensures var n := |autores|;
      n > 0 ==> StartsWith(autores[0].sobrenome + " " + ABREVIACOES.et_al, autores[0].sobrenome)
                && StartsWith(autores[0].sobrenome, autores[0].sobrenome)
    ensures var n := |autores|;
      n >= 2 ==> StartsWith(autores[0].sobrenome + conjuncao + autores[1].sobrenome, autores[0].sobrenome)
    ensures var n := |autores|;
      n > 2 ==> StartsWith(Join(Sobrenomes(autores)[..n - 1], ", ") + conjuncao + Sobrenomes(autores)[n - 1],
                           autores[0].sobrenome)
  {
    var n := |autores|;
    if n > 0 {
      ConcatComeca(autores[0].sobrenome, " ", ABREVIACOES.et_al);
      ConcatComeca(autores[0].sobrenome, "", "");
    }
    if n >= 2 {
      ConcatComeca(autores[0].sobrenome, conjuncao, autores[1].sobrenome);
    }
    if n > 2 {
      var nomes := Sobrenomes(autores)[..n - 1];
      var j := Join(nomes, ", ");
      SobrenomesPontual(autores);
      JoinComecaPrimeira(nomes, ", ");
      ConcatComeca(j, conjuncao, Sobrenomes(autores)[n - 1]);
      StartsWithTransitivo(j + conjuncao + Sobrenomes(autores)[n - 1], j, nomes[0]);
    }
  }

  /** Three pieces put together start with the first. */
  lemma ConcatComeca(a: string, b: string, c: string)
    ensures StartsWith(a + b + c, a)
  {
    assert (a + b + c)[..|a|] == a;
  }

  /** The year in parentheses after the names keeps their first word first. */
  lemma AnoAposNomes(nomes: string, ano: string, lider: string)
    ensures StartsWith(nomes, lider) ==> StartsWith(nomes + " (" + ano + ")", lider)
    ensures EndsWith(nomes + " (" + ano + ")", " (" + ano + ")")
  {
  }

  /** Names and year in parentheses: the opening parenthesis leads, the year
      and the closing parenthesis end. */
  lemma AnoEntreParenteses(nomes: string, ano: string, lider: string)
    ensures StartsWith(nomes, lider) ==> StartsWith("(" + nomes + ", " + ano + ")", "(" + lider)
    ensures EndsWith("(" + nomes + ", " + ano + ")", ", " + ano + ")")
  {
  }

  /** The names an in-text citation shows for a non-empty author list, with
      `conjuncao` before the last surname: the single decision both citation
      forms are meant to share. */
  function NomesCitados(cfg: ConfiguracaoAPA, autores: seq<Autor>, conjuncao: string): string
    requires |autores| > 0
  {
    var n := |autores|;
    if n >= cfg.usarEtAl.apartirDeQuantosAutores then autores[0].sobrenome + " " + ABREVIACOES.et_al
    else if n == 1 then autores[0].sobrenome
    else Join(Sobrenomes(autores)[..n - 1], ", ") + conjuncao + autores[n - 1].sobrenome
  }

  /** Both citation forms take the same decision, in the same order:
      corporate author, then title key, then et al., then the surnames;
      narrative puts the year after the names and joins with "e",
      parenthetical puts everything in parentheses and joins with "&". */
  lemma CitacoesMesmaDecisao(cfg: ConfiguracaoAPA, ref: Referencia)
    ensures var b := ref.base;
      (b.autorCorporativo.Some? || |b.autores| == 0) ==>
        GerarCitacaoParentetica(cfg, ref) == "(" + GerarCitacaoNarrativa(cfg, ref) + ", " + b.ano + ")"
    ensures var b := ref.base;
      (b.autorCorporativo.None? && |b.autores| > 0) ==>
        GerarCitacaoNarrativa(cfg, ref) == NomesCitados(cfg, b.autores, " e ") + " (" + b.ano + ")"
        && GerarCitacaoParentetica(cfg, ref) == "(" + NomesCitados(cfg, b.autores, " & ") + ", " + b.ano + ")"
  {
    var b := ref.base;
    var n := |b.autores|;
    if b.autorCorporativo.None? {
      if n == 0 {
        TituloEntreParenteses(AbreviarTitulo(b.titulo), b.ano);
      } else if DeveUsarEtAl(cfg, n, false) {
        EntreParenteses(b.autores[0].sobrenome, " ", ABREVIACOES.et_al, b.ano);
      } else if n == 2 {
        assert Sobrenomes(b.autores)[..1] == [b.autores[0].sobrenome];
        EntreParenteses(b.autores[0].sobrenome, " & ", b.autores[1].sobrenome, b.ano);
      } else if n > 2 {
        var nomes := Sobrenomes(b.autores);
        SobrenomesPontual(b.autores);
        assert nomes[n - 1] == b.autores[n - 1].sobrenome;
        EntreParenteses(Join(nomes[..n - 1], ", "), " & ", nomes[n - 1], b.ano);
      }
    }
  }

  /** Parenthesising a three-piece name before the year. */
  lemma EntreParenteses(a: string, b: string, c: string, ano: string)
    ensures "(" + a + b + c + ", " + ano + ")" == "(" + (a + b + c) + ", " + ano + ")"
  {
  }

  /** Parenthesising the quoted title key before the year. */
  lemma TituloEntreParenteses(t: string, ano: string)
    ensures "(\"" + t + "\", " + ano + ")" == "(" + ("\"" + t + "\"") + ", " + ano + ")"
  {
  }

  /** From the threshold on, only the first author's surname and the year
      matter: et al. replaces everyone else. */
  lemma CitacaoEtAlSoPrimeiroSobrenome(cfg: ConfiguracaoAPA, r1: Referencia, r2: Referencia)
    requires r1.base.autorCorporativo.None? && r2.base.autorCorporativo.None?
    requires |r1.base.autores| > 0 && |r2.base.autores| > 0
    requires |r1.base.autores| >= cfg.usarEtAl.apartirDeQuantosAutores
    requires |r2.base.autores| >= cfg.usarEtAl.apartirDeQuantosAutores
    requires r1.base.autores[0].sobrenome == r2.base.autores[0].sobrenome
    requires r1.base.ano == r2.base.ano
    ensures GerarCitacaoNarrativa(cfg, r1) == GerarCitacaoNarrativa(cfg, r2)
    ensures GerarCitacaoParentetica(cfg, r1) == GerarCitacaoParentetica(cfg, r2)
    ensures GerarCitacaoParentetica(cfg, r1) == "(" + r1.base.autores[0].sobrenome + " et al., " + r1.base.ano + ")"
  {
    var s0 := r1.base.autores[0].sobrenome;
    var nomes := s0 + " " + ABREVIACOES.et_al;
    assert GerarCitacaoNarrativa(cfg, r1) == nomes + " (" + r1.base.ano + ")" by {
      assert DeveUsarEtAl(cfg, |r1.base.autores|, false);
    }
    assert GerarCitacaoNarrativa(cfg, r2) == nomes + " (" + r1.base.ano + ")" by {
      assert DeveUsarEtAl(cfg, |r2.base.autores|, false);
    }
    assert GerarCitacaoParentetica(cfg, r1) == "(" + nomes + ", " + r1.base.ano + ")" by {
      assert DeveUsarEtAl(cfg, |r1.base.autores|, false);
    }
    assert GerarCitacaoParentetica(cfg, r2) == "(" + nomes + ", " + r1.base.ano + ")" by {
      assert DeveUsarEtAl(cfg, |r2.base.autores|, false);
    }
    assert nomes == s0 + " et al.";
  }

  /** Without any author the citation key is the quoted title, cut to its
      first three words with "..." when it had more: the quoted prefix holds
      two blanks and the title continues after it with a blank. */
  lemma CitacaoPorTitulo(cfg: ConfiguracaoAPA, ref: Referencia)
    requires ref.base.autorCorporativo.None? && |ref.base.autores| == 0
    ensures var t := ref.base.titulo; var c := GerarCitacaoNarrativa(cfg, ref);
      |Split(t, ' ')| <= 3 ==> c == "\"" + t + "\""
    ensures var t := ref.base.titulo; var c := GerarCitacaoNarrativa(cfg, ref);
      |Split(t, ' ')| > 3 ==>
        |c| >= 5 && c[0] == '"' && EndsWith(c, "...\"")
        && StartsWith(t, c[1..|c| - 4] + " ") && Count(c[1..|c| - 4], ' ') == 2
  {
    var t := ref.base.titulo;
    var r := AbreviarTitulo(t, 3);
    var c := GerarCitacaoNarrativa(cfg, ref);
    assert c == "\"" + r + "\"";
    if |Split(t, ' ')| > 3 {
      var corte := r[..|r| - 3];
      assert r == corte + "...";
      assert c == "\"" + corte + "...\"";
      assert c[1..|c| - 4] == corte;
      assert c[|c| - 4..] == "...\"";
    }
  }

  // ===========================================================================
  // Per-type formatters: the segment lists
  // ===========================================================================

  /** The DOI link when DOIs are on and one is given; otherwise the URL when
      URLs are on and one is given; otherwise nothing. */
  function Enlace(cfg: ConfiguracaoAPA, b: ReferenciaBase): seq<string> {
    if cfg.incluirDOI && b.doi != "" then ["https://doi.org/" + b.doi]
    else if cfg.incluirURL && b.url != "" then [b.url]
    else []
  }

  /** An edition is annotated unless it is absent or "1". */
  predicate EdicaoAnotada(edicao: string) {
    edicao != "" && edicao != "1"
  }

  /** The author string and the year that open the article, book, chapter
      and thesis entries; the author string takes its place even when empty. */
  function Cabeca(b: ReferenciaBase): seq<string> {
    [TextoAutores(b.autores, b.autorCorporativo), "(" + b.ano + ")."]
  }

  /** Article: title, journal, volume(number) and pages between the year and
      the link; the journal is title-cased for English entries. */
  function MeioArtigo(ref: Referencia): seq<string>
    requires ref.ReferenciaArtigo?
  {
    var periodico := if ref.base.idioma == Some(En) then AplicarTitleCase(ref.periodico) else ref.periodico;
    var volumeNumero := if ref.numero != "" then "*" + ref.volume + "*(" + ref.numero + ")," else "*" + ref.volume + "*,";
    [AplicarSentenceCase(ref.base.titulo) + ".", "*" + periodico + "*,", volumeNumero, ref.paginas + "."]
  }

  /** Book: the italic title, with the edition when annotated, and the publisher. */
  function MeioLivro(ref: Referencia): seq<string>
    requires ref.ReferenciaLivro?
  {
    var titulo := AplicarSentenceCase(ref.base.titulo);
    var tituloEdicao := if EdicaoAnotada(ref.edicao) then "*" + titulo + "* (" + ref.edicao + "ª " + ABREVIACOES.ed + ")."
      else "*" + titulo + "*.";
    [tituloEdicao, ref.editora + "."]
  }

  /** Chapter: title, "In" and the editors, the book title with the edition
      when annotated, the pages and the publisher. */
  function MeioCapitulo(ref: Referencia): seq<string>
    requires ref.ReferenciaCapitulo?
  {
    var tituloLivro := AplicarSentenceCase(ref.tituloLivro);
    var livroEdicao := if EdicaoAnotada(ref.edicao) then "*" + tituloLivro + "* (" + ref.edicao + "ª " + ABREVIACOES.ed + ","
      else "*" + tituloLivro + "*";
    [AplicarSentenceCase(ref.base.titulo) + ".", "In " + TextoEditores(ref.editores), livroEdicao,
     "(" + ABREVIACOES.paginas + " " + ref.paginas + ").", ref.editora + "."]
  }

  /** Thesis: the italic title, the bracketed kind and institution, and the
      repository when given. */
  function MeioTese(ref: Referencia): seq<string>
    requires ref.ReferenciaTese?
  {
    var titulo := "*" + AplicarSentenceCase(ref.base.titulo) + "*";
    var tipo := "[" + NomeTipoTrabalho(ref.tipoTrabalho) + ", " + ref.instituicao + "].";
    if ref.repositorio != "" then [titulo, tipo, ref.repositorio + "."] else [titulo, tipo]
  }

  /** Pushing segments one at a time onto a list appends them in order. */
  lemma Empilhar2(c: seq<string>, x1: string, x2: string)
    ensures c + [x1] + [x2] == c + [x1, x2]
  {
  }

  lemma Empilhar3(c: seq<string>, x1: string, x2: string, x3: string)
    ensures c + [x1] + [x2] + [x3] == c + [x1, x2, x3]
  {
  }

  lemma Empilhar4(c: seq<string>, x1: string, x2: string, x3: string, x4: string)
    ensures c + [x1] + [x2] + [x3] + [x4] == c + [x1, x2, x3, x4]
  {
  }

  lemma Empilhar5(c: seq<string>, x1: string, x2: string, x3: string, x4: string, x5: string)
    ensures c + [x1] + [x2] + [x3] + [x4] + [x5] == c + [x1, x2, x3, x4, x5]
  {
  }

  function PartesArtigo(cfg: ConfiguracaoAPA, ref: Referencia): seq<string>
    requires ref.ReferenciaArtigo?
  {
    Cabeca(ref.base) + MeioArtigo(ref) + Enlace(cfg, ref.base)
  }

  function PartesLivro(cfg: ConfiguracaoAPA, ref: Referencia): seq<string>
    requires ref.ReferenciaLivro?
  {
    Cabeca(ref.base) + MeioLivro(ref) + Enlace(cfg, ref.base)
  }

  function PartesCapitulo(cfg: ConfiguracaoAPA, ref: Referencia): seq<string>
    requires ref.ReferenciaCapitulo?
  {
    Cabeca(ref.base) + MeioCapitulo(ref) + Enlace(cfg, ref.base)
  }

  /** Whether a website entry opens with an author: individual authors, or a
      corporate author whose name differs from the site's. */
  predicate WebsiteTemAutor(ref: Referencia)
    requires ref.ReferenciaWebsite?
  {
    |ref.base.autores| > 0
    || (ref.base.autorCorporativo.Some? && ref.base.autorCorporativo.value.nomeCompleto != ref.nomeSite)
  }

  /** Website entries ignore the DOI/URL options: the URL is appended
      whenever it is given. */
  function PartesWebsite(ref: Referencia): seq<string>
    requires ref.ReferenciaWebsite?
  {
    var b := ref.base;
    AutorWebsite(ref)
    + (if ref.dataPublicacao != "" then ["(" + ref.dataPublicacao + ")."] else ["(" + b.ano + ")."])
    + ["*" + AplicarSentenceCase(b.titulo) + "*."]
    + SiteWebsite(ref)
    + (if b.url != "" then [b.url] else [])
  }

  /** The author segment of a website entry: the individual authors, or a
      corporate author whose name is not the site's, or nothing. */
  function AutorWebsite(ref: Referencia): seq<string>
    requires ref.ReferenciaWebsite?
  {
    var b := ref.base;
    if |b.autores| > 0 then [TextoAutores(b.autores, None)]
    else if b.autorCorporativo.Some? && b.autorCorporativo.value.nomeCompleto != ref.nomeSite
    then [b.autorCorporativo.value.nomeCompleto + "."]
    else []
  }

  /** The site-name segment of a website entry, dropped when it would repeat
      the author or when there is no author at all. */
  function SiteWebsite(ref: Referencia): seq<string>
    requires ref.ReferenciaWebsite?
  {
    var b := ref.base;
    if |b.autores| == 0 then
      (if b.autorCorporativo.None? || b.autorCorporativo.value.nomeCompleto == ref.nomeSite then []
       else [ref.nomeSite + "."])
    else [ref.nomeSite + "."]
  }

  function PartesTese(cfg: ConfiguracaoAPA, ref: Referencia): seq<string>
    requires ref.ReferenciaTese?
  {
    Cabeca(ref.base) + MeioTese(ref) + Enlace(cfg, ref.base)
  }

  function PartesVideo(ref: Referencia): seq<string>
    requires ref.ReferenciaVideo?
  {
    var b := ref.base;
    AutorVideo(ref)
    + ["(" + ref.dataPublicacao + ")."]
    + ["*" + AplicarSentenceCase(b.titulo) + "*"]
    + ["[Vídeo]."]
    + [NomePlataformaVideo(ref.plataforma) + "."]
    + (if b.url != "" then [b.url] else [])
  }

  /** The author segment of a video entry: the authors, else the channel. */
  function AutorVideo(ref: Referencia): seq<string>
    requires ref.ReferenciaVideo?
  {
    if |ref.base.autores| > 0 then [TextoAutores(ref.base.autores, None)]
    else if ref.canal != "" then [ref.canal + "."]
    else []
  }

  function PartesPodcast(ref: Referencia): seq<string>
    requires ref.ReferenciaPodcast?
  {
    var b := ref.base;
    [ref.apresentador + " (Host)."]
    + ["(" + ref.dataPublicacao + ")."]
    + [AplicarSentenceCase(b.titulo)]
    + (if ref.numeroEpisodio != "" then ["(Nº " + ref.numeroEpisodio + ")"] else [])
    + ["[Episódio de podcast]."]
    + ["In *" + ref.nomePodcast + "*."]
    + (if ref.produtora != "" then [ref.produtora + "."] else [])
    + (if b.url != "" then [b.url] else [])
  }

  /** The segments of the full reference, chosen by the guards in the order
      `formatar` tests them; `None` for the five tags without a formatter. */
  function Partes(cfg: ConfiguracaoAPA, ref: Referencia): Option<seq<string>> {
    if IsReferenciaArtigo(ref) then Some(PartesArtigo(cfg, ref))
    else if IsReferenciaLivro(ref) then Some(PartesLivro(cfg, ref))
    else if IsReferenciaCapitulo(ref) then Some(PartesCapitulo(cfg, ref))
    else if IsReferenciaWebsite(ref) then Some(PartesWebsite(ref))
    else if IsReferenciaTese(ref) then Some(PartesTese(cfg, ref))
    else if IsReferenciaVideo(ref) then Some(PartesVideo(ref))
    else if IsReferenciaPodcast(ref) then Some(PartesPodcast(ref))
    else None
  }

  /** The full reference string: the segments joined by blanks. */
  function ReferenciaCompleta(cfg: ConfiguracaoAPA, ref: Referencia): Option<string> {
    match Partes(cfg, ref)
    case None => None
    case Some(ps) => Some(Join(ps, " "))
  }

  /** The four formatters that take a DOI. */
  predicate AceitaDoi(ref: Referencia) {
    ref.ReferenciaArtigo? || ref.ReferenciaLivro? || ref.ReferenciaCapitulo? || ref.ReferenciaTese?
  }

  /** The segments of a DOI-taking formatter are its own segments followed by
      the link, and the link never holds more than one segment. */
  lemma PartesComEnlace(cfg: ConfiguracaoAPA, ref: Referencia)
    requires AceitaDoi(ref)
    ensures Partes(cfg, ref).Some?
    ensures var ps := Partes(cfg, ref).value; var e := Enlace(cfg, ref.base);
      |ps| >= 4 + |e| && ps[|ps| - |e|..] == e && |e| <= 1
    ensures var ps := Partes(cfg, ref).value; var b := ref.base;
      ps[0] == TextoAutores(b.autores, b.autorCorporativo) && ps[1] == "(" + b.ano + ")."
  {
    var b := ref.base;
    var m := if ref.ReferenciaArtigo? then MeioArtigo(ref)
      else if ref.ReferenciaLivro? then MeioLivro(ref)
      else if ref.ReferenciaCapitulo? then MeioCapitulo(ref)
      else MeioTese(ref);
    assert Partes(cfg, ref) == Some(Cabeca(b) + m + Enlace(cfg, b));
    CabecaMeioEnlace(Cabeca(b), m, Enlace(cfg, b));
  }

  /** Where the head, the middle and the link of a segment list sit. */
  lemma CabecaMeioEnlace(c: seq<string>, m: seq<string>, e: seq<string>)
    requires |c| == 2 && |m| >= 2
    ensures var ps := c + m + e;
      |ps| >= 4 + |e| && ps[|ps| - |e|..] == e && ps[0] == c[0] && ps[1] == c[1]
  {
    var ps := c + m + e;
    assert ps[|ps| - |e|..] == e;
  }

  /** Article, book, chapter and thesis: with DOIs on and a DOI given, the
      reference ends with the DOI link; otherwise, with URLs on and a URL
      given, it ends with the URL; the URL is never added beside a DOI. */
  lemma DoiOuUrlNoFinal(cfg: ConfiguracaoAPA, ref: Referencia)
    requires AceitaDoi(ref)
    ensures Partes(cfg, ref).Some?
    ensures var s := Join(Partes(cfg, ref).value, " "); var b := ref.base;
      cfg.incluirDOI && b.doi != "" ==> EndsWith(s, " https://doi.org/" + b.doi)
    ensures var s := Join(Partes(cfg, ref).value, " "); var b := ref.base;
      !(cfg.incluirDOI && b.doi != "") && cfg.incluirURL && b.url != "" ==> EndsWith(s, " " + b.url)
  {
    PartesComEnlace(cfg, ref);
    var ps := Partes(cfg, ref).value;
    var e := Enlace(cfg, ref.base);
    JoinEndsWithSepLast(ps, " ");
    if e != [] {
      assert ps[|ps| - 1] == e[0];
    }
    PrefixoDoi(ref.base.doi);
  }

  /** The blank before the link and the DOI prefix form one literal. */
  lemma PrefixoDoi(doi: string)
    ensures " " + ("https://doi.org/" + doi) == " https://doi.org/" + doi
  {
  }

  /** Article, book, chapter and thesis open with the author string and the
      year; an empty author string still takes a segment, so a reference
      without authors starts with a blank. */
  lemma AutoresEAnoPrimeiro(cfg: ConfiguracaoAPA, ref: Referencia)
    requires AceitaDoi(ref)
    ensures Partes(cfg, ref).Some?
    ensures var b := ref.base;
      StartsWith(Join(Partes(cfg, ref).value, " "), TextoAutores(b.autores, b.autorCorporativo) + " (" + b.ano + ").")
    ensures var b := ref.base;
      |b.autores| == 0 && b.autorCorporativo.None? ==> Join(Partes(cfg, ref).value, " ")[0] == ' '
  {
    PartesComEnlace(cfg, ref);
    var ps := Partes(cfg, ref).value;
    var b := ref.base;
    JoinStartsWithTwo(ps, " ");
    assert ps[0] == TextoAutores(b.autores, b.autorCorporativo) && ps[1] == "(" + b.ano + ").";
    PrefixoAno(ps[0], b.ano);
  }

  /** The blank after the authors and the year's parenthesis form one literal. */
  lemma PrefixoAno(autores: string, ano: string)
    ensures autores + " " + ("(" + ano + ").") == autores + " (" + ano + ")."
    ensures (autores + " (" + ano + ").")[|autores|] == ' '
  {
  }

  /** A first edition ("1") is formatted exactly as a book without edition. */
  lemma PrimeiraEdicaoNaoAnotada(cfg: ConfiguracaoAPA, ref: Referencia)
    requires ref.ReferenciaLivro? || ref.ReferenciaCapitulo?
    requires ref.edicao == "1"
    ensures Partes(cfg, ref) == Partes(cfg, ref.(edicao := ""))
  {
  }

  /** The chapter's edition segment opens a parenthesis that it does not
      close: it ends in "ed.," and the page segment opens another one. */
  lemma CapituloEdicaoParentesesAberto(ref: Referencia)
    requires ref.ReferenciaCapitulo? && EdicaoAnotada(ref.edicao)
    ensures var m := MeioCapitulo(ref);
      EndsWith(m[2], "ª ed.,") && !EndsWith(m[2], ")") && StartsWith(m[3], "(pp. ")
  {
    var m := MeioCapitulo(ref);
    var x := "*" + AplicarSentenceCase(ref.tituloLivro) + "* (" + ref.edicao;
    assert m[2] == x + "ª " + ABREVIACOES.ed + ",";
    EdicaoSemFecho(x);
    PaginasAbrem(ref.paginas);
  }

  /** A string closed by the chapter's edition suffix ends in "ª ed.,". */
  lemma EdicaoSemFecho(x: string)
    ensures EndsWith(x + "ª " + ABREVIACOES.ed + ",", "ª ed.,")
    ensures !EndsWith(x + "ª " + ABREVIACOES.ed + ",", ")")
  {
    var s := x + "ª " + ABREVIACOES.ed + ",";
    assert s[|s| - 6..] == "ª ed.,";
  }

  /** The chapter's page segment opens with "(pp. ". */
  lemma PaginasAbrem(paginas: string)
    ensures StartsWith("(" + ABREVIACOES.paginas + " " + paginas + ").", "(pp. ")
  {
    var s := "(" + ABREVIACOES.paginas + " " + paginas + ").";
    assert s[..5] == "(pp. ";
  }

  /** A website shows its site name exactly when it shows an author segment:
      with no individual authors and a corporate author that is missing or
      equal to the site name, both are dropped. */
  lemma WebsiteSiteSseAutor(ref: Referencia)
    requires ref.ReferenciaWebsite?
    ensures var ps := PartesWebsite(ref); var url := if ref.base.url != "" then 1 else 0;
      |ps| == (if WebsiteTemAutor(ref) then 4 else 2) + url
    ensures var ps := PartesWebsite(ref);
      WebsiteTemAutor(ref) ==> ps[3] == ref.nomeSite + "."
    ensures var ps := PartesWebsite(ref);
      !WebsiteTemAutor(ref) ==> StartsWith(ps[0], "(") && ps[1] == "*" + AplicarSentenceCase(ref.base.titulo) + "*."
  {
  }

  /** Video and podcast entries always carry their bracketed descriptor, and
      end with the URL exactly when one is given. */
  lemma VideoPodcastDescritor(ref: Referencia)
    requires ref.ReferenciaVideo? || ref.ReferenciaPodcast?
    ensures var ps := if ref.ReferenciaVideo? then PartesVideo(ref) else PartesPodcast(ref);
      (if ref.ReferenciaVideo? then "[Vídeo]." else "[Episódio de podcast].") in ps
    ensures var ps := if ref.ReferenciaVideo? then PartesVideo(ref) else PartesPodcast(ref);
      ref.base.url != "" ==> ps[|ps| - 1] == ref.base.url
  {
  }

  // ===========================================================================
  // Validation, metadata, formatar
  // ===========================================================================

  /** `!s || s.trim() === ''`: absent or whitespace only (`EmBrancoSseTrimVazio`). */
  predicate EmBranco(s: string) {
    forall i :: 0 <= i < |s| ==> IsWhitespace(s[i])
  }

  /** The blank test is exactly "trimming leaves nothing". */
  lemma EmBrancoSseTrimVazio(s: string)
    ensures EmBranco(s) <==> Trim(s) == ""
  {
    TrimVazio(s);
  }

  const AVISO_SEM_AUTOR := "Nenhum autor especificado - usar título como identificador"
  const AVISO_SEM_DOI_URL := "DOI ou URL recomendado para artigos"
  const AVISO_URL_SEM_HTTP := "URL deve começar com http:// ou https://"
  const ERRO_TITULO := "Título é obrigatório"
  const ERRO_ANO := "Ano é obrigatório"

  /** `if (falta) lista.push(item)`. */
  function ComItem(lista: seq<string>, falta: bool, item: string): seq<string> {
    if falta then lista + [item] else lista
  }

  /** What `validar` returns: each list is built by the same conditional
      pushes, in the same order. */
  /** `erros`: a blank title, then a blank year. */
  function ErrosDe(b: ReferenciaBase): seq<string> {
    ComItem(ComItem([], EmBranco(b.titulo), ERRO_TITULO), EmBranco(b.ano), ERRO_ANO)
  }

  /** `camposObrigatoriosFaltantes`: title, year, then the article's three
      fields, then the book's publisher. */
  function ObrigatoriosFaltantesDe(ref: Referencia): seq<string> {
    var b := ref.base;
    var gerais := ComItem(ComItem([], EmBranco(b.titulo), "titulo"), EmBranco(b.ano), "ano");
    var comArtigo :=
      if IsReferenciaArtigo(ref) then
        ComItem(ComItem(ComItem(gerais, ref.periodico == "", "periodico"),
          ref.volume == "", "volume"), ref.paginas == "", "paginas")
      else gerais;
    ComItem(comArtigo, IsReferenciaLivro(ref) && ref.editora == "", "editora")
  }

  /** `avisos`: no author at all, then, for an article, no DOI and no URL,
      and a URL not starting with "http". */
  function AvisosDe(ref: Referencia): seq<string> {
    var b := ref.base;
    var semAutor := ComItem([], |b.autores| == 0 && b.autorCorporativo.None?, AVISO_SEM_AUTOR);
    if IsReferenciaArtigo(ref) then
      ComItem(ComItem(semAutor, b.doi == "" && b.url == "", AVISO_SEM_DOI_URL),
        b.url != "" && !StartsWith(b.url, "http"), AVISO_URL_SEM_HTTP)
    else semAutor
  }

  /** What `validar` returns: valid when no errors, complete when nothing
      required is missing and there is no warning. */
  function ValidacaoDe(ref: Referencia): ValidacaoReferencia {
    var obrigatorios := ObrigatoriosFaltantesDe(ref);
    var avisos := AvisosDe(ref);
    var erros := ErrosDe(ref.base);
    ValidacaoReferencia(
      valida := |erros| == 0,
      completa := |obrigatorios| == 0 && |avisos| == 0,
      camposObrigatoriosFaltantes := obrigatorios,
      camposOpcionaisFaltantes := [],
      avisos := avisos,
      erros := erros)
  }

  /** Errors come only from a blank title or year, in that order; a complete
      reference is valid; optional fields are never reported. */
  lemma ValidacaoPropriedades(ref: Referencia)
    ensures var v := ValidacaoDe(ref);
      v.valida <==> v.erros == []
    ensures var v := ValidacaoDe(ref);
      v.valida <==> !EmBranco(ref.base.titulo) && !EmBranco(ref.base.ano)
    ensures var v := ValidacaoDe(ref);
      v.completa <==> v.camposObrigatoriosFaltantes == [] && v.avisos == []
    ensures var v := ValidacaoDe(ref);
      v.completa ==> v.valida
    ensures ValidacaoDe(ref).camposOpcionaisFaltantes == []
    ensures var v := ValidacaoDe(ref);
      !v.valida ==>
        (|v.camposObrigatoriosFaltantes| > 0
         && v.camposObrigatoriosFaltantes[0] == (if EmBranco(ref.base.titulo) then "titulo" else "ano"))
  {
  }

  /** `gerarMetadados`: what the reference carries, and its language, else
      the configured default. */
  function GerarMetadados(cfg: ConfiguracaoAPA, ref: Referencia): (m: MetadadosReferencia)
    ensures m.temDOI <==> ref.base.doi != ""
    ensures m.temURL <==> ref.base.url != ""
    ensures m.quantidadeAutores == |ref.base.autores|
    ensures m.contemAutorCorporativo <==> ref.base.autorCorporativo.Some?
    ensures ref.base.idioma.Some? ==> m.idioma == ref.base.idioma.value
    ensures ref.base.idioma.None? ==> m.idioma == cfg.idiomaPadrao
  {
    var b := ref.base;
    MetadadosReferencia(
      temDOI := b.doi != "",
      temURL := b.url != "",
      quantidadeAutores := |b.autores|,
      contemAutorCorporativo := b.autorCorporativo.Some?,
      idioma := if b.idioma.Some? then b.idioma.value else cfg.idiomaPadrao)
  }

  /** The error `formatar` throws when strict validation fails. */
  function ErroCampoObrigatorio(v: ValidacaoReferencia): ErroFormatacaoAPA {
    var faltantes := v.camposObrigatoriosFaltantes;
    var primeiro := if |faltantes| > 0 then faltantes[0] else "undefined";
    NovoErroFormatacaoAPA(
      CampoObrigatorio,
      if |faltantes| > 0 && faltantes[0] != "" then faltantes[0] else "campo desconhecido",
      "Campo obrigatório ausente: " + primeiro)
  }

  /** What `formatar` returns, or the error it throws. */
  function Formatacao(cfg: ConfiguracaoAPA, ref: Referencia): Result<ReferenciaFormatada, ErroFormatacaoAPA> {
    var v := ValidacaoDe(ref);
    if !v.valida && cfg.validacaoEstrita then Err(ErroCampoObrigatorio(v))
    else
      match ReferenciaCompleta(cfg, ref)
      case None =>
        Err(NovoErroFormatacaoAPA(TipoInvalido, "tipo", "Tipo de referência não suportado: " + NomeTipo(Tipo(ref))))
      case Some(completa) =>
        Ok(ReferenciaFormatada(
          referenciaCompleta := completa,
          citacaoNarrativa := GerarCitacaoNarrativa(cfg, ref),
          citacaoParentetica := GerarCitacaoParentetica(cfg, ref),
          tipoDetectado := Tipo(ref),
          validacao := v,
          metadados := GerarMetadados(cfg, ref)))
  }

  /** Strict mode rejects a blank title or year before any dispatch, naming
      the first missing field. */
  lemma FormatacaoEstrita(cfg: ConfiguracaoAPA, ref: Referencia)
    requires cfg.validacaoEstrita
    requires EmBranco(ref.base.titulo) || EmBranco(ref.base.ano)
    ensures var r := Formatacao(cfg, ref);
      r.Err? && r.error.tipo == CampoObrigatorio
      && r.error.campo == (if EmBranco(ref.base.titulo) then "titulo" else "ano")
  {
    ValidacaoPropriedades(ref);
  }

  /** Past strict validation, exactly the five tags without a formatter are
      rejected, as `tipo_invalido` on field "tipo"; without strict mode that
      is the only error there is. */
  lemma FormatacaoTipoInvalido(cfg: ConfiguracaoAPA, ref: Referencia)
    ensures var r := Formatacao(cfg, ref); var b := ref.base;
      !((EmBranco(b.titulo) || EmBranco(b.ano)) && cfg.validacaoEstrita) ==>
        (r.Err? <==> TipoSemFormatador(Tipo(ref)))
        && (r.Err? ==> r.error.tipo == TipoInvalido && r.error.campo == "tipo")
    ensures var r := Formatacao(cfg, ref);
      !cfg.validacaoEstrita && r.Err? ==> r.error.tipo == TipoInvalido
  {
    ValidacaoPropriedades(ref);
    PartesSseFormatador(cfg, ref);
  }

  /** A reference has segments exactly when its tag has a formatter. */
  lemma PartesSseFormatador(cfg: ConfiguracaoAPA, ref: Referencia)
    ensures Partes(cfg, ref).None? <==> TipoSemFormatador(Tipo(ref))
  {
    GuardasDisjuntas(ref);
  }

  /** A successful result reports the reference's own tag, its validation
      and the metadata `gerarMetadados` gives, with its author count. */
  lemma FormatacaoSucesso(cfg: ConfiguracaoAPA, ref: Referencia)
    ensures var r := Formatacao(cfg, ref);
      r.Ok? ==> (r.value.tipoDetectado == Tipo(ref) && r.value.validacao == ValidacaoDe(ref)
                 && r.value.metadados == GerarMetadados(cfg, ref)
                 && r.value.metadados.quantidadeAutores == |ref.base.autores|)
  {
  }

  // ===========================================================================
  // The formatter object
  // ===========================================================================

  /** `FormatadorAPA7`: its configuration is fixed by the constructor. */
  class FormatadorAPA7 {
    const config: ConfiguracaoAPA

    constructor (opcoes: ConfiguracaoParcial)
      ensures config == MesclarPadroes(opcoes)
    {
      config := MesclarPadroes(opcoes);
    }

    /** `formatar`: validate, dispatch on the tag, then add the citations
        and the metadata. */
    method Formatar(referencia: Referencia) returns (r: Result<ReferenciaFormatada, ErroFormatacaoAPA>)
      ensures r == Formatacao(config, referencia)
    {
      var validacao := Validar(referencia);
      if !validacao.valida && config.validacaoEstrita {
        return Err(ErroCampoObrigatorio(validacao));
      }
      var completa := FormatarPorTipo(referencia);
      if completa.None? {
        return Err(NovoErroFormatacaoAPA(TipoInvalido, "tipo",
          "Tipo de referência não suportado: " + NomeTipo(Tipo(referencia))));
      }
      var referenciaCompleta := completa.value;
      var citacaoNarrativa := GerarCitacaoNarrativa(config, referencia);
      var citacaoParentetica := GerarCitacaoParentetica(config, referencia);
      var metadados := GerarMetadados(config, referencia);
      r := Ok(ReferenciaFormatada(referenciaCompleta, citacaoNarrativa, citacaoParentetica,
                                  Tipo(referencia), validacao, metadados));
    }

    /** The guard chain of `formatar`: the first formatter whose guard
        accepts the reference, or `None` where `formatar` throws. */
    method FormatarPorTipo(referencia: Referencia) returns (completa: Option<string>)
      ensures completa == ReferenciaCompleta(config, referencia)
    {
      var referenciaCompleta: string;
      if IsReferenciaArtigo(referencia) {
        referenciaCompleta := FormatarArtigo(referencia);
      } else if IsReferenciaLivro(referencia) {
        referenciaCompleta := FormatarLivro(referencia);
      } else if IsReferenciaCapitulo(referencia) {
        referenciaCompleta := FormatarCapitulo(referencia);
      } else if IsReferenciaWebsite(referencia) {
        referenciaCompleta := FormatarWebsite(referencia);
      } else if IsReferenciaTese(referencia) {
        referenciaCompleta := FormatarTese(referencia);
      } else if IsReferenciaVideo(referencia) {
        referenciaCompleta := FormatarVideo(referencia);
      } else if IsReferenciaPodcast(referencia) {
        referenciaCompleta := FormatarPodcast(referencia);
      } else {
        return None;
      }
      return Some(referenciaCompleta);
    }

    method FormatarArtigo(ref: Referencia) returns (s: string)
      requires ref.ReferenciaArtigo?
      ensures s == Join(PartesArtigo(config, ref), " ")
    {
      var b := ref.base;
      var partes: seq<string> := [];
      var autores := FormatarAutores(b.autores, b.autorCorporativo);
      partes := partes + [autores];
      assert partes == [autores];
      partes := partes + ["(" + b.ano + ")."];
      assert partes == Cabeca(b);
      partes := partes + [AplicarSentenceCase(b.titulo) + "."];
      var periodico := if b.idioma == Some(En) then AplicarTitleCase(ref.periodico) else ref.periodico;
      partes := partes + ["*" + periodico + "*,"];
      var volumeNumero := if ref.numero != "" then "*" + ref.volume + "*(" + ref.numero + ")," else "*" + ref.volume + "*,";
      partes := partes + [volumeNumero];
      partes := partes + [ref.paginas + "."];
      var m := MeioArtigo(ref);
      Empilhar4(Cabeca(b), m[0], m[1], m[2], m[3]);
      assert partes == Cabeca(b) + m;
      if config.incluirDOI && b.doi != "" {
        partes := partes + ["https://doi.org/" + b.doi];
      } else if config.incluirURL && b.url != "" {
        partes := partes + [b.url];
      }
      assert partes == PartesArtigo(config, ref);
      s := Join(partes, " ");
    }

    method FormatarLivro(ref: Referencia) returns (s: string)
      requires ref.ReferenciaLivro?
      ensures s == Join(PartesLivro(config, ref), " ")
    {
      var b := ref.base;
      var partes: seq<string> := [];
      var autores := FormatarAutores(b.autores, b.autorCorporativo);
      partes := partes + [autores];
      assert partes == [autores];
      partes := partes + ["(" + b.ano + ")."];
      assert partes == Cabeca(b);
      var titulo := AplicarSentenceCase(b.titulo);
      if ref.edicao != "" && ref.edicao != "1" {
        partes := partes + ["*" + titulo + "* (" + ref.edicao + "ª " + ABREVIACOES.ed + ")."];
      } else {
        partes := partes + ["*" + titulo + "*."];
      }
      partes := partes + [ref.editora + "."];
      var m := MeioLivro(ref);
      Empilhar2(Cabeca(b), m[0], m[1]);
      assert partes == Cabeca(b) + m;
      if config.incluirDOI && b.doi != "" {
        partes := partes + ["https://doi.org/" + b.doi];
      } else if config.incluirURL && b.url != "" {
        partes := partes + [b.url];
      }
      assert partes == PartesLivro(config, ref);
      s := Join(partes, " ");
    }

    method FormatarCapitulo(ref: Referencia) returns (s: string)
      requires ref.ReferenciaCapitulo?
      ensures s == Join(PartesCapitulo(config, ref), " ")
    {
      var b := ref.base;
      var partes: seq<string> := [];
      var autores := FormatarAutores(b.autores, b.autorCorporativo);
      partes := partes + [autores];
      assert partes == [autores];
      partes := partes + ["(" + b.ano + ")."];
      assert partes == Cabeca(b);
      partes := partes + [AplicarSentenceCase(b.titulo) + "."];
      var editoresFormatados := FormatarEditores(ref.editores);
      partes := partes + ["In " + editoresFormatados];
      var tituloLivro := AplicarSentenceCase(ref.tituloLivro);
      if ref.edicao != "" && ref.edicao != "1" {
        partes := partes + ["*" + tituloLivro + "* (" + ref.edicao + "ª " + ABREVIACOES.ed + ","];
      } else {
        partes := partes + ["*" + tituloLivro + "*"];
      }
      partes := partes + ["(" + ABREVIACOES.paginas + " " + ref.paginas + ")."];
      partes := partes + [ref.editora + "."];
      var m := MeioCapitulo(ref);
      Empilhar5(Cabeca(b), m[0], m[1], m[2], m[3], m[4]);
      assert partes == Cabeca(b) + m;
      if config.incluirDOI && b.doi != "" {
        partes := partes + ["https://doi.org/" + b.doi];
      } else if config.incluirURL && b.url != "" {
        partes := partes + [b.url];
      }
      assert partes == PartesCapitulo(config, ref);
      s := Join(partes, " ");
    }

    method FormatarWebsite(ref: Referencia) returns (s: string)
      requires ref.ReferenciaWebsite?
      ensures s == Join(PartesWebsite(ref), " ")
    {
      var b := ref.base;
      var partes: seq<string> := [];
      if |b.autores| > 0 {
        var autores := FormatarAutores(b.autores, None);
        partes := partes + [autores];
        assert partes == [autores];
      } else if b.autorCorporativo.Some? && b.autorCorporativo.value.nomeCompleto != ref.nomeSite {
        partes := partes + [b.autorCorporativo.value.nomeCompleto + "."];
        assert partes == [b.autorCorporativo.value.nomeCompleto + "."];
      }
      assert partes == AutorWebsite(ref);
      if ref.dataPublicacao != "" {
        partes := partes + ["(" + ref.dataPublicacao + ")."];
      } else {
        partes := partes + ["(" + b.ano + ")."];
      }
      partes := partes + ["*" + AplicarSentenceCase(b.titulo) + "*."];
      if |b.autores| == 0 {
        if b.autorCorporativo.None? || b.autorCorporativo.value.nomeCompleto == ref.nomeSite {
          // the site name would repeat the author: left out
        } else {
          partes := partes + [ref.nomeSite + "."];
        }
      } else {
        partes := partes + [ref.nomeSite + "."];
      }
      assert partes == AutorWebsite(ref)
        + (if ref.dataPublicacao != "" then ["(" + ref.dataPublicacao + ")."] else ["(" + b.ano + ")."])
        + ["*" + AplicarSentenceCase(b.titulo) + "*."] + SiteWebsite(ref);
      if b.url != "" {
        partes := partes + [b.url];
      }
      assert partes == PartesWebsite(ref);
      s := Join(partes, " ");
    }

    method FormatarTese(ref: Referencia) returns (s: string)
      requires ref.ReferenciaTese?
      ensures s == Join(PartesTese(config, ref), " ")
    {
      var b := ref.base;
      var partes: seq<string> := [];
      var autores := FormatarAutores(b.autores, b.autorCorporativo);
      partes := partes + [autores];
      assert partes == [autores];
      partes := partes + ["(" + b.ano + ")."];
      assert partes == Cabeca(b);
      partes := partes + ["*" + AplicarSentenceCase(b.titulo) + "*"];
      partes := partes + ["[" + NomeTipoTrabalho(ref.tipoTrabalho) + ", " + ref.instituicao + "]."];
      if ref.repositorio != "" {
        partes := partes + [ref.repositorio + "."];
      }
      var m := MeioTese(ref);
      if ref.repositorio != "" {
        Empilhar3(Cabeca(b), m[0], m[1], m[2]);
      } else {
        Empilhar2(Cabeca(b), m[0], m[1]);
      }
      assert partes == Cabeca(b) + m;
      if config.incluirDOI && b.doi != "" {
        partes := partes + ["https://doi.org/" + b.doi];
      } else if config.incluirURL && b.url != "" {
        partes := partes + [b.url];
      }
      assert partes == PartesTese(config, ref);
      s := Join(partes, " ");
    }

    method FormatarVideo(ref: Referencia) returns (s: string)
      requires ref.ReferenciaVideo?
      ensures s == Join(PartesVideo(ref), " ")
    {
      var b := ref.base;
      var partes: seq<string> := [];
      if |b.autores| > 0 {
        var autores := FormatarAutores(b.autores, None);
        partes := partes + [autores];
        assert partes == [autores];
      } else if ref.canal != "" {
        partes := partes + [ref.canal + "."];
        assert partes == [ref.canal + "."];
      }
      assert partes == AutorVideo(ref);
      partes := partes + ["(" + ref.dataPublicacao + ")."];
      partes := partes + ["*" + AplicarSentenceCase(b.titulo) + "*"];
      partes := partes + ["[Vídeo]."];
      partes := partes + [NomePlataformaVideo(ref.plataforma) + "."];
      if b.url != "" {
        partes := partes + [b.url];
      }
      assert partes == PartesVideo(ref);
      s := Join(partes, " ");
    }

    method FormatarPodcast(ref: Referencia) returns (s: string)
      requires ref.ReferenciaPodcast?
      ensures s == Join(PartesPodcast(ref), " ")
    {
      var b := ref.base;
      var partes: seq<string> := [];
      partes := partes + [ref.apresentador + " (Host)."];
      assert partes == [ref.apresentador + " (Host)."];
      partes := partes + ["(" + ref.dataPublicacao + ")."];
      partes := partes + [AplicarSentenceCase(b.titulo)];
      if ref.numeroEpisodio != "" {
        partes := partes + ["(Nº " + ref.numeroEpisodio + ")"];
      }
      partes := partes + ["[Episódio de podcast]."];
      partes := partes + ["In *" + ref.nomePodcast + "*."];
      if ref.produtora != "" {
        partes := partes + [ref.produtora + "."];
      }
      if b.url != "" {
        partes := partes + [b.url];
      }
      assert partes == PartesPodcast(ref);
      s := Join(partes, " ");
    }

    /** `formatarAutores`: fills `autoresFormatados` author by author, then
        joins it. */
    method FormatarAutores(autores: seq<Autor>, autorCorporativo: Option<AutorCorporativo>) returns (s: string)
      ensures s == TextoAutores(autores, autorCorporativo)
    {
      if autorCorporativo.Some? {
        return autorCorporativo.value.nomeCompleto + ".";
      }
      if |autores| == 0 {
        return "";
      }
      var autoresFormatados: seq<string> := [];
      var limite := if |autores| <= 20 then |autores| else 19;
      for i := 0 to limite
        invariant autoresFormatados == CadaEntradaAutor(autores[..i])
      {
        CadaEntradaAutorPrefixo(autores, i);
        autoresFormatados := autoresFormatados + [EntradaAutor(autores[i])];
      }
      if |autores| > 20 {
        autoresFormatados := autoresFormatados + ["..."];
        var ultimoAutor := autores[|autores| - 1];
        autoresFormatados := autoresFormatados + [EntradaAutor(ultimoAutor)];
      } else {
        assert autores[..limite] == autores;
      }
      assert autoresFormatados == EntradasAutores(autores);
      s := JuntarAutores(autoresFormatados);
    }

    /** `formatarEditores`: fills `editoresFormatados` editor by editor,
        then joins it with the `(ed.)` / `(eds.)` suffix. */
    method FormatarEditores(editores: seq<Autor>) returns (s: string)
      ensures s == TextoEditores(editores)
    {
      if |editores| == 0 {
        return "";
      }
      var editoresFormatados: seq<string> := [];
      for i := 0 to |editores|
        invariant editoresFormatados == CadaEntradaEditor(editores[..i])
      {
        CadaEntradaEditorPrefixo(editores, i);
        editoresFormatados := editoresFormatados + [EntradaEditor(editores[i])];
      }
      assert editores[..|editores|] == editores;
      var sufixo := if |editores| == 1 then ABREVIACOES.ed else ABREVIACOES.eds;
      var fim := " (" + sufixo + "),";
      var n := |editoresFormatados|;
      if n == 1 {
        s := editoresFormatados[0] + fim;
      } else if n == 2 {
        s := editoresFormatados[0] + " & " + editoresFormatados[1] + fim;
      } else {
        s := Join(editoresFormatados[..n - 1], ", ") + ", & " + editoresFormatados[n - 1] + fim;
      }
    }

    /** `validar`: four lists filled check by check. */
    method Validar(ref: Referencia) returns (v: ValidacaoReferencia)
      ensures v == ValidacaoDe(ref)
    {
      var b := ref.base;
      var camposObrigatoriosFaltantes: seq<string> := [];
      var camposOpcionaisFaltantes: seq<string> := [];
      var avisos: seq<string> := [];
      var erros: seq<string> := [];
      if EmBranco(b.titulo) {
        camposObrigatoriosFaltantes := camposObrigatoriosFaltantes + ["titulo"];
        erros := erros + [ERRO_TITULO];
      }
      if EmBranco(b.ano) {
        camposObrigatoriosFaltantes := camposObrigatoriosFaltantes + ["ano"];
        erros := erros + [ERRO_ANO];
      }
      assert erros == ErrosDe(b);
      ghost var gerais := camposObrigatoriosFaltantes;
      assert gerais == ComItem(ComItem([], EmBranco(b.titulo), "titulo"), EmBranco(b.ano), "ano");
      if |b.autores| == 0 && b.autorCorporativo.None? {
        avisos := avisos + [AVISO_SEM_AUTOR];
      }
      if IsReferenciaArtigo(ref) {
        var ReferenciaArtigo(_, periodico, volume, _, paginas, _) := ref;
        if periodico == "" { camposObrigatoriosFaltantes := camposObrigatoriosFaltantes + ["periodico"]; }
        if volume == "" { camposObrigatoriosFaltantes := camposObrigatoriosFaltantes + ["volume"]; }
        if paginas == "" { camposObrigatoriosFaltantes := camposObrigatoriosFaltantes + ["paginas"]; }
        assert camposObrigatoriosFaltantes == ComItem(ComItem(ComItem(gerais, periodico == "", "periodico"),
          volume == "", "volume"), paginas == "", "paginas");
        if b.doi == "" && b.url == "" {
          avisos := avisos + [AVISO_SEM_DOI_URL];
        }
        if b.url != "" && !StartsWith(b.url, "http") {
          avisos := avisos + [AVISO_URL_SEM_HTTP];
        }
      }
      assert avisos == AvisosDe(ref);
      if IsReferenciaLivro(ref) {
        var ReferenciaLivro(_, editora, _, _, _) := ref;
        if editora == "" { camposObrigatoriosFaltantes := camposObrigatoriosFaltantes + ["editora"]; }
      }
      assert camposObrigatoriosFaltantes == ObrigatoriosFaltantesDe(ref);
      var valida := |erros| == 0;
      var completa := |camposObrigatoriosFaltantes| == 0 && |avisos| == 0;
      v := ValidacaoReferencia(valida, completa, camposObrigatoriosFaltantes, camposOpcionaisFaltantes, avisos, erros);
    }
  }
}
