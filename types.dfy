/**
  The data model of the APA 7 formatter (references/types.ts): the thirteen
  reference tags, one constructor per reference variant, the type guards the
  dispatcher uses, the output records, the configuration, the abbreviation
  table and the formatter's error.

  Optional string fields (`doi?`, `url?`, `numero?`, `edicao?`, ...) are
  plain strings in which "" stands for "absent": every use of them in the
  formatter is behind a JavaScript truthiness test, under which an absent
  field and an empty one behave alike. For the same reason `autores?` is a
  sequence in which [] stands for "absent".
 */
module Types {

  datatype Option<T> = None | Some(value: T)

  datatype Result<T, E> = Ok(value: T) | Err(error: E)

  // ---------------------------------------------------------------------------
  // Tags
  // ---------------------------------------------------------------------------

  /** `TipoReferencia`: the thirteen declared reference tags. */
  datatype TipoReferencia =
    | Artigo | Livro | Capitulo | Website | Tese | Dissertacao | Jornal
    | Video | Podcast | Conferencia | Relatorio | Lei | MidiaSocial

  /** The tag's literal string, as it appears in messages. */
  function NomeTipo(t: TipoReferencia): string {
    match t
    case Artigo => "artigo"
    case Livro => "livro"
    case Capitulo => "capitulo"
    case Website => "website"
    case Tese => "tese"
    case Dissertacao => "dissertacao"
    case Jornal => "jornal"
    case Video => "video"
    case Podcast => "podcast"
    case Conferencia => "conferencia"
    case Relatorio => "relatorio"
    case Lei => "lei"
    case MidiaSocial => "midia-social"
  }

  datatype Idioma = Pt | En | Es

  // ---------------------------------------------------------------------------
  // Authors
  // ---------------------------------------------------------------------------

  /** An individual author or editor; `inicialMeio` is "" when absent. */
  datatype Autor = Autor(nome: string, sobrenome: string, inicialMeio: string)

  /** A corporate author; `sigla` is "" when absent. */
  datatype AutorCorporativo = AutorCorporativo(nomeCompleto: string, sigla: string)

  // ---------------------------------------------------------------------------
  // References
  // ---------------------------------------------------------------------------

  /** `ReferenciaBase` without its tag (the tag follows from the constructor). */
  datatype ReferenciaBase = ReferenciaBase(
    autores: seq<Autor>,
    autorCorporativo: Option<AutorCorporativo>,
    ano: string,
    titulo: string,
    doi: string,
    url: string,
    idioma: Option<Idioma>)

  datatype TipoTrabalho = TeseDeDoutorado | DissertacaoDeMestrado

  function NomeTipoTrabalho(t: TipoTrabalho): string {
    match t
    case TeseDeDoutorado => "Tese de doutorado"
    case DissertacaoDeMestrado => "Dissertação de mestrado"
  }

  datatype PlataformaVideo = YouTube | Vimeo | Outro

  function NomePlataformaVideo(p: PlataformaVideo): string {
    match p
    case YouTube => "YouTube"
    case Vimeo => "Vimeo"
    case Outro => "Outro"
  }

  datatype TipoApresentacao = ApresentacaoDeArtigo | Poster | Palestra | Simposio
  datatype PlataformaSocial = Twitter | Facebook | Instagram | LinkedIn
  datatype TipoPost = Tweet | Post | Story

  /** `Referencia`: one constructor per interface of the union. The thesis
      variant carries both tags 'tese' and 'dissertacao', told apart by
      `ehDissertacao`. */
  datatype Referencia =
    | ReferenciaArtigo(base: ReferenciaBase, periodico: string, volume: string,
                       numero: string, paginas: string, issn: string)
    | ReferenciaLivro(base: ReferenciaBase, editora: string, edicao: string,
                      local: string, isbn: string)
    | ReferenciaCapitulo(base: ReferenciaBase, editores: seq<Autor>, tituloLivro: string,
                         editora: string, paginas: string, edicao: string, isbn: string)
    | ReferenciaWebsite(base: ReferenciaBase, nomeSite: string, dataPublicacao: string)
    | ReferenciaTese(base: ReferenciaBase, ehDissertacao: bool, instituicao: string,
                     tipoTrabalho: TipoTrabalho, repositorio: string)
    | ReferenciaJornal(base: ReferenciaBase, nomeJornal: string, dataPublicacao: string,
                       paginas: string)
    | ReferenciaVideo(base: ReferenciaBase, plataforma: PlataformaVideo, canal: string,
                      duracao: string, dataPublicacao: string)
    | ReferenciaPodcast(base: ReferenciaBase, apresentador: string, numeroEpisodio: string,
                        nomePodcast: string, produtora: string, dataPublicacao: string)
    | ReferenciaConferencia(base: ReferenciaBase, nomeConferencia: string, local: string,
                            dataInicio: string, dataFim: string,
                            tipoApresentacao: TipoApresentacao)
    | ReferenciaRelatorio(base: ReferenciaBase, numeroRelatorio: string, instituicao: string,
                          editora: string)
    | ReferenciaLei(base: ReferenciaBase, numeroLei: string, secao: string)
    | ReferenciaMidiaSocial(base: ReferenciaBase, plataformaSocial: PlataformaSocial,
                            username: string, conteudo: string, tipoPost: TipoPost)

  /** The `tipo` field of a reference. */
  function Tipo(ref: Referencia): TipoReferencia {
    match ref
    case ReferenciaArtigo(_, _, _, _, _, _) => Artigo
    case ReferenciaLivro(_, _, _, _, _) => Livro
    case ReferenciaCapitulo(_, _, _, _, _, _, _) => Capitulo
    case ReferenciaWebsite(_, _, _) => Website
    case ReferenciaTese(_, ehDissertacao, _, _, _) => if ehDissertacao then Dissertacao else Tese
    case ReferenciaJornal(_, _, _, _) => Jornal
    case ReferenciaVideo(_, _, _, _, _) => Video
    case ReferenciaPodcast(_, _, _, _, _, _) => Podcast
    case ReferenciaConferencia(_, _, _, _, _, _) => Conferencia
    case ReferenciaRelatorio(_, _, _, _) => Relatorio
    case ReferenciaLei(_, _, _) => Lei
    case ReferenciaMidiaSocial(_, _, _, _, _) => MidiaSocial
  }

  // ---------------------------------------------------------------------------
  // Type guards
  // ---------------------------------------------------------------------------

  // Each guard narrows the union to its own interface, which here is its
  // constructor; its contract states the tag test the guard makes: one tag
  // each, two for the thesis guard.
  predicate IsReferenciaArtigo(ref: Referencia)
    ensures IsReferenciaArtigo(ref) <==> Tipo(ref) == Artigo
  {
    ref.ReferenciaArtigo?
  }

  predicate IsReferenciaLivro(ref: Referencia)
    ensures IsReferenciaLivro(ref) <==> Tipo(ref) == Livro
  {
    ref.ReferenciaLivro?
  }

  predicate IsReferenciaCapitulo(ref: Referencia)
    ensures IsReferenciaCapitulo(ref) <==> Tipo(ref) == Capitulo
  {
    ref.ReferenciaCapitulo?
  }

  predicate IsReferenciaWebsite(ref: Referencia)
    ensures IsReferenciaWebsite(ref) <==> Tipo(ref) == Website
  {
    ref.ReferenciaWebsite?
  }

  predicate IsReferenciaTese(ref: Referencia)
    ensures IsReferenciaTese(ref) <==> Tipo(ref) == Tese || Tipo(ref) == Dissertacao
  {
    ref.ReferenciaTese?
  }

  predicate IsReferenciaVideo(ref: Referencia)
    ensures IsReferenciaVideo(ref) <==> Tipo(ref) == Video
  {
    ref.ReferenciaVideo?
  }

  predicate IsReferenciaPodcast(ref: Referencia)
    ensures IsReferenciaPodcast(ref) <==> Tipo(ref) == Podcast
  {
    ref.ReferenciaPodcast?
  }

  /** How many of the seven guards accept `ref`. */
  function GuardasAceitas(ref: Referencia): nat {
    (if IsReferenciaArtigo(ref) then 1 else 0)
    + (if IsReferenciaLivro(ref) then 1 else 0)
    + (if IsReferenciaCapitulo(ref) then 1 else 0)
    + (if IsReferenciaWebsite(ref) then 1 else 0)
    + (if IsReferenciaTese(ref) then 1 else 0)
    + (if IsReferenciaVideo(ref) then 1 else 0)
    + (if IsReferenciaPodcast(ref) then 1 else 0)
  }

  /** The five declared tags for which no guard (and so no formatter) exists. */
  predicate TipoSemFormatador(t: TipoReferencia) {
    t == Jornal || t == Conferencia || t == Relatorio || t == Lei || t == MidiaSocial
  }

  /** No reference satisfies two guards, and exactly the five unsupported
      tags satisfy none. */
  lemma GuardasDisjuntas(ref: Referencia)
    ensures GuardasAceitas(ref) <= 1
    ensures GuardasAceitas(ref) == 0 <==> TipoSemFormatador(Tipo(ref))
  {
  }

  /** The thesis guard is the only one shared by two tags. */
  lemma GuardaTeseDuasTags(ref: Referencia)
    ensures IsReferenciaTese(ref) <==> NomeTipo(Tipo(ref)) == "tese" || NomeTipo(Tipo(ref)) == "dissertacao"
  {
  }

  // ---------------------------------------------------------------------------
  // Output records
  // ---------------------------------------------------------------------------

  datatype ValidacaoReferencia = ValidacaoReferencia(
    valida: bool,
    completa: bool,
    camposObrigatoriosFaltantes: seq<string>,
    camposOpcionaisFaltantes: seq<string>,
    avisos: seq<string>,
    erros: seq<string>)

  datatype MetadadosReferencia = MetadadosReferencia(
    temDOI: bool,
    temURL: bool,
    quantidadeAutores: nat,
    contemAutorCorporativo: bool,
    idioma: Idioma)

  datatype ReferenciaFormatada = ReferenciaFormatada(
    referenciaCompleta: string,
    citacaoNarrativa: string,
    citacaoParentetica: string,
    tipoDetectado: TipoReferencia,
    validacao: ValidacaoReferencia,
    metadados: MetadadosReferencia)

  // ---------------------------------------------------------------------------
  // Configuration
  // ---------------------------------------------------------------------------

  datatype FormatoData = Completo | AnoMes | SoAno

  datatype UsarEtAl = UsarEtAl(apartirDeQuantosAutores: int, primeiraVez: bool)

  datatype ConfiguracaoAPA = ConfiguracaoAPA(
    idiomaPadrao: Idioma,
    formatoData: FormatoData,
    incluirDOI: bool,
    incluirURL: bool,
    incluirDataAcesso: bool,
    validacaoEstrita: bool,
    usarEtAl: UsarEtAl)

  /** The `usarEtAl` object a caller may pass, with either field left out. */
  datatype UsarEtAlParcial = UsarEtAlParcial(apartirDeQuantosAutores: Option<int>, primeiraVez: Option<bool>)

  /** `Partial<ConfiguracaoAPA>`: every option may be left out; calling the
      constructor with no argument is the value with every field `None`. */
  datatype ConfiguracaoParcial = ConfiguracaoParcial(
    idiomaPadrao: Option<Idioma>,
    formatoData: Option<FormatoData>,
    incluirDOI: Option<bool>,
    incluirURL: Option<bool>,
    incluirDataAcesso: Option<bool>,
    validacaoEstrita: Option<bool>,
    usarEtAl: Option<UsarEtAlParcial>)

  // ---------------------------------------------------------------------------
  // Constants
  // ---------------------------------------------------------------------------

  datatype Abreviacoes = Abreviacoes(
    ed: string, eds: string, ed_revisada: string, pagina: string, paginas: string,
    paragrafo: string, volume: string, numero: string, sem_data_pt: string,
    sem_data_en: string, et_al: string, traducao: string, organizador: string,
    coordenador: string)

  /** `ABREVIACOES`: the fixed abbreviations used in the output. */
  const ABREVIACOES := Abreviacoes(
    ed := "ed.", eds := "eds.", ed_revisada := "ed. rev.", pagina := "p.",
    paginas := "pp.", paragrafo := "para.", volume := "vol.", numero := "n.",
    sem_data_pt := "s.d.", sem_data_en := "n.d.", et_al := "et al.",
    traducao := "Trad.", organizador := "Org.", coordenador := "Coord.")

  // ---------------------------------------------------------------------------
  // Errors
  // ---------------------------------------------------------------------------

  datatype TipoErro = CampoObrigatorio | FormatoInvalido | TipoInvalido

  /** `ErroFormatacaoAPA`: an `Error` whose `name` is fixed and which keeps
      the kind, the offending field and the message it was built with. */
  datatype ErroFormatacaoAPA = ErroFormatacaoAPA(
    tipo: TipoErro, campo: string, message: string, name: string)

  /** `new ErroFormatacaoAPA(tipo, campo, message)`. */
  function NovoErroFormatacaoAPA(tipo: TipoErro, campo: string, message: string): (e: ErroFormatacaoAPA)
    ensures e.tipo == tipo && e.campo == campo && e.message == message
    ensures e.name == "ErroFormatacaoAPA"
  {
    ErroFormatacaoAPA(tipo, campo, message, "ErroFormatacaoAPA")
  }
}
