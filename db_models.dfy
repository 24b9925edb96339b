/**
 * Row shapes of the relational store: the two status enumerations and the
 * request, quote, review, client and provider records.
 *
 * Every quote carries its three ML bounds and its proposed value as plain
 * `real`s (the columns are NOT NULL); optional text columns are `Option`s;
 * timestamps are naturals supplied by the caller.
 */
module DbModels {
  import opened Wrappers

  /** Status of a service request; the stored string is `Value()`. */
  datatype StatusSolicitacao = Aguardando | ComOrcamentos | Fechada | Cancelada
  {
    function Value(): string {
      match this
      case Aguardando => "aguardando_orcamentos"
      case ComOrcamentos => "com_orcamentos"
      case Fechada => "fechada"
      case Cancelada => "cancelada"
    }
  }

  /** Status of a quote; the stored string is `Value()`. */
  datatype StatusOrcamento = Aguardando | Aceito | Recusado | Realizado
  {
    function Value(): string {
      match this
      case Aguardando => "aguardando"
      case Aceito => "aceito"
      case Recusado => "recusado"
      case Realizado => "realizado"
    }
  }

  /** Reading a stored request status back: exactly the four enumeration values are accepted. */
  function ParseStatusSolicitacao(t: string): (r: Option<StatusSolicitacao>)
    ensures forall s: StatusSolicitacao :: r == Some(s) <==> s.Value() == t
  {
    if t == "aguardando_orcamentos" then Some(StatusSolicitacao.Aguardando)
    else if t == "com_orcamentos" then Some(StatusSolicitacao.ComOrcamentos)
    else if t == "fechada" then Some(StatusSolicitacao.Fechada)
    else if t == "cancelada" then Some(StatusSolicitacao.Cancelada)
    else None
  }

  /** Reading a stored quote status back: exactly the four enumeration values are accepted. */
  function ParseStatusOrcamento(t: string): (r: Option<StatusOrcamento>)
    ensures forall s: StatusOrcamento :: r == Some(s) <==> s.Value() == t
  {
    if t == "aguardando" then Some(StatusOrcamento.Aguardando)
    else if t == "aceito" then Some(StatusOrcamento.Aceito)
    else if t == "recusado" then Some(StatusOrcamento.Recusado)
    else if t == "realizado" then Some(StatusOrcamento.Realizado)
    else None
  }

  datatype Solicitacao = Solicitacao(
    id: int,
    clienteId: int,
    categoria: string,
    descricao: string,
    localizacao: string,
    prazoDesejado: Option<string>,
    informacoesAdicionais: Option<string>,
    status: StatusSolicitacao,
    createdAt: nat)

  datatype Orcamento = Orcamento(
    id: int,
    solicitacaoId: int,
    prestadorId: int,
    valorMlMinimo: real,
    valorMlSugerido: real,
    valorMlMaximo: real,
    valorProposto: real,
    prazoExecucao: string,
    observacoes: Option<string>,
    condicoes: Option<string>,
    status: StatusOrcamento,
    createdAt: nat)

  /** A review; `estrelas` is 1..5 by the input schema. */
  datatype Avaliacao = Avaliacao(
    id: int,
    orcamentoId: int,
    clienteId: int,
    prestadorId: int,
    estrelas: int,
    comentario: Option<string>)

  datatype Cliente = Cliente(
    id: int,
    nome: string,
    email: string,
    senhaHash: string,
    telefone: Option<string>,
    cpf: Option<string>,
    endereco: Option<string>,
    avaliacaoMedia: real)

  datatype Prestador = Prestador(
    id: int,
    nome: string,
    email: string,
    senhaHash: string,
    telefone: Option<string>,
    cpfCnpj: Option<string>,
    categorias: seq<string>,
    regioesAtendimento: seq<string>,
    avaliacaoMedia: real)

  // Widths of the text columns the services write (`String(n)`, stored as a
  // PostgreSQL `varchar(n)`).
  const LarguraNome: nat := 100          // clientes.nome, prestadores.nome
  const LarguraEmail: nat := 100         // clientes.email, prestadores.email
  const LarguraSenhaHash: nat := 255     // clientes.senha_hash, prestadores.senha_hash
  const LarguraTelefone: nat := 20       // clientes.telefone, prestadores.telefone
  const LarguraDocumento: nat := 255     // clientes.cpf, prestadores.cpf_cnpj
  const LarguraCategoria: nat := 100     // solicitacoes.categoria
  const LarguraLocalizacao: nat := 255   // solicitacoes.localizacao
  const LarguraPrazo: nat := 100         // solicitacoes.prazo_desejado, orcamentos.prazo_execucao

  /**
   * Storing a text in a `varchar(n)` column, as PostgreSQL does (section 8.3,
   * "Character Types", of its manual): a text of at most n characters is
   * stored as it is; a longer one is cut to n characters when everything
   * past the n-th character is a space; otherwise the statement fails
   * ("value too long", string data right truncation) and `None` results.
   */
  function NaColuna(s: string, n: nat): (r: Option<string>)
    ensures r.Some? <==> forall i :: n <= i < |s| ==> s[i] == ' '
    ensures |s| <= n ==> r == Some(s)
    ensures r.Some? ==> r.value <= s && |r.value| == (if |s| <= n then |s| else n)
    ensures r.Some? ==> forall i :: |r.value| <= i < |s| ==> s[i] == ' '
  {
    if |s| <= n then Some(s)
    else if forall i :: n <= i < |s| ==> s[i] == ' ' then Some(s[..n])
    else None
  }

  /** The text can be stored in a column of width n. */
  predicate Cabe(s: string, n: nat) {
    NaColuna(s, n).Some?
  }

  /** A nullable column: NULL is stored as NULL, a text as `NaColuna` stores it. */
  function NaColunaOpcional(s: Option<string>, n: nat): (r: Option<Option<string>>)
    ensures r.Some? <==> s.None? || Cabe(s.value, n)
    ensures r.Some? ==> (r.value.None? <==> s.None?)
    ensures r.Some? && s.Some? ==> r.value.value <= s.value && |r.value.value| <= n
    ensures (s.None? || |s.value| <= n) ==> r == Some(s)
  {
    match s
    case None => Some(None)
    case Some(t) =>
      match NaColuna(t, n)
      case None => None
      case Some(u) => Some(Some(u))
  }

  /** Storing the stored text again changes nothing: a stored value always fits its column. */
  lemma NaColunaEstavel(s: string, n: nat)
    requires Cabe(s, n)
    ensures NaColuna(NaColuna(s, n).value, n) == NaColuna(s, n)
  {
  }

  /** The status column's default: a request inserted without a status is awaiting quotes. */
  function StatusSolicitacaoInicial(explicito: Option<StatusSolicitacao>): (s: StatusSolicitacao)
    ensures explicito.None? ==> s == StatusSolicitacao.Aguardando
    ensures explicito.Some? ==> s == explicito.value
  {
    if explicito.Some? then explicito.value else StatusSolicitacao.Aguardando
  }

  /** The status column's default: a quote inserted without a status is awaiting a decision. */
  function StatusOrcamentoInicial(explicito: Option<StatusOrcamento>): (s: StatusOrcamento)
    ensures explicito.None? ==> s == StatusOrcamento.Aguardando
    ensures explicito.Some? ==> s == explicito.value
  {
    if explicito.Some? then explicito.value else StatusOrcamento.Aguardando
  }
}
