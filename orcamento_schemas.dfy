/**
 * Request and response shapes of the quote endpoints. The client-facing
 * response carries no pricing-model bounds; only the provider's view adds
 * them.
 */
module OrcamentoSchemas {
  import opened Wrappers

  /**
   * The body of a quote submission. `observacoes` and `condicoes` are `None`
   * when the body leaves them out.
   */
  datatype OrcamentoCreate = OrcamentoCreate(
    solicitacaoId: int,
    valorProposto: real,
    prazoExecucao: string,
    observacoes: Option<string>,
    condicoes: Option<string>)

  const MensagemValorNaoPositivo: string := "Valor proposto deve ser maior que zero"

  /** The field validator of `valor_proposto`: zero and negative values are refused, others kept as they are. */
  function ValidarValorPositivo(v: real): (r: Result<real, string>)
    ensures r.Ok? <==> v > 0.0
    ensures r.Ok? ==> r.value == v
    ensures r.Err? ==> r.error == MensagemValorNaoPositivo
  {
    if v <= 0.0 then Err(MensagemValorNaoPositivo) else Ok(v)
  }

  /** Parsing a submission body: it is accepted exactly when its proposed value is positive, and then unchanged. */
  function ValidarOrcamentoCreate(corpo: OrcamentoCreate): (r: Result<OrcamentoCreate, string>)
    ensures r.Ok? <==> corpo.valorProposto > 0.0
    ensures r.Ok? ==> r.value == corpo
    ensures r.Err? ==> r.error == MensagemValorNaoPositivo
  {
    match ValidarValorPositivo(corpo.valorProposto)
    case Ok(v) => Ok(corpo.(valorProposto := v))
    case Err(e) => Err(e)
  }

  /** What a client sees of a quote; `realizado` is false unless set. */
  datatype OrcamentoResponse = OrcamentoResponse(
    valorProposto: real,
    prazoExecucao: string,
    observacoes: Option<string>,
    condicoes: Option<string>,
    id: int,
    solicitacaoId: int,
    prestadorId: int,
    status: string,
    createdAt: nat,
    realizado: bool,
    prestadorNome: Option<string>,
    prestadorAvaliacao: Option<real>)

  /** The provider's view of its own quote: the client view plus the three bounds and the request's text. */
  datatype OrcamentoComLimites = OrcamentoComLimites(
    resposta: OrcamentoResponse,
    valorMlMinimo: real,
    valorMlSugerido: real,
    valorMlMaximo: real,
    categoria: Option<string>,
    descricao: Option<string>)

  /** The pricing model's answer: three values and, optionally, the category it predicted. */
  datatype CalcularLimitesResponse = CalcularLimitesResponse(
    valorMinimo: real,
    valorSugerido: real,
    valorMaximo: real,
    categoriaPredita: Option<string>)
}
