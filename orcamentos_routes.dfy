/**
 * The guard and projection logic of the quote endpoints: quote submission
 * (404 for an unknown request, bounds from the pricing model), the client's
 * listing of a request's quotes (404 / 403 guards, no pricing bounds) and the
 * client's listing of finished quotes.
 *
 * The pricing model is a parameter: given a request's category, description
 * and location it answers minimum, suggested and maximum values.
 */
module OrcamentosRoutes {
  import opened Wrappers
  import opened DbModels
  import opened Session
  import opened OrcamentoSchemas
  import opened OrcamentoService
  import SolicitacaoService
  import Ordering

  /**
   * One row built by the client listings: the client view of the quote and
   * whether the quote already has a review. The declared response shape
   * (`OrcamentoResponse`) has no `ja_avaliado` field, so the flag is part of
   * the handler's rows but not of the serialized response.
   */
  datatype ItemCliente = ItemCliente(resposta: OrcamentoResponse, jaAvaliado: bool)

  /** Whether a review exists for quote `orcamentoId`. */
  function JaAvaliado(avaliacoes: seq<Avaliacao>, orcamentoId: int): (b: bool)
    ensures b <==> exists i :: 0 <= i < |avaliacoes| && avaliacoes[i].orcamentoId == orcamentoId
  {
    if avaliacoes == [] then false
    else avaliacoes[0].orcamentoId == orcamentoId || JaAvaliado(avaliacoes[1..], orcamentoId)
  }

  /** The client view of a quote: its own fields and the provider's name and mean rating, no bounds. */
  function VisaoCliente(o: Orcamento, p: Prestador): OrcamentoResponse {
    OrcamentoResponse(
      o.valorProposto, o.prazoExecucao, o.observacoes, o.condicoes,
      o.id, o.solicitacaoId, o.prestadorId, o.status.Value(), o.createdAt,
      false, Some(p.nome), Some(p.avaliacaoMedia))
  }

  /** The client view does not depend on the pricing-model bounds stored with the quote. */
  lemma VisaoClienteSemLimites(o: Orcamento, p: Prestador, minimo: real, sugerido: real, maximo: real)
    ensures VisaoCliente(o.(valorMlMinimo := minimo, valorMlSugerido := sugerido, valorMlMaximo := maximo), p)
         == VisaoCliente(o, p)
  {
  }

  /** The client view never sets `realizado`, not even for a finished quote. */
  lemma VisaoClienteNuncaRealizado(o: Orcamento, p: Prestador)
    ensures !VisaoCliente(o, p).realizado
    ensures VisaoCliente(o, p).status == o.status.Value()
  {
  }

  /** The row the client listings build for a stored quote. */
  function ItemDe(db: Database, o: Orcamento): ItemCliente
    reads db
    requires o.prestadorId in db.prestadores
  {
    ItemCliente(VisaoCliente(o, db.prestadores[o.prestadorId]), JaAvaliado(db.avaliacoes, o.id))
  }

  /** The loop that turns the selected quotes into rows, one row per quote, in the same order. */
  method Projetar(db: Database, orcs: seq<Orcamento>) returns (r: seq<ItemCliente>)
    requires forall o :: o in orcs ==> o.prestadorId in db.prestadores
    ensures |r| == |orcs|
    ensures forall i :: 0 <= i < |orcs| ==> r[i] == ItemDe(db, orcs[i])
  {
    r := [];
    var i := 0;
    while i < |orcs|
      invariant 0 <= i <= |orcs|
      invariant |r| == i
      invariant forall j :: 0 <= j < i ==> r[j] == ItemDe(db, orcs[j])
    {
      r := r + [ItemDe(db, orcs[i])];
      i := i + 1;
    }
  }

  /**
   * The client lists the quotes of a request: 404 for an unknown request,
   * 403 for another client's request; otherwise one row per quote of the
   * request, cheapest first, with the review flag.
   */
  method ListarOrcamentosDaSolicitacao(db: Database, solicitacaoId: int, clienteId: int)
    returns (r: Result<seq<ItemCliente>, HttpError>)
    requires db.Valid()
    ensures solicitacaoId !in db.solicitacoes ==> r == Err(NotFound)
    ensures (solicitacaoId in db.solicitacoes && db.solicitacoes[solicitacaoId].clienteId != clienteId) ==>
      r == Err(Forbidden)
    ensures r.Ok? ==> solicitacaoId in db.solicitacoes && db.solicitacoes[solicitacaoId].clienteId == clienteId
    ensures r.Ok? ==> forall x :: x in r.value ==>
      x.resposta.id in db.orcamentos && db.orcamentos[x.resposta.id].solicitacaoId == solicitacaoId &&
      x == ItemDe(db, db.orcamentos[x.resposta.id])
    ensures r.Ok? ==> forall k :: k in db.orcamentos && db.orcamentos[k].solicitacaoId == solicitacaoId ==>
      ItemDe(db, db.orcamentos[k]) in r.value
    ensures r.Ok? ==> forall i, j :: 0 <= i < j < |r.value| ==>
      r.value[i].resposta.id != r.value[j].resposta.id &&
      r.value[i].resposta.valorProposto <= r.value[j].resposta.valorProposto
    ensures r.Ok? ==> forall x :: x in r.value ==>
      (x.jaAvaliado <==> exists i :: 0 <= i < |db.avaliacoes| && db.avaliacoes[i].orcamentoId == x.resposta.id)
  {
    if solicitacaoId !in db.solicitacoes {
      return Err(NotFound);
    }
    if db.solicitacoes[solicitacaoId].clienteId != clienteId {
      return Err(Forbidden);
    }
    var orcs := ListarOrcamentosSolicitacao(db, solicitacaoId);
    var itens := Projetar(db, orcs);
    forall k | k in db.orcamentos && db.orcamentos[k].solicitacaoId == solicitacaoId
      ensures ItemDe(db, db.orcamentos[k]) in itens
    {
      var o := db.orcamentos[k];
      assert o in orcs;
      var i :| 0 <= i < |orcs| && orcs[i] == o;
      assert itens[i] == ItemDe(db, o);
    }
    r := Ok(itens);
  }

  /**
   * The client lists its finished quotes (for reviewing): exactly the quotes
   * marked done whose request belongs to the client. No order is requested
   * from the database, so none is promised.
   */
  method ListarOrcamentosRealizadosCliente(db: Database, clienteId: int) returns (r: seq<ItemCliente>)
    requires db.Valid()
    ensures forall x :: x in r ==>
      var k := x.resposta.id;
      k in db.orcamentos && x == ItemDe(db, db.orcamentos[k]) &&
      db.orcamentos[k].status == StatusOrcamento.Realizado &&
      db.solicitacoes[db.orcamentos[k].solicitacaoId].clienteId == clienteId
    ensures forall k :: (k in db.orcamentos && db.orcamentos[k].status == StatusOrcamento.Realizado &&
                         db.solicitacoes[db.orcamentos[k].solicitacaoId].clienteId == clienteId) ==>
      ItemDe(db, db.orcamentos[k]) in r
    ensures forall i, j :: 0 <= i < j < |r| ==> r[i].resposta.id != r[j].resposta.id
  {
    var solicitacoes := db.solicitacoes;
    var orcs := Ordering.SelectSorted(db.orcamentos, (o: Orcamento) => o.id,
      (o: Orcamento) => o.status == StatusOrcamento.Realizado &&
        o.solicitacaoId in solicitacoes && solicitacoes[o.solicitacaoId].clienteId == clienteId,
      (o: Orcamento) => 0.0);
    r := Projetar(db, orcs);
    forall k | k in db.orcamentos && db.orcamentos[k].status == StatusOrcamento.Realizado &&
      db.solicitacoes[db.orcamentos[k].solicitacaoId].clienteId == clienteId
      ensures ItemDe(db, db.orcamentos[k]) in r
    {
      var o := db.orcamentos[k];
      assert o in orcs;
      var i :| 0 <= i < |orcs| && orcs[i] == o;
      assert r[i] == ItemDe(db, o);
    }
  }

  /**
   * Quote submission: the body must have a positive value (422 otherwise);
   * an unknown request gives 404; otherwise the bounds are the pricing
   * model's answer for the request's category, description and location, and
   * the quote service decides: it succeeds exactly when the value is inside
   * the bounds, the delivery time fits its column and the provider is stored.
   */
  method CriarOrcamentoEndpoint(db: Database, corpo: OrcamentoCreate, prestadorId: int,
                                precificar: (string, string, string) -> Limites, agora: nat)
    returns (r: Result<OrcamentoResponse, HttpError>)
    requires db.Valid()
    modifies db`orcamentos, db`solicitacoes, db`nextOrcamentoId
    ensures db.Valid()
    ensures corpo.valorProposto <= 0.0 ==> r == Err(InvalidBody(MensagemValorNaoPositivo)) && unchanged(db)
    ensures (corpo.valorProposto > 0.0 && corpo.solicitacaoId !in old(db.solicitacoes)) ==>
      r == Err(NotFound) && unchanged(db)
    ensures (corpo.valorProposto > 0.0 && corpo.solicitacaoId in old(db.solicitacoes)) ==>
      var s := old(db.solicitacoes)[corpo.solicitacaoId];
      var limites := precificar(s.categoria, s.descricao, s.localizacao);
      && (ForaDosLimites(corpo.valorProposto, limites).Some? ==>
            r == Err(ForaDosLimites(corpo.valorProposto, limites).value))
      && (ForaDosLimites(corpo.valorProposto, limites).None? && !Cabe(corpo.prazoExecucao, LarguraPrazo) ==>
            r == Err(DataError))
      && (ForaDosLimites(corpo.valorProposto, limites).None? && Cabe(corpo.prazoExecucao, LarguraPrazo) &&
          prestadorId !in old(db.prestadores) ==>
            r == Err(IntegrityError))
      && (r.Ok? <==>
            && ForaDosLimites(corpo.valorProposto, limites).None? && Cabe(corpo.prazoExecucao, LarguraPrazo)
            && prestadorId in old(db.prestadores))
      && (r.Ok? ==>
            var k := old(db.nextOrcamentoId);
            && k in db.orcamentos && prestadorId in db.prestadores
            && db.orcamentos == old(db.orcamentos)[k := db.orcamentos[k]]
            && db.orcamentos[k].valorMlMinimo == limites.valorMinimo
            && db.orcamentos[k].valorMlSugerido == limites.valorSugerido
            && db.orcamentos[k].valorMlMaximo == limites.valorMaximo
            && db.orcamentos[k].prazoExecucao == NaColuna(corpo.prazoExecucao, LarguraPrazo).value
            && r.value == VisaoCliente(db.orcamentos[k], db.prestadores[prestadorId]))
  {
    var valido := ValidarOrcamentoCreate(corpo);
    if valido.Err? {
      return Err(InvalidBody(valido.error));
    }
    var dados := valido.value;
    var busca := SolicitacaoService.BuscarSolicitacao(db, dados.solicitacaoId);
    if busca.None? {
      return Err(NotFound);
    }
    var s := busca.value;
    var limites := precificar(s.categoria, s.descricao, s.localizacao);
    var criado := CriarOrcamento(db, prestadorId, dados, limites, agora);
    if criado.Err? {
      return Err(criado.error);
    }
    r := Ok(VisaoCliente(criado.value, db.prestadores[prestadorId]));
  }
}
