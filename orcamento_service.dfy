/**
 * The quote service over the relational store: a provider submits a quote
 * priced inside the pricing model's bounds, the owner of the request accepts
 * one quote (which refuses every other quote of the request), the provider
 * marks the accepted quote as done (which closes the request), and a provider
 * may withdraw a quote that is still awaiting a decision.
 */
module OrcamentoService {
  import opened Wrappers
  import opened DbModels
  import opened Session
  import opened OrcamentoSchemas
  import Ordering

  /** The pricing model's bounds for a request (the `limites_ml` dictionary). */
  datatype Limites = Limites(valorMinimo: real, valorSugerido: real, valorMaximo: real)

  /**
   * The bounds check of quote creation: no error exactly when the proposed
   * value lies in [minimum, maximum] (both ends included); a rejection names
   * the proposed value and the bound it violates, the minimum being checked
   * first (so with a minimum above the maximum a low value is reported as
   * below the minimum).
   */
  function ForaDosLimites(valor: real, limites: Limites): (e: Option<HttpError>)
    ensures e.None? <==> limites.valorMinimo <= valor <= limites.valorMaximo
    ensures e.Some? ==> e.value.StatusCode() == 400
    ensures valor < limites.valorMinimo ==> e == Some(BelowMinimum(valor, limites.valorMinimo))
    ensures limites.valorMinimo <= valor && limites.valorMaximo < valor ==>
      e == Some(AboveMaximum(valor, limites.valorMaximo))
  {
    if valor < limites.valorMinimo then Some(BelowMinimum(valor, limites.valorMinimo))
    else if valor > limites.valorMaximo then Some(AboveMaximum(valor, limites.valorMaximo))
    else None
  }

  /** The ids of the accepted quotes of request `sid`. */
  ghost function AceitosDe(orcs: map<int, Orcamento>, sid: int): set<int> {
    set k | k in orcs && orcs[k].solicitacaoId == sid && orcs[k].status == StatusOrcamento.Aceito
  }

  /** The ids of the quotes of request `sid`. */
  ghost function OrcamentosDe(orcs: map<int, Orcamento>, sid: int): set<int> {
    set k | k in orcs && orcs[k].solicitacaoId == sid
  }

  /** Whether some review names quote `orcamentoId`. */
  ghost predicate OrcamentoAvaliado(db: Database, orcamentoId: int)
    reads db
  {
    exists i :: 0 <= i < |db.avaliacoes| && db.avaliacoes[i].orcamentoId == orcamentoId
  }

  /**
   * The commit of a new quote whose request and provider are stored: the
   * quote is stored under the next id, and its request moves from awaiting
   * quotes to having quotes (any other status is kept).
   */
  method InserirOrcamento(db: Database, o: Orcamento)
    requires db.Valid() && o.id == db.nextOrcamentoId
    requires o.solicitacaoId in db.solicitacoes && o.prestadorId in db.prestadores
    modifies db`orcamentos, db`solicitacoes, db`nextOrcamentoId
    ensures db.Valid()
    ensures db.orcamentos == old(db.orcamentos)[o.id := o] && o.id !in old(db.orcamentos)
    ensures db.nextOrcamentoId == old(db.nextOrcamentoId) + 1
    ensures var s := old(db.solicitacoes)[o.solicitacaoId];
      db.solicitacoes == old(db.solicitacoes)[o.solicitacaoId :=
        if s.status == StatusSolicitacao.Aguardando then s.(status := StatusSolicitacao.ComOrcamentos) else s]
  {
    AnexarOrcamento(db, o);
    var s := db.solicitacoes[o.solicitacaoId];
    if s.status == StatusSolicitacao.Aguardando {
      MudarStatusSolicitacao(db, o.solicitacaoId, StatusSolicitacao.ComOrcamentos);
    }
  }

  /** Stores a new quote under the next quote id. */
  method AnexarOrcamento(db: Database, o: Orcamento)
    requires db.Valid() && o.id == db.nextOrcamentoId
    requires o.solicitacaoId in db.solicitacoes && o.prestadorId in db.prestadores
    modifies db`orcamentos, db`nextOrcamentoId
    ensures db.Valid()
    ensures db.orcamentos == old(db.orcamentos)[o.id := o] && o.id !in old(db.orcamentos)
    ensures db.nextOrcamentoId == old(db.nextOrcamentoId) + 1
  {
    db.orcamentos := db.orcamentos[o.id := o];
    db.nextOrcamentoId := db.nextOrcamentoId + 1;
    assert db.KeysValid() && db.RequestsReferenceClients();
    assert db.QuotesReferenceRequests() && db.ReviewsReferenceRows();
  }

  /** The same quotes, each with the same id, request and provider (only other fields may differ). */
  ghost predicate MesmasReferencias(antes: map<int, Orcamento>, depois: map<int, Orcamento>) {
    && antes.Keys == depois.Keys
    && forall k :: k in depois ==>
         depois[k].id == antes[k].id && depois[k].solicitacaoId == antes[k].solicitacaoId &&
         depois[k].prestadorId == antes[k].prestadorId
  }

  /**
   * A commit that rewrites quote rows without touching their keys, request
   * or provider: the schema invariant is kept.
   */
  method SubstituirOrcamentos(db: Database, novos: map<int, Orcamento>)
    requires db.Valid() && MesmasReferencias(db.orcamentos, novos)
    modifies db`orcamentos
    ensures db.Valid()
    ensures db.orcamentos == novos
  {
    db.orcamentos := novos;
    assert db.KeysValid() && db.RequestsReferenceClients();
    assert db.QuotesReferenceRequests() && db.ReviewsReferenceRows();
  }

  /** The commit that removes a quote no review names: only that quote goes, and the schema invariant is kept. */
  method RemoverOrcamento(db: Database, orcamentoId: int)
    requires db.Valid() && !OrcamentoAvaliado(db, orcamentoId)
    modifies db`orcamentos
    ensures db.Valid()
    ensures db.orcamentos == old(db.orcamentos) - {orcamentoId}
  {
    db.orcamentos := db.orcamentos - {orcamentoId};
    assert db.KeysValid() && db.RequestsReferenceClients() && db.QuotesReferenceRequests();
    assert db.ReviewsReferenceRows();
  }

  /** A status change of a stored request: only that request's status changes, and the schema invariant is kept. */
  method MudarStatusSolicitacao(db: Database, sid: int, status: StatusSolicitacao)
    requires db.Valid() && sid in db.solicitacoes
    modifies db`solicitacoes
    ensures db.Valid()
    ensures db.solicitacoes == old(db.solicitacoes)[sid := old(db.solicitacoes)[sid].(status := status)]
  {
    db.solicitacoes := db.solicitacoes[sid := db.solicitacoes[sid].(status := status)];
    assert db.solicitacoes.Keys == old(db.solicitacoes).Keys;
    assert db.KeysValid() && db.RequestsReferenceClients();
    assert db.QuotesReferenceRequests() && db.ReviewsReferenceRows();
  }

  /**
   * The quote row the insert writes: the pricing model's bounds, the
   * proposed value, awaiting a decision, and the delivery time as its
   * `varchar` column stores it; `None` when that text does not fit.
   */
  function LinhaOrcamento(id: int, prestadorId: int, dados: OrcamentoCreate, limites: Limites, agora: nat)
    : (r: Option<Orcamento>)
    ensures r.Some? <==> Cabe(dados.prazoExecucao, LarguraPrazo)
    ensures r.Some? ==>
      && r.value.id == id && r.value.solicitacaoId == dados.solicitacaoId && r.value.prestadorId == prestadorId
      && r.value.valorMlMinimo == limites.valorMinimo && r.value.valorMlSugerido == limites.valorSugerido
      && r.value.valorMlMaximo == limites.valorMaximo && r.value.valorProposto == dados.valorProposto
      && r.value.prazoExecucao == NaColuna(dados.prazoExecucao, LarguraPrazo).value
      && r.value.observacoes == dados.observacoes && r.value.condicoes == dados.condicoes
      && r.value.status == StatusOrcamento.Aguardando && r.value.createdAt == agora
    ensures |dados.prazoExecucao| <= LarguraPrazo ==> r.Some? && r.value.prazoExecucao == dados.prazoExecucao
  {
    match NaColuna(dados.prazoExecucao, LarguraPrazo)
    case None => None
    case Some(prazo) =>
      Some(Orcamento(
        id, dados.solicitacaoId, prestadorId,
        limites.valorMinimo, limites.valorSugerido, limites.valorMaximo,
        dados.valorProposto, prazo, dados.observacoes, dados.condicoes,
        StatusOrcamentoInicial(None), agora))
  }

  /**
   * Submits a quote. A value outside the bounds is refused first; then the
   * commit fails when the delivery time does not fit its column (data
   * error), and otherwise on the foreign keys when the request or the
   * provider is unknown. The new quote is awaiting a decision and stores the
   * bounds and the proposed value as given; its request moves from awaiting
   * quotes to having quotes, and any other request status is left as it is
   * (a closed or cancelled request still takes quotes).
   */
  method CriarOrcamento(db: Database, prestadorId: int, dados: OrcamentoCreate, limites: Limites, agora: nat)
    returns (r: Result<Orcamento, HttpError>)
    requires db.Valid()
    modifies db`orcamentos, db`solicitacoes, db`nextOrcamentoId
    ensures db.Valid()
    ensures r.Err? ==> unchanged(db)
    ensures ForaDosLimites(dados.valorProposto, limites).Some? ==>
      r == Err(ForaDosLimites(dados.valorProposto, limites).value)
    ensures ForaDosLimites(dados.valorProposto, limites).None? ==>
      var linha := LinhaOrcamento(old(db.nextOrcamentoId), prestadorId, dados, limites, agora);
      && (r == Err(DataError) <==> linha.None?)
      && (r == Err(IntegrityError) <==>
            linha.Some? && (dados.solicitacaoId !in old(db.solicitacoes) || prestadorId !in old(db.prestadores)))
      && (r.Ok? <==> linha.Some? && dados.solicitacaoId in old(db.solicitacoes) && prestadorId in old(db.prestadores))
    ensures r.Ok? ==>
      var s := old(db.solicitacoes)[dados.solicitacaoId];
      && LinhaOrcamento(old(db.nextOrcamentoId), prestadorId, dados, limites, agora) == Some(r.value)
      && r.value.id !in old(db.orcamentos)
      && db.orcamentos == old(db.orcamentos)[r.value.id := r.value]
      && db.solicitacoes == old(db.solicitacoes)[dados.solicitacaoId :=
           if s.status == StatusSolicitacao.Aguardando then s.(status := StatusSolicitacao.ComOrcamentos) else s]
  {
    var erro := ForaDosLimites(dados.valorProposto, limites);
    if erro.Some? {
      return Err(erro.value);
    }
    var linha := LinhaOrcamento(db.nextOrcamentoId, prestadorId, dados, limites, agora);
    if linha.None? {
      return Err(DataError);
    }
    if dados.solicitacaoId !in db.solicitacoes || prestadorId !in db.prestadores {
      return Err(IntegrityError);
    }
    var o := linha.value;
    InserirOrcamento(db, o);
    r := Ok(o);
  }

  /** The quotes of one request, cheapest first (the client's comparison view). */
  method ListarOrcamentosSolicitacao(db: Database, solicitacaoId: int) returns (r: seq<Orcamento>)
    requires db.Valid()
    ensures forall o :: o in r <==> o.id in db.orcamentos && db.orcamentos[o.id] == o && o.solicitacaoId == solicitacaoId
    ensures forall i, j :: 0 <= i < j < |r| ==> r[i].id != r[j].id
    ensures forall i, j :: 0 <= i < j < |r| ==> r[i].valorProposto <= r[j].valorProposto
  {
    r := Ordering.SelectSorted(db.orcamentos, (o: Orcamento) => o.id,
      (o: Orcamento) => o.solicitacaoId == solicitacaoId, (o: Orcamento) => o.valorProposto);
  }

  /** The quotes one provider has sent, newest first. */
  method ListarOrcamentosPrestador(db: Database, prestadorId: int) returns (r: seq<Orcamento>)
    requires db.Valid()
    ensures forall o :: o in r <==> o.id in db.orcamentos && db.orcamentos[o.id] == o && o.prestadorId == prestadorId
    ensures forall i, j :: 0 <= i < j < |r| ==> r[i].id != r[j].id
    ensures forall i, j :: 0 <= i < j < |r| ==> r[i].createdAt >= r[j].createdAt
  {
    var rank := (o: Orcamento) => -(o.createdAt as real);
    r := Ordering.SelectSorted(db.orcamentos, (o: Orcamento) => o.id,
      (o: Orcamento) => o.prestadorId == prestadorId, rank);
    forall i, j | 0 <= i < j < |r| ensures r[i].createdAt >= r[j].createdAt {
      assert rank(r[i]) <= rank(r[j]);
    }
  }

  /** Looking a quote up by primary key. */
  function BuscarOrcamento(db: Database, orcamentoId: int): (r: Option<Orcamento>)
    reads db
    requires db.Valid()
    ensures r.None? <==> orcamentoId !in db.orcamentos
    ensures r.Some? ==> r.value == db.orcamentos[orcamentoId] && r.value.id == orcamentoId
  {
    if orcamentoId in db.orcamentos then Some(db.orcamentos[orcamentoId]) else None
  }

  /**
   * The refusal loop of an acceptance: every quote of request `sid` other
   * than `aceito` becomes refused, whatever its status; all other quotes are
   * left as they are.
   */
  method RecusarDemais(orcs: map<int, Orcamento>, sid: int, aceito: int) returns (r: map<int, Orcamento>)
    ensures r.Keys == orcs.Keys
    ensures forall k :: k in orcs && k != aceito && orcs[k].solicitacaoId == sid ==>
      r[k] == orcs[k].(status := StatusOrcamento.Recusado)
    ensures forall k :: k in orcs && (k == aceito || orcs[k].solicitacaoId != sid) ==> r[k] == orcs[k]
  {
    var outros := set k | k in orcs && orcs[k].solicitacaoId == sid && k != aceito;
    var pendentes := outros;
    r := orcs;
    while pendentes != {}
      invariant pendentes <= outros
      invariant r.Keys == orcs.Keys
      invariant forall k :: k in outros && k !in pendentes ==> r[k] == orcs[k].(status := StatusOrcamento.Recusado)
      invariant forall k :: k in orcs && (k !in outros || k in pendentes) ==> r[k] == orcs[k]
      decreases |pendentes|
    {
      var k := Ordering.Pick(pendentes);
      r := r[k := r[k].(status := StatusOrcamento.Recusado)];
      pendentes := pendentes - {k};
    }
  }

  /**
   * The quotes after accepting `aceito`: the same keys, the target accepted,
   * every other quote of its request refused whatever its status, and the
   * quotes of other requests unchanged.
   */
  ghost predicate Aceitacao(antes: map<int, Orcamento>, depois: map<int, Orcamento>, aceito: int) {
    && aceito in antes
    && depois.Keys == antes.Keys
    && depois[aceito] == antes[aceito].(status := StatusOrcamento.Aceito)
    && (forall k :: k in antes && k != aceito && antes[k].solicitacaoId == antes[aceito].solicitacaoId ==>
          depois[k] == antes[k].(status := StatusOrcamento.Recusado))
    && (forall k :: k in antes && antes[k].solicitacaoId != antes[aceito].solicitacaoId ==> depois[k] == antes[k])
  }

  /**
   * After an acceptance (the target accepted, every other quote of its
   * request refused) the target is the one accepted quote of the request.
   */
  lemma UnicoAceito(antes: map<int, Orcamento>, depois: map<int, Orcamento>, sid: int, aceito: int)
    requires aceito in antes && antes[aceito].solicitacaoId == sid
    requires Aceitacao(antes, depois, aceito)
    ensures AceitosDe(depois, sid) == {aceito}
  {
    forall k | k in AceitosDe(depois, sid) ensures k == aceito {
      assert depois[k].status == StatusOrcamento.Aceito;
    }
  }

  /** An acceptance changes only statuses, so every quote keeps its id, request and provider. */
  lemma AceitacaoMantemReferencias(antes: map<int, Orcamento>, depois: map<int, Orcamento>, aceito: int)
    requires Aceitacao(antes, depois, aceito)
    ensures MesmasReferencias(antes, depois)
  {
    forall k | k in depois
      ensures depois[k].id == antes[k].id && depois[k].solicitacaoId == antes[k].solicitacaoId
      ensures depois[k].prestadorId == antes[k].prestadorId
    {
      if k != aceito && antes[k].solicitacaoId == antes[aceito].solicitacaoId {
        assert depois[k] == antes[k].(status := StatusOrcamento.Recusado);
      }
    }
  }

  /**
   * The commit of an acceptance: the quotes change as `Aceitacao` says, the
   * request is marked as having quotes, and the target is then the one
   * accepted quote of its request.
   */
  method Aceitar(db: Database, orcamentoId: int)
    requires db.Valid() && orcamentoId in db.orcamentos
    modifies db`orcamentos, db`solicitacoes
    ensures db.Valid()
    ensures Aceitacao(old(db.orcamentos), db.orcamentos, orcamentoId)
    ensures var sid := old(db.orcamentos)[orcamentoId].solicitacaoId;
      && db.solicitacoes == old(db.solicitacoes)[sid := old(db.solicitacoes)[sid].(status := StatusSolicitacao.ComOrcamentos)]
      && AceitosDe(db.orcamentos, sid) == {orcamentoId}
  {
    var alvo := db.orcamentos[orcamentoId];
    var sid := alvo.solicitacaoId;
    var recusados := RecusarDemais(db.orcamentos, sid, orcamentoId);
    var novos := recusados[orcamentoId := alvo.(status := StatusOrcamento.Aceito)];
    assert Aceitacao(db.orcamentos, novos, orcamentoId);
    AceitacaoMantemReferencias(db.orcamentos, novos, orcamentoId);
    SubstituirOrcamentos(db, novos);
    MudarStatusSolicitacao(db, sid, StatusSolicitacao.ComOrcamentos);
    UnicoAceito(old(db.orcamentos), db.orcamentos, sid, orcamentoId);
  }

  /**
   * The owner of the request accepts a quote. The quote's prior status is not
   * checked. It becomes accepted, every other quote of the same request
   * becomes refused whatever its status, and the request is marked as having
   * quotes. Afterwards the accepted quote is the only accepted one of its
   * request.
   */
  method AceitarOrcamento(db: Database, orcamentoId: int, clienteId: int)
    returns (r: Result<Option<Orcamento>, HttpError>)
    requires db.Valid()
    modifies db`orcamentos, db`solicitacoes
    ensures db.Valid()
    ensures orcamentoId !in old(db.orcamentos) ==> r == Ok(None) && unchanged(db)
    ensures (orcamentoId in old(db.orcamentos) &&
             old(db.solicitacoes)[old(db.orcamentos)[orcamentoId].solicitacaoId].clienteId != clienteId) ==>
      r == Err(Forbidden) && unchanged(db)
    ensures (orcamentoId in old(db.orcamentos) &&
             old(db.solicitacoes)[old(db.orcamentos)[orcamentoId].solicitacaoId].clienteId == clienteId) ==>
      r.Ok? && r.value.Some?
    ensures r.Ok? && r.value.Some? ==> orcamentoId in old(db.orcamentos) && orcamentoId in db.orcamentos
    ensures r.Ok? && r.value.Some? ==>
      var sid := old(db.orcamentos)[orcamentoId].solicitacaoId;
      && old(db.solicitacoes)[sid].clienteId == clienteId
      && r.value.value == db.orcamentos[orcamentoId]
      && Aceitacao(old(db.orcamentos), db.orcamentos, orcamentoId)
      && db.solicitacoes == old(db.solicitacoes)[sid := old(db.solicitacoes)[sid].(status := StatusSolicitacao.ComOrcamentos)]
      && AceitosDe(db.orcamentos, sid) == {orcamentoId}
    ensures r.Ok? || r == Err(Forbidden)
  {
    if orcamentoId !in db.orcamentos {
      return Ok(None);
    }
    var alvo := db.orcamentos[orcamentoId];
    var sid := alvo.solicitacaoId;
    var solicitacao := db.solicitacoes[sid];
    if solicitacao.clienteId != clienteId {
      return Err(Forbidden);
    }
    Aceitar(db, orcamentoId);
    r := Ok(Some(db.orcamentos[orcamentoId]));
  }

  /**
   * The provider of an accepted quote marks the work as done: the quote
   * becomes done and its request closed. Another provider gets 403 and a
   * quote that is not accepted gets 400.
   */
  method MarcarRealizado(db: Database, orcamentoId: int, prestadorId: int)
    returns (r: Result<Option<Orcamento>, HttpError>)
    requires db.Valid()
    modifies db`orcamentos, db`solicitacoes
    ensures db.Valid()
    ensures orcamentoId !in old(db.orcamentos) ==> r == Ok(None)
    ensures orcamentoId in old(db.orcamentos) && old(db.orcamentos)[orcamentoId].prestadorId != prestadorId ==>
      r == Err(Forbidden)
    ensures (orcamentoId in old(db.orcamentos) && old(db.orcamentos)[orcamentoId].prestadorId == prestadorId &&
             old(db.orcamentos)[orcamentoId].status != StatusOrcamento.Aceito) ==>
      r == Err(MustBeAccepted)
    ensures (orcamentoId in old(db.orcamentos) && old(db.orcamentos)[orcamentoId].prestadorId == prestadorId &&
             old(db.orcamentos)[orcamentoId].status == StatusOrcamento.Aceito) ==>
      r.Ok? && r.value.Some?
    ensures !(r.Ok? && r.value.Some?) ==> unchanged(db)
    ensures r.Ok? && r.value.Some? ==>
      var o := old(db.orcamentos)[orcamentoId];
      && o.prestadorId == prestadorId && o.status == StatusOrcamento.Aceito
      && r.value.value == o.(status := StatusOrcamento.Realizado)
      && db.orcamentos == old(db.orcamentos)[orcamentoId := o.(status := StatusOrcamento.Realizado)]
      && db.solicitacoes == old(db.solicitacoes)[o.solicitacaoId :=
           old(db.solicitacoes)[o.solicitacaoId].(status := StatusSolicitacao.Fechada)]
  {
    if orcamentoId !in db.orcamentos {
      return Ok(None);
    }
    var o := db.orcamentos[orcamentoId];
    if o.prestadorId != prestadorId {
      return Err(Forbidden);
    }
    if o.status != StatusOrcamento.Aceito {
      return Err(MustBeAccepted);
    }
    var feito := o.(status := StatusOrcamento.Realizado);
    db.orcamentos := db.orcamentos[orcamentoId := feito];
    var s := db.solicitacoes[o.solicitacaoId];
    db.solicitacoes := db.solicitacoes[o.solicitacaoId := s.(status := StatusSolicitacao.Fechada)];
    r := Ok(Some(feito));
  }

  /**
   * The provider withdraws a quote that is still awaiting a decision. Only
   * that quote is removed; when it was the last quote of its request, a
   * request marked as having quotes goes back to awaiting quotes. Reviews do
   * not check the quote's status, so an awaiting quote can have a review;
   * removing it then breaks the `avaliacoes.orcamento_id` foreign key, the
   * commit fails and nothing changes.
   */
  method DeletarOrcamento(db: Database, orcamentoId: int, prestadorId: int)
    returns (r: Result<bool, HttpError>)
    requires db.Valid()
    modifies db`orcamentos, db`solicitacoes
    ensures db.Valid()
    ensures orcamentoId !in old(db.orcamentos) ==> r == Ok(false)
    ensures orcamentoId in old(db.orcamentos) && old(db.orcamentos)[orcamentoId].prestadorId != prestadorId ==>
      r == Err(Forbidden)
    ensures (orcamentoId in old(db.orcamentos) && old(db.orcamentos)[orcamentoId].prestadorId == prestadorId &&
             old(db.orcamentos)[orcamentoId].status != StatusOrcamento.Aguardando) ==>
      r == Err(OnlyAwaitingDeletable)
    ensures r == Ok(true) <==>
      && orcamentoId in old(db.orcamentos) && old(db.orcamentos)[orcamentoId].prestadorId == prestadorId
      && old(db.orcamentos)[orcamentoId].status == StatusOrcamento.Aguardando
      && !old(OrcamentoAvaliado(db, orcamentoId))
    ensures r == Err(IntegrityError) <==>
      && orcamentoId in old(db.orcamentos) && old(db.orcamentos)[orcamentoId].prestadorId == prestadorId
      && old(db.orcamentos)[orcamentoId].status == StatusOrcamento.Aguardando
      && old(OrcamentoAvaliado(db, orcamentoId))
    ensures r != Ok(true) ==> unchanged(db)
    ensures r == Ok(true) ==>
      var o := old(db.orcamentos)[orcamentoId];
      var s := old(db.solicitacoes)[o.solicitacaoId];
      && o.prestadorId == prestadorId && o.status == StatusOrcamento.Aguardando
      && db.orcamentos == old(db.orcamentos) - {orcamentoId}
      && (if OrcamentosDe(db.orcamentos, o.solicitacaoId) == {} && s.status == StatusSolicitacao.ComOrcamentos
          then db.solicitacoes == old(db.solicitacoes)[o.solicitacaoId := s.(status := StatusSolicitacao.Aguardando)]
          else db.solicitacoes == old(db.solicitacoes))
  {
    if orcamentoId !in db.orcamentos {
      return Ok(false);
    }
    var o := db.orcamentos[orcamentoId];
    if o.prestadorId != prestadorId {
      return Err(Forbidden);
    }
    if o.status != StatusOrcamento.Aguardando {
      return Err(OnlyAwaitingDeletable);
    }
    var i := 0;
    while i < |db.avaliacoes|
      invariant 0 <= i <= |db.avaliacoes|
      invariant forall j :: 0 <= j < i ==> db.avaliacoes[j].orcamentoId != orcamentoId
    {
      if db.avaliacoes[i].orcamentoId == orcamentoId {
        return Err(IntegrityError);
      }
      i := i + 1;
    }
    RemoverOrcamento(db, orcamentoId);
    var restantes := set k | k in db.orcamentos && db.orcamentos[k].solicitacaoId == o.solicitacaoId;
    if |restantes| == 0 {
      var s := db.solicitacoes[o.solicitacaoId];
      if s.status == StatusSolicitacao.ComOrcamentos {
        MudarStatusSolicitacao(db, o.solicitacaoId, StatusSolicitacao.Aguardando);
      }
    }
    r := Ok(true);
  }
}
