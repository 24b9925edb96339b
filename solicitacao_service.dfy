/**
 * The service-request service over the relational store: a client opens a
 * request, lists its own requests, cancels or deletes them; providers list
 * the open requests of their categories.
 */
module SolicitacaoService {
  import opened Wrappers
  import opened DbModels
  import opened Session
  import Ordering

  /** The request fields a client submits. */
  datatype SolicitacaoCreate = SolicitacaoCreate(
    categoria: string,
    descricao: string,
    localizacao: string,
    prazoDesejado: Option<string>,
    informacoesAdicionais: Option<string>)

  /** A request is open to quotes while it awaits quotes or already has some. */
  predicate Aberta(s: Solicitacao) {
    s.status == StatusSolicitacao.Aguardando || s.status == StatusSolicitacao.ComOrcamentos
  }

  /**
   * The request row the insert writes, its texts as their `varchar` columns
   * store them and awaiting quotes; `None` when a text does not fit.
   */
  function LinhaSolicitacao(id: int, clienteId: int, dados: SolicitacaoCreate, agora: nat): (r: Option<Solicitacao>)
    ensures r.Some? <==>
      && Cabe(dados.categoria, LarguraCategoria) && Cabe(dados.localizacao, LarguraLocalizacao)
      && NaColunaOpcional(dados.prazoDesejado, LarguraPrazo).Some?
    ensures r.Some? ==>
      && r.value.id == id && r.value.clienteId == clienteId && r.value.descricao == dados.descricao
      && r.value.informacoesAdicionais == dados.informacoesAdicionais
      && r.value.status == StatusSolicitacao.Aguardando && r.value.createdAt == agora
      && r.value.categoria == NaColuna(dados.categoria, LarguraCategoria).value
      && r.value.localizacao == NaColuna(dados.localizacao, LarguraLocalizacao).value
      && r.value.prazoDesejado == NaColunaOpcional(dados.prazoDesejado, LarguraPrazo).value
    ensures (&& |dados.categoria| <= LarguraCategoria && |dados.localizacao| <= LarguraLocalizacao
             && (dados.prazoDesejado.None? || |dados.prazoDesejado.value| <= LarguraPrazo)) ==>
      r == Some(Solicitacao(id, clienteId, dados.categoria, dados.descricao, dados.localizacao,
                            dados.prazoDesejado, dados.informacoesAdicionais, StatusSolicitacao.Aguardando, agora))
  {
    var categoria, localizacao := NaColuna(dados.categoria, LarguraCategoria), NaColuna(dados.localizacao, LarguraLocalizacao);
    var prazo := NaColunaOpcional(dados.prazoDesejado, LarguraPrazo);
    if categoria.Some? && localizacao.Some? && prazo.Some? then
      Some(Solicitacao(id, clienteId, categoria.value, dados.descricao, localizacao.value,
                       prazo.value, dados.informacoesAdicionais, StatusSolicitacaoInicial(None), agora))
    else None
  }

  /**
   * A client opens a request: it stores the client and the fields and awaits
   * quotes. The commit fails when a text does not fit its column (data
   * error), and otherwise on the `solicitacoes.cliente_id` foreign key when
   * no client has that id; a failed commit stores nothing.
   */
  method CriarSolicitacao(db: Database, clienteId: int, dados: SolicitacaoCreate, agora: nat)
    returns (r: Result<Solicitacao, HttpError>)
    requires db.Valid()
    modifies db`solicitacoes, db`nextSolicitacaoId
    ensures db.Valid()
    ensures r.Err? ==> (r.error == DataError || r.error == IntegrityError) && unchanged(db)
    ensures var linha := LinhaSolicitacao(old(db.nextSolicitacaoId), clienteId, dados, agora);
      && (r == Err(DataError) <==> linha.None?)
      && (r == Err(IntegrityError) <==> linha.Some? && clienteId !in old(db.clientes))
      && (r.Ok? ==>
            && linha == Some(r.value) && r.value.id !in old(db.solicitacoes)
            && db.solicitacoes == old(db.solicitacoes)[r.value.id := r.value])
  {
    var linha := LinhaSolicitacao(db.nextSolicitacaoId, clienteId, dados, agora);
    if linha.None? {
      return Err(DataError);
    }
    if clienteId !in db.clientes {
      return Err(IntegrityError);
    }
    var s := linha.value;
    db.solicitacoes := db.solicitacoes[s.id := s];
    db.nextSolicitacaoId := db.nextSolicitacaoId + 1;
    r := Ok(s);
  }

  /** A client's own requests, newest first. */
  method ListarSolicitacoesCliente(db: Database, clienteId: int) returns (r: seq<Solicitacao>)
    requires db.Valid()
    ensures forall s :: s in r <==> s.id in db.solicitacoes && db.solicitacoes[s.id] == s && s.clienteId == clienteId
    ensures forall i, j :: 0 <= i < j < |r| ==> r[i].id != r[j].id
    ensures forall i, j :: 0 <= i < j < |r| ==> r[i].createdAt >= r[j].createdAt
  {
    var rank := (s: Solicitacao) => -(s.createdAt as real);
    r := Ordering.SelectSorted(db.solicitacoes, (s: Solicitacao) => s.id,
      (s: Solicitacao) => s.clienteId == clienteId, rank);
    forall i, j | 0 <= i < j < |r| ensures r[i].createdAt >= r[j].createdAt {
      assert rank(r[i]) <= rank(r[j]);
    }
  }

  /** Looking a request up by primary key. */
  function BuscarSolicitacao(db: Database, solicitacaoId: int): (r: Option<Solicitacao>)
    reads db
    requires db.Valid()
    ensures r.None? <==> solicitacaoId !in db.solicitacoes
    ensures r.Some? ==> r.value == db.solicitacoes[solicitacaoId] && r.value.id == solicitacaoId
  {
    if solicitacaoId in db.solicitacoes then Some(db.solicitacoes[solicitacaoId]) else None
  }

  /**
   * The requests a provider may quote: open ones whose category is one of the
   * provider's categories, newest first. An empty category list selects
   * nothing.
   */
  method ListarSolicitacoesDisponiveis(db: Database, categorias: seq<string>) returns (r: seq<Solicitacao>)
    requires db.Valid()
    ensures forall s :: s in r <==>
      s.id in db.solicitacoes && db.solicitacoes[s.id] == s && s.categoria in categorias && Aberta(s)
    ensures forall i, j :: 0 <= i < j < |r| ==> r[i].id != r[j].id
    ensures forall i, j :: 0 <= i < j < |r| ==> r[i].createdAt >= r[j].createdAt
  {
    var rank := (s: Solicitacao) => -(s.createdAt as real);
    r := Ordering.SelectSorted(db.solicitacoes, (s: Solicitacao) => s.id,
      (s: Solicitacao) => s.categoria in categorias && Aberta(s), rank);
    forall i, j | 0 <= i < j < |r| ensures r[i].createdAt >= r[j].createdAt {
      assert rank(r[i]) <= rank(r[j]);
    }
  }

  /** Sets the status of an existing request; an unknown id changes nothing. */
  method AtualizarStatusSolicitacao(db: Database, solicitacaoId: int, novoStatus: StatusSolicitacao)
    returns (r: Option<Solicitacao>)
    requires db.Valid()
    modifies db`solicitacoes
    ensures db.Valid()
    ensures r.None? <==> solicitacaoId !in old(db.solicitacoes)
    ensures r.None? ==> unchanged(db)
    ensures r.Some? ==>
      && r.value == old(db.solicitacoes)[solicitacaoId].(status := novoStatus)
      && db.solicitacoes == old(db.solicitacoes)[solicitacaoId := r.value]
  {
    if solicitacaoId !in db.solicitacoes {
      return None;
    }
    var s := db.solicitacoes[solicitacaoId].(status := novoStatus);
    db.solicitacoes := db.solicitacoes[solicitacaoId := s];
    r := Some(s);
  }

  /**
   * The owner cancels a request, whatever its status; its quotes are not
   * touched. A missing request or another client's request yields false.
   */
  method CancelarSolicitacao(db: Database, solicitacaoId: int, clienteId: int) returns (ok: bool)
    requires db.Valid()
    modifies db`solicitacoes
    ensures db.Valid()
    ensures ok <==> solicitacaoId in old(db.solicitacoes) && old(db.solicitacoes)[solicitacaoId].clienteId == clienteId
    ensures !ok ==> unchanged(db)
    ensures ok ==> db.solicitacoes == old(db.solicitacoes)[solicitacaoId :=
      old(db.solicitacoes)[solicitacaoId].(status := StatusSolicitacao.Cancelada)]
  {
    if solicitacaoId !in db.solicitacoes || db.solicitacoes[solicitacaoId].clienteId != clienteId {
      return false;
    }
    var s := db.solicitacoes[solicitacaoId];
    db.solicitacoes := db.solicitacoes[solicitacaoId := s.(status := StatusSolicitacao.Cancelada)];
    ok := true;
  }

  /** The quotes left after deleting every quote of request `sid`. */
  function SemOrcamentosDe(orcs: map<int, Orcamento>, sid: int): (r: map<int, Orcamento>)
    ensures forall k :: k in r <==> k in orcs && orcs[k].solicitacaoId != sid
    ensures forall k :: k in r ==> r[k] == orcs[k]
  {
    map k | k in orcs && orcs[k].solicitacaoId != sid :: orcs[k]
  }

  /** Whether some review names one of the quotes of request `sid`. */
  ghost predicate PedidoAvaliado(db: Database, sid: int)
    reads db
  {
    exists i :: 0 <= i < |db.avaliacoes| && db.avaliacoes[i].orcamentoId in db.orcamentos &&
      db.orcamentos[db.avaliacoes[i].orcamentoId].solicitacaoId == sid
  }

  /**
   * The commit that removes a request and its quotes when no review names
   * one of them: the schema invariant is kept.
   */
  method RemoverSolicitacao(db: Database, sid: int)
    requires db.Valid() && !PedidoAvaliado(db, sid)
    modifies db`solicitacoes, db`orcamentos
    ensures db.Valid()
    ensures db.solicitacoes == old(db.solicitacoes) - {sid}
    ensures db.orcamentos == SemOrcamentosDe(old(db.orcamentos), sid)
  {
    db.orcamentos := SemOrcamentosDe(db.orcamentos, sid);
    db.solicitacoes := db.solicitacoes - {sid};
    assert db.KeysValid() && db.RequestsReferenceClients() && db.QuotesReferenceRequests();
    assert db.ReviewsReferenceRows();
  }

  /**
   * The owner deletes a request together with all its quotes. Only an
   * accepted quote blocks the deletion by the service's own check (a quote
   * already done does not); a quote that has a review makes the bulk delete
   * break the `avaliacoes.orcamento_id` foreign key, so the call fails and
   * nothing is deleted.
   */
  method DeletarSolicitacao(db: Database, solicitacaoId: int, clienteId: int) returns (r: Result<bool, HttpError>)
    requires db.Valid()
    modifies db`solicitacoes, db`orcamentos
    ensures db.Valid()
    ensures solicitacaoId !in old(db.solicitacoes) ==> r == Ok(false)
    ensures (solicitacaoId in old(db.solicitacoes) && old(db.solicitacoes)[solicitacaoId].clienteId != clienteId) ==>
      r == Err(Forbidden)
    ensures (solicitacaoId in old(db.solicitacoes) && old(db.solicitacoes)[solicitacaoId].clienteId == clienteId &&
             exists k :: k in old(db.orcamentos) && old(db.orcamentos)[k].solicitacaoId == solicitacaoId &&
                         old(db.orcamentos)[k].status == StatusOrcamento.Aceito) ==>
      r == Err(RequestHasAcceptedQuote)
    ensures r == Ok(true) <==>
      && solicitacaoId in old(db.solicitacoes)
      && old(db.solicitacoes)[solicitacaoId].clienteId == clienteId
      && (forall k :: k in old(db.orcamentos) && old(db.orcamentos)[k].solicitacaoId == solicitacaoId ==>
            old(db.orcamentos)[k].status != StatusOrcamento.Aceito)
      && !old(PedidoAvaliado(db, solicitacaoId))
    ensures r == Err(IntegrityError) <==>
      && solicitacaoId in old(db.solicitacoes)
      && old(db.solicitacoes)[solicitacaoId].clienteId == clienteId
      && (forall k :: k in old(db.orcamentos) && old(db.orcamentos)[k].solicitacaoId == solicitacaoId ==>
            old(db.orcamentos)[k].status != StatusOrcamento.Aceito)
      && old(PedidoAvaliado(db, solicitacaoId))
    ensures r != Ok(true) ==> unchanged(db)
    ensures r == Ok(true) ==>
      && db.solicitacoes == old(db.solicitacoes) - {solicitacaoId}
      && db.orcamentos == SemOrcamentosDe(old(db.orcamentos), solicitacaoId)
  {
    if solicitacaoId !in db.solicitacoes {
      return Ok(false);
    }
    if db.solicitacoes[solicitacaoId].clienteId != clienteId {
      return Err(Forbidden);
    }
    var aceito := Ordering.FirstMatch(db.orcamentos,
      (o: Orcamento) => o.solicitacaoId == solicitacaoId && o.status == StatusOrcamento.Aceito);
    if aceito.Some? {
      return Err(RequestHasAcceptedQuote);
    }
    var i := 0;
    while i < |db.avaliacoes|
      invariant 0 <= i <= |db.avaliacoes|
      invariant forall j :: 0 <= j < i ==> db.orcamentos[db.avaliacoes[j].orcamentoId].solicitacaoId != solicitacaoId
    {
      if db.orcamentos[db.avaliacoes[i].orcamentoId].solicitacaoId == solicitacaoId {
        return Err(IntegrityError);
      }
      i := i + 1;
    }
    RemoverSolicitacao(db, solicitacaoId);
    r := Ok(true);
  }
}
