/**
 * The Supabase variant of the request service. Every remote request may
 * raise; the service catches the exception and answers `None`, `[]` or
 * `false` instead. `falha` says that the one remote request of an operation
 * raises; `falhaEm` numbers the remote requests of a multi-step operation
 * from 1 and names the one that raises (0: none).
 */
module SolicitacaoServiceSupabase {
  import opened Wrappers
  import opened DbModels
  import opened SupabaseStore
  import opened SolicitacaoService
  import Ordering

  /** Inserts a request awaiting quotes with the client and fields as given; a raised exception gives `None`. */
  method CriarSolicitacao(sb: BancoRemoto, clienteId: int, dados: SolicitacaoCreate, agora: nat, falha: bool)
    returns (r: Option<Solicitacao>)
    requires sb.Valid()
    modifies sb`solicitacoes, sb`nextSolicitacaoId
    ensures sb.Valid()
    ensures falha ==> r.None? && unchanged(sb)
    ensures !falha ==> r.Some?
    ensures r.Some? ==>
      var s := r.value;
      && s.id == old(sb.nextSolicitacaoId) && s.id !in old(sb.solicitacoes)
      && s.clienteId == clienteId && s.categoria == dados.categoria
      && s.descricao == dados.descricao && s.localizacao == dados.localizacao
      && s.prazoDesejado == dados.prazoDesejado && s.informacoesAdicionais == dados.informacoesAdicionais
      && s.status == StatusSolicitacao.Aguardando && s.createdAt == agora
      && sb.solicitacoes == old(sb.solicitacoes)[s.id := s]
  {
    if falha {
      return None;
    }
    var s := Solicitacao(sb.nextSolicitacaoId, clienteId, dados.categoria, dados.descricao, dados.localizacao,
      dados.prazoDesejado, dados.informacoesAdicionais, StatusSolicitacao.Aguardando, agora);
    sb.solicitacoes := sb.solicitacoes[s.id := s];
    sb.nextSolicitacaoId := sb.nextSolicitacaoId + 1;
    r := Some(s);
  }

  /** A client's requests, newest first; a raised exception gives the empty list. */
  method ListarSolicitacoesCliente(sb: BancoRemoto, clienteId: int, falha: bool) returns (r: seq<Solicitacao>)
    requires sb.Valid()
    ensures falha ==> r == []
    ensures !falha ==> forall s :: s in r <==>
      s.id in sb.solicitacoes && sb.solicitacoes[s.id] == s && s.clienteId == clienteId
    ensures forall i, j :: 0 <= i < j < |r| ==> r[i].id != r[j].id && r[i].createdAt >= r[j].createdAt
  {
    if falha {
      return [];
    }
    var rank := (s: Solicitacao) => -(s.createdAt as real);
    r := Ordering.SelectSorted(sb.solicitacoes, (s: Solicitacao) => s.id,
      (s: Solicitacao) => s.clienteId == clienteId, rank);
    forall i, j | 0 <= i < j < |r| ensures r[i].createdAt >= r[j].createdAt {
      assert rank(r[i]) <= rank(r[j]);
    }
  }

  /** Looking a request up by id; a raised exception reads as "not found". */
  function BuscarSolicitacao(sb: BancoRemoto, solicitacaoId: int, falha: bool): (r: Option<Solicitacao>)
    reads sb
    requires sb.Valid()
    ensures r.Some? <==> !falha && solicitacaoId in sb.solicitacoes
    ensures r.Some? ==> r.value == sb.solicitacoes[solicitacaoId] && r.value.id == solicitacaoId
  {
    if !falha && solicitacaoId in sb.solicitacoes then Some(sb.solicitacoes[solicitacaoId]) else None
  }

  /**
   * The requests a provider may quote: only those still awaiting quotes (a
   * request that already has quotes is not offered) whose category is in the
   * list, newest first.
   */
  method ListarSolicitacoesDisponiveis(sb: BancoRemoto, categorias: seq<string>, falha: bool)
    returns (r: seq<Solicitacao>)
    requires sb.Valid()
    ensures falha ==> r == []
    ensures !falha ==> forall s :: s in r <==>
      s.id in sb.solicitacoes && sb.solicitacoes[s.id] == s &&
      s.status == StatusSolicitacao.Aguardando && s.categoria in categorias
    ensures forall s :: s in r ==> s.status != StatusSolicitacao.ComOrcamentos
    ensures forall i, j :: 0 <= i < j < |r| ==> r[i].id != r[j].id && r[i].createdAt >= r[j].createdAt
  {
    if falha {
      return [];
    }
    var rank := (s: Solicitacao) => -(s.createdAt as real);
    r := Ordering.SelectSorted(sb.solicitacoes, (s: Solicitacao) => s.id,
      (s: Solicitacao) => s.status == StatusSolicitacao.Aguardando && s.categoria in categorias, rank);
    forall i, j | 0 <= i < j < |r| ensures r[i].createdAt >= r[j].createdAt {
      assert rank(r[i]) <= rank(r[j]);
    }
  }

  /**
   * The owner cancels a request, whatever its status (remote requests: 1 the
   * lookup, 2 the update). Any failure or another client's request gives
   * false and changes nothing.
   */
  method CancelarSolicitacao(sb: BancoRemoto, solicitacaoId: int, clienteId: int, falhaEm: nat)
    returns (ok: bool)
    requires sb.Valid()
    modifies sb`solicitacoes
    ensures sb.Valid()
    ensures ok <==> (solicitacaoId in old(sb.solicitacoes) &&
                     old(sb.solicitacoes)[solicitacaoId].clienteId == clienteId && falhaEm != 1 && falhaEm != 2)
    ensures !ok ==> unchanged(sb)
    ensures ok ==> sb.solicitacoes == old(sb.solicitacoes)[solicitacaoId :=
      old(sb.solicitacoes)[solicitacaoId].(status := StatusSolicitacao.Cancelada)]
  {
    var s := BuscarSolicitacao(sb, solicitacaoId, falhaEm == 1);
    if s.None? || s.value.clienteId != clienteId {
      return false;
    }
    if falhaEm == 2 {
      return false;
    }
    sb.solicitacoes := sb.solicitacoes[solicitacaoId := s.value.(status := StatusSolicitacao.Cancelada)];
    ok := true;
  }

  /**
   * The owner deletes a request (remote requests: 1 the lookup, 2 the
   * delete). There is no check on accepted quotes, and the service itself
   * deletes no quote.
   */
  method DeletarSolicitacao(sb: BancoRemoto, solicitacaoId: int, clienteId: int, falhaEm: nat)
    returns (ok: bool)
    requires sb.Valid()
    modifies sb`solicitacoes
    ensures sb.Valid()
    ensures ok <==> (solicitacaoId in old(sb.solicitacoes) &&
                     old(sb.solicitacoes)[solicitacaoId].clienteId == clienteId && falhaEm != 1 && falhaEm != 2)
    ensures !ok ==> unchanged(sb)
    ensures ok ==> sb.solicitacoes == old(sb.solicitacoes) - {solicitacaoId}
  {
    var s := BuscarSolicitacao(sb, solicitacaoId, falhaEm == 1);
    if s.None? || s.value.clienteId != clienteId {
      return false;
    }
    if falhaEm == 2 {
      return false;
    }
    sb.solicitacoes := sb.solicitacoes - {solicitacaoId};
    ok := true;
  }
}
