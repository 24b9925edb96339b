/**
 * The Supabase variant of the quote service. It follows looser rules than
 * the relational service: no bounds check on creation, no refusal of the
 * other quotes on acceptance, no "accepted" precondition on completion and
 * no status precondition on deletion. As in the request variant, `falha` /
 * `falhaEm` name the remote request that raises; the exception is caught and
 * the answer is `None`, `[]` or `false`, but what earlier remote requests of
 * the same call changed stays changed.
 */
module OrcamentoServiceSupabase {
  import opened Wrappers
  import opened DbModels
  import opened SupabaseStore
  import opened OrcamentoSchemas
  import opened OrcamentoService
  import SolicitacaoServiceSupabase
  import Ordering

  /**
   * The bounds stored with a new quote. Missing or empty limits give 0.0 for
   * all three; otherwise each present key gives its value and a missing key
   * gives 0.0.
   */
  function LimitesArmazenados(limites: Option<map<string, real>>): (r: Limites)
    ensures (limites.None? || limites.value == map[]) ==> r == Limites(0.0, 0.0, 0.0)
    ensures limites.Some? ==>
      && r.valorMinimo == (if "valor_minimo" in limites.value then limites.value["valor_minimo"] else 0.0)
      && r.valorSugerido == (if "valor_sugerido" in limites.value then limites.value["valor_sugerido"] else 0.0)
      && r.valorMaximo == (if "valor_maximo" in limites.value then limites.value["valor_maximo"] else 0.0)
  {
    var m := if limites.None? || limites.value == map[] then
      map["valor_minimo" := 0.0, "valor_sugerido" := 0.0, "valor_maximo" := 0.0]
    else limites.value;
    Limites(Obter(m, "valor_minimo"), Obter(m, "valor_sugerido"), Obter(m, "valor_maximo"))
  }

  /** `dict.get(chave, 0.0)`. */
  function Obter(m: map<string, real>, chave: string): real {
    if chave in m then m[chave] else 0.0
  }

  /**
   * Inserts a quote for `solicitacaoId` (the request id passed alongside the
   * body) with status awaiting and the proposed value stored as given,
   * without comparing it with the bounds. A raised exception gives `None`.
   */
  method CriarOrcamento(sb: BancoRemoto, prestadorId: int, solicitacaoId: int, dados: OrcamentoCreate,
                        limites: Option<map<string, real>>, agora: nat, falha: bool)
    returns (r: Option<OrcamentoRemoto>)
    requires sb.Valid()
    modifies sb`orcamentos, sb`nextOrcamentoId
    ensures sb.Valid()
    ensures falha <==> r.None?
    ensures falha ==> unchanged(sb)
    ensures r.Some? ==>
      var o := r.value.orc;
      var l := LimitesArmazenados(limites);
      && o.id == old(sb.nextOrcamentoId) && o.id !in old(sb.orcamentos)
      && o.solicitacaoId == solicitacaoId && o.prestadorId == prestadorId
      && o.valorMlMinimo == l.valorMinimo && o.valorMlSugerido == l.valorSugerido && o.valorMlMaximo == l.valorMaximo
      && o.valorProposto == dados.valorProposto && o.prazoExecucao == dados.prazoExecucao
      && o.observacoes == dados.observacoes && o.condicoes == dados.condicoes
      && o.status == StatusOrcamento.Aguardando && o.createdAt == agora
      && r.value.datetimeInicio.None? && r.value.datetimeFim.None?
      && sb.orcamentos == old(sb.orcamentos)[o.id := r.value]
  {
    if falha {
      return None;
    }
    var l := LimitesArmazenados(limites);
    var o := Orcamento(sb.nextOrcamentoId, solicitacaoId, prestadorId,
      l.valorMinimo, l.valorSugerido, l.valorMaximo, dados.valorProposto, dados.prazoExecucao,
      dados.observacoes, dados.condicoes, StatusOrcamento.Aguardando, agora);
    var linha := OrcamentoRemoto(o, None, None);
    sb.orcamentos := sb.orcamentos[o.id := linha];
    sb.nextOrcamentoId := sb.nextOrcamentoId + 1;
    r := Some(linha);
  }

  /** A provider's quotes, newest first. */
  method ListarOrcamentosPrestador(sb: BancoRemoto, prestadorId: int, falha: bool) returns (r: seq<OrcamentoRemoto>)
    requires sb.Valid()
    ensures falha ==> r == []
    ensures !falha ==> forall x :: x in r <==>
      x.orc.id in sb.orcamentos && sb.orcamentos[x.orc.id] == x && x.orc.prestadorId == prestadorId
    ensures forall i, j :: 0 <= i < j < |r| ==> r[i].orc.id != r[j].orc.id && r[i].orc.createdAt >= r[j].orc.createdAt
  {
    if falha {
      return [];
    }
    var rank := (x: OrcamentoRemoto) => -(x.orc.createdAt as real);
    r := Ordering.SelectSorted(sb.orcamentos, (x: OrcamentoRemoto) => x.orc.id,
      (x: OrcamentoRemoto) => x.orc.prestadorId == prestadorId, rank);
    forall i, j | 0 <= i < j < |r| ensures r[i].orc.createdAt >= r[j].orc.createdAt {
      assert rank(r[i]) <= rank(r[j]);
    }
  }

  /** A request's quotes, newest first (not by price, unlike the relational service). */
  method ListarOrcamentosSolicitacao(sb: BancoRemoto, solicitacaoId: int, falha: bool)
    returns (r: seq<OrcamentoRemoto>)
    requires sb.Valid()
    ensures falha ==> r == []
    ensures !falha ==> forall x :: x in r <==>
      x.orc.id in sb.orcamentos && sb.orcamentos[x.orc.id] == x && x.orc.solicitacaoId == solicitacaoId
    ensures forall i, j :: 0 <= i < j < |r| ==> r[i].orc.id != r[j].orc.id && r[i].orc.createdAt >= r[j].orc.createdAt
  {
    if falha {
      return [];
    }
    var rank := (x: OrcamentoRemoto) => -(x.orc.createdAt as real);
    r := Ordering.SelectSorted(sb.orcamentos, (x: OrcamentoRemoto) => x.orc.id,
      (x: OrcamentoRemoto) => x.orc.solicitacaoId == solicitacaoId, rank);
    forall i, j | 0 <= i < j < |r| ensures r[i].orc.createdAt >= r[j].orc.createdAt {
      assert rank(r[i]) <= rank(r[j]);
    }
  }

  /** Looking a quote up by id; a raised exception reads as "not found". */
  function BuscarOrcamento(sb: BancoRemoto, orcamentoId: int, falha: bool): (r: Option<OrcamentoRemoto>)
    reads sb
    requires sb.Valid()
    ensures r.Some? <==> !falha && orcamentoId in sb.orcamentos
    ensures r.Some? ==> r.value == sb.orcamentos[orcamentoId] && r.value.orc.id == orcamentoId
  {
    if !falha && orcamentoId in sb.orcamentos then Some(sb.orcamentos[orcamentoId]) else None
  }

  /**
   * Sets a quote's status, with no check of the current one; true when the
   * update matched a row (the single remote request may fail).
   */
  method AtualizarStatusOrcamento(sb: BancoRemoto, orcamentoId: int, novoStatus: StatusOrcamento, falha: bool)
    returns (ok: bool)
    requires sb.Valid()
    modifies sb`orcamentos
    ensures sb.Valid()
    ensures ok <==> !falha && orcamentoId in old(sb.orcamentos)
    ensures !ok ==> unchanged(sb)
    ensures ok ==> sb.orcamentos == old(sb.orcamentos)[orcamentoId :=
      old(sb.orcamentos)[orcamentoId].(orc := old(sb.orcamentos)[orcamentoId].orc.(status := novoStatus))]
  {
    if falha || orcamentoId !in sb.orcamentos {
      return false;
    }
    var o := sb.orcamentos[orcamentoId];
    sb.orcamentos := sb.orcamentos[orcamentoId := o.(orc := o.orc.(status := novoStatus))];
    ok := true;
  }

  /**
   * The provider deletes its quote whatever the quote's status (remote
   * requests: 1 the lookup, 2 the delete).
   */
  method DeletarOrcamento(sb: BancoRemoto, orcamentoId: int, prestadorId: int, falhaEm: nat) returns (ok: bool)
    requires sb.Valid()
    modifies sb`orcamentos
    ensures sb.Valid()
    ensures ok <==> (orcamentoId in old(sb.orcamentos) && old(sb.orcamentos)[orcamentoId].orc.prestadorId == prestadorId &&
                     falhaEm != 1 && falhaEm != 2)
    ensures !ok ==> unchanged(sb)
    ensures ok ==> sb.orcamentos == old(sb.orcamentos) - {orcamentoId}
  {
    var o := BuscarOrcamento(sb, orcamentoId, falhaEm == 1);
    if o.None? || o.value.orc.prestadorId != prestadorId {
      return false;
    }
    if falhaEm == 2 {
      return false;
    }
    sb.orcamentos := sb.orcamentos - {orcamentoId};
    ok := true;
  }

  /**
   * The owner of the request accepts a quote (remote requests: 1 the quote
   * lookup, 2 the request lookup, 3 the quote update, 4 the request update).
   * The quote becomes accepted and its service start is the request's
   * creation time; the other quotes of the request are not touched. The
   * request is marked as having quotes after the quote update succeeded, so a
   * failure of request 4 leaves an accepted quote and an unchanged request
   * behind, with the answer `None`.
   */
  method AceitarOrcamento(sb: BancoRemoto, orcamentoId: int, clienteId: int, falhaEm: nat)
    returns (r: Option<OrcamentoRemoto>)
    requires sb.Valid()
    modifies sb`orcamentos, sb`solicitacoes
    ensures sb.Valid()
    ensures (orcamentoId !in old(sb.orcamentos) || falhaEm == 1) ==> r.None? && unchanged(sb)
    ensures (orcamentoId in old(sb.orcamentos) && falhaEm != 1 &&
             var sid := old(sb.orcamentos)[orcamentoId].orc.solicitacaoId;
             sid !in old(sb.solicitacoes) || old(sb.solicitacoes)[sid].clienteId != clienteId || falhaEm == 2 || falhaEm == 3) ==>
      r.None? && unchanged(sb)
    ensures (orcamentoId in old(sb.orcamentos) &&
             var sid := old(sb.orcamentos)[orcamentoId].orc.solicitacaoId;
             sid in old(sb.solicitacoes) && old(sb.solicitacoes)[sid].clienteId == clienteId &&
             falhaEm !in {1, 2, 3}) ==>
      var antes := old(sb.orcamentos)[orcamentoId];
      var s := old(sb.solicitacoes)[antes.orc.solicitacaoId];
      var aceito := antes.(orc := antes.orc.(status := StatusOrcamento.Aceito), datetimeInicio := Some(s.createdAt));
      && sb.orcamentos == old(sb.orcamentos)[orcamentoId := aceito]
      && (falhaEm == 4 ==> r.None? && sb.solicitacoes == old(sb.solicitacoes))
      && (falhaEm != 4 ==>
            && r == Some(aceito)
            && sb.solicitacoes == old(sb.solicitacoes)[s.id := s.(status := StatusSolicitacao.ComOrcamentos)])
  {
    var o := BuscarOrcamento(sb, orcamentoId, falhaEm == 1);
    if o.None? {
      return None;
    }
    var s := SolicitacaoServiceSupabase.BuscarSolicitacao(sb, o.value.orc.solicitacaoId, falhaEm == 2);
    if s.None? || s.value.clienteId != clienteId {
      return None;
    }
    if falhaEm == 3 {
      return None;
    }
    var aceito := o.value.(orc := o.value.orc.(status := StatusOrcamento.Aceito), datetimeInicio := Some(s.value.createdAt));
    sb.orcamentos := sb.orcamentos[orcamentoId := aceito];
    if falhaEm == 4 {
      return None;
    }
    sb.solicitacoes := sb.solicitacoes[s.value.id := s.value.(status := StatusSolicitacao.ComOrcamentos)];
    r := Some(aceito);
  }

  /**
   * The provider marks its quote as done, whatever the quote's status (remote
   * requests: 1 the lookup, 2 the quote update, 3 the request update). The
   * quote gets status done and end time `agora`; the request, when it exists,
   * is closed. A failure of request 3 leaves the quote done and the request
   * as it was, with the answer `None`.
   */
  method MarcarRealizado(sb: BancoRemoto, orcamentoId: int, prestadorId: int, agora: nat, falhaEm: nat)
    returns (r: Option<OrcamentoRemoto>)
    requires sb.Valid()
    modifies sb`orcamentos, sb`solicitacoes
    ensures sb.Valid()
    ensures (orcamentoId !in old(sb.orcamentos) || falhaEm == 1 || falhaEm == 2 ||
             old(sb.orcamentos)[orcamentoId].orc.prestadorId != prestadorId) ==>
      r.None? && unchanged(sb)
    ensures (orcamentoId in old(sb.orcamentos) && old(sb.orcamentos)[orcamentoId].orc.prestadorId == prestadorId &&
             falhaEm != 1 && falhaEm != 2) ==>
      var antes := old(sb.orcamentos)[orcamentoId];
      var sid := antes.orc.solicitacaoId;
      var feito := antes.(orc := antes.orc.(status := StatusOrcamento.Realizado), datetimeFim := Some(agora));
      && sb.orcamentos == old(sb.orcamentos)[orcamentoId := feito]
      && (falhaEm == 3 ==> r.None? && sb.solicitacoes == old(sb.solicitacoes))
      && (falhaEm != 3 ==>
            && r == Some(feito)
            && sb.solicitacoes == if sid in old(sb.solicitacoes)
                 then old(sb.solicitacoes)[sid := old(sb.solicitacoes)[sid].(status := StatusSolicitacao.Fechada)]
                 else old(sb.solicitacoes))
  {
    var o := BuscarOrcamento(sb, orcamentoId, falhaEm == 1);
    if o.None? || o.value.orc.prestadorId != prestadorId {
      return None;
    }
    if falhaEm == 2 {
      return None;
    }
    var feito := o.value.(orc := o.value.orc.(status := StatusOrcamento.Realizado), datetimeFim := Some(agora));
    sb.orcamentos := sb.orcamentos[orcamentoId := feito];
    if falhaEm == 3 {
      return None;
    }
    var sid := o.value.orc.solicitacaoId;
    if sid in sb.solicitacoes {
      sb.solicitacoes := sb.solicitacoes[sid := sb.solicitacoes[sid].(status := StatusSolicitacao.Fechada)];
    }
    r := Some(feito);
  }
}
