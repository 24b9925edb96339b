/**
 * The hosted database reached over its REST interface, as seen by the
 * Supabase variants of the services: one table per field, rows keyed by
 * their `id`, one id sequence per table. The remote schema's own constraints
 * are not known to these services; a request the database refuses, like a
 * network error, surfaces as a raised exception, which the model passes in
 * as a parameter naming the remote request that raises.
 */
module SupabaseStore {
  import opened Wrappers
  import opened DbModels

  /** A remote quote row: the quote columns plus the service's start and end timestamps. */
  datatype OrcamentoRemoto = OrcamentoRemoto(orc: Orcamento, datetimeInicio: Option<nat>, datetimeFim: Option<nat>)

  class BancoRemoto {
    var solicitacoes: map<int, Solicitacao>
    var orcamentos: map<int, OrcamentoRemoto>
    var avaliacoes: seq<Avaliacao>
    var prestadores: map<int, Prestador>
    var nextSolicitacaoId: int
    var nextOrcamentoId: int
    var nextAvaliacaoId: int

    /** Rows are stored under their own id, below the table's sequence. */
    ghost predicate Valid()
      reads this
    {
      && (forall k :: k in solicitacoes ==> solicitacoes[k].id == k && k < nextSolicitacaoId)
      && (forall k :: k in orcamentos ==> orcamentos[k].orc.id == k && k < nextOrcamentoId)
      && (forall i :: 0 <= i < |avaliacoes| ==> avaliacoes[i].id < nextAvaliacaoId)
      && (forall k :: k in prestadores ==> prestadores[k].id == k)
    }

    constructor ()
      ensures Valid()
      ensures solicitacoes == map[] && orcamentos == map[] && avaliacoes == [] && prestadores == map[]
    {
      solicitacoes, orcamentos, avaliacoes, prestadores := map[], map[], [], map[];
      nextSolicitacaoId, nextOrcamentoId, nextAvaliacaoId := 1, 1, 1;
    }
  }
}
