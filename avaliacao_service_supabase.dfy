/**
 * The Supabase variant of the review service. Remote requests of a review
 * creation, numbered for `falhaEm`: 1 the duplicate lookup, 2 the insert, 3
 * the query of the provider's stars, 4 the provider update. A failure of 1
 * or 2 gives `None`; a failure of 3 makes the mean read as 0, which is then
 * written; a failure of 4 is swallowed.
 */
module AvaliacaoServiceSupabase {
  import opened Wrappers
  import opened DbModels
  import opened SupabaseStore
  import opened AvaliacaoService

  /** The provider's mean rating computed from the remote stars; a raised exception reads as 0. */
  function ObterMediaPrestador(sb: BancoRemoto, prestadorId: int, falha: bool): (m: real)
    reads sb
    ensures (falha || EstrelasDe(sb.avaliacoes, prestadorId) == []) ==> m == 0.0
    ensures (!falha && EstrelasDe(sb.avaliacoes, prestadorId) != []) ==>
      m * (|EstrelasDe(sb.avaliacoes, prestadorId)| as real) == Soma(EstrelasDe(sb.avaliacoes, prestadorId)) as real
  {
    if falha then 0.0 else Media(EstrelasDe(sb.avaliacoes, prestadorId))
  }

  /** The number of the provider's reviews; a raised exception reads as 0. */
  function ContarAvaliacoesPrestador(sb: BancoRemoto, prestadorId: int, falha: bool): (n: nat)
    reads sb
    ensures n <= |sb.avaliacoes|
    ensures n == 0 <==> falha || forall i :: 0 <= i < |sb.avaliacoes| ==> sb.avaliacoes[i].prestadorId != prestadorId
  {
    SemEstrelas(sb.avaliacoes, prestadorId);
    if falha then 0 else |EstrelasDe(sb.avaliacoes, prestadorId)|
  }

  /** A provider has no stars exactly when no review is about it. */
  lemma {:induction false} SemEstrelas(avs: seq<Avaliacao>, p: int)
    ensures EstrelasDe(avs, p) == [] <==> forall i :: 0 <= i < |avs| ==> avs[i].prestadorId != p
  {
    if avs != [] {
      SemEstrelas(avs[1..], p);
      if avs[0].prestadorId != p {
        forall i | 0 <= i < |avs| && avs[i].prestadorId == p ensures 1 <= i {
        }
        forall i | 1 <= i < |avs| ensures avs[i].prestadorId == avs[1..][i - 1].prestadorId {
        }
      }
    }
  }

  /** The mean is 0 exactly when the count is 0: both read the same rows. */
  lemma MediaZeroSemAvaliacoes(sb: BancoRemoto, prestadorId: int, falha: bool)
    requires forall i :: 0 <= i < |sb.avaliacoes| ==> 1 <= sb.avaliacoes[i].estrelas <= 5
    ensures ObterMediaPrestador(sb, prestadorId, falha) == 0.0 <==> ContarAvaliacoesPrestador(sb, prestadorId, falha) == 0
  {
    var s := EstrelasDe(sb.avaliacoes, prestadorId);
    if !falha && s != [] {
      EstrelasDeLimitadas(sb.avaliacoes, prestadorId);
      MediaLimitada(s);
    }
  }

  /**
   * Writes the mean rating read from the remote stars into the provider row
   * (remote requests: 1 the query, whose failure makes the mean 0, 2 the
   * update, whose failure is swallowed). An unknown provider matches no row.
   */
  method AtualizarMediaPrestador(sb: BancoRemoto, prestadorId: int, falhaEm: nat)
    requires sb.Valid()
    modifies sb`prestadores
    ensures sb.Valid()
    ensures (prestadorId !in old(sb.prestadores) || falhaEm == 2) ==> unchanged(sb)
    ensures (prestadorId in old(sb.prestadores) && falhaEm != 2) ==>
      sb.prestadores == old(sb.prestadores)[prestadorId :=
        old(sb.prestadores)[prestadorId].(avaliacaoMedia := ObterMediaPrestador(sb, prestadorId, falhaEm == 1))]
  {
    var media := ObterMediaPrestador(sb, prestadorId, falhaEm == 1);
    if falhaEm == 2 {
      return;
    }
    if prestadorId in sb.prestadores {
      sb.prestadores := sb.prestadores[prestadorId := sb.prestadores[prestadorId].(avaliacaoMedia := media)];
    }
  }

  /**
   * Inserts a review unless its quote already has one (then `None`), and
   * after a successful insert refreshes the provider's mean rating.
   */
  method CriarAvaliacao(sb: BancoRemoto, dados: AvaliacaoCreate, falhaEm: nat) returns (r: Option<Avaliacao>)
    requires sb.Valid()
    modifies sb`avaliacoes, sb`nextAvaliacaoId, sb`prestadores
    ensures sb.Valid()
    ensures r.Some? <==> !Avaliado(old(sb.avaliacoes), dados.orcamentoId) && falhaEm != 1 && falhaEm != 2
    ensures r.None? ==> unchanged(sb)
    ensures r.Some? ==>
      var a := r.value;
      var p := dados.prestadorId;
      var media := if falhaEm == 3 then 0.0 else Media(EstrelasDe(old(sb.avaliacoes), p) + [dados.estrelas]);
      && a == Avaliacao(old(sb.nextAvaliacaoId), dados.orcamentoId, dados.clienteId, p, dados.estrelas, dados.comentario)
      && sb.avaliacoes == old(sb.avaliacoes) + [a]
      && ((p in old(sb.prestadores) && falhaEm != 4) ==>
            sb.prestadores == old(sb.prestadores)[p := old(sb.prestadores)[p].(avaliacaoMedia := media)])
      && ((p !in old(sb.prestadores) || falhaEm == 4) ==> sb.prestadores == old(sb.prestadores))
  {
    if falhaEm == 1 {
      return None;
    }
    var i := 0;
    while i < |sb.avaliacoes|
      invariant 0 <= i <= |sb.avaliacoes|
      invariant forall j :: 0 <= j < i ==> sb.avaliacoes[j].orcamentoId != dados.orcamentoId
    {
      if sb.avaliacoes[i].orcamentoId == dados.orcamentoId {
        return None;
      }
      i := i + 1;
    }
    if falhaEm == 2 {
      return None;
    }
    var a := Avaliacao(sb.nextAvaliacaoId, dados.orcamentoId, dados.clienteId, dados.prestadorId,
      dados.estrelas, dados.comentario);
    EstrelasDeAppend(sb.avaliacoes, a, dados.prestadorId);
    sb.avaliacoes := sb.avaliacoes + [a];
    sb.nextAvaliacaoId := sb.nextAvaliacaoId + 1;
    AtualizarMediaPrestador(sb, dados.prestadorId, if falhaEm == 3 then 1 else if falhaEm == 4 then 2 else 0);
    r := Some(a);
  }
}
