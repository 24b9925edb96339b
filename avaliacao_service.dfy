/**
 * Reviews over the relational store: one review per quote, and the provider's
 * mean rating kept equal to the mean of that provider's stars. The review
 * table is append-only here, so it is a sequence.
 */
module AvaliacaoService {
  import opened Wrappers
  import opened DbModels
  import opened Session

  /** The body of a review; the input schema holds `estrelas` to 1..5. */
  datatype AvaliacaoCreate = AvaliacaoCreate(
    orcamentoId: int,
    clienteId: int,
    prestadorId: int,
    estrelas: int,
    comentario: Option<string>)

  function Soma(s: seq<int>): int {
    if s == [] then 0 else s[0] + Soma(s[1..])
  }

  /** The arithmetic mean of `s`, and 0 for no values (`avg` of no rows is NULL, read as 0). */
  function Media(s: seq<int>): (m: real)
    ensures s == [] ==> m == 0.0
    ensures s != [] ==> m * (|s| as real) == Soma(s) as real
  {
    if s == [] then 0.0 else (Soma(s) as real) / (|s| as real)
  }

  /** The stars of provider `p`'s reviews, in table order. */
  function EstrelasDe(avs: seq<Avaliacao>, p: int): (r: seq<int>)
    ensures |r| <= |avs|
  {
    if avs == [] then []
    else (if avs[0].prestadorId == p then [avs[0].estrelas] else []) + EstrelasDe(avs[1..], p)
  }

  /** Whether some review is about quote `orcamentoId`. */
  predicate Avaliado(avs: seq<Avaliacao>, orcamentoId: int) {
    exists i :: 0 <= i < |avs| && avs[i].orcamentoId == orcamentoId
  }

  /** Appending a review adds its stars to its own provider's list and to no other. */
  lemma {:induction false} EstrelasDeAppend(avs: seq<Avaliacao>, a: Avaliacao, p: int)
    ensures EstrelasDe(avs + [a], p) == EstrelasDe(avs, p) + (if a.prestadorId == p then [a.estrelas] else [])
  {
    if avs == [] {
      assert avs + [a] == [a];
    } else {
      assert (avs + [a])[1..] == avs[1..] + [a];
      EstrelasDeAppend(avs[1..], a, p);
    }
  }

  /** With stars in 1..5, the sum of n stars lies in [n, 5n]. */
  lemma {:induction false} SomaLimitada(s: seq<int>)
    requires forall i :: 0 <= i < |s| ==> 1 <= s[i] <= 5
    ensures |s| <= Soma(s) <= 5 * |s|
  {
    if s != [] {
      SomaLimitada(s[1..]);
    }
  }

  /** The stars of a provider lie in 1..5 when every review's stars do. */
  lemma {:induction false} EstrelasDeLimitadas(avs: seq<Avaliacao>, p: int)
    requires forall i :: 0 <= i < |avs| ==> 1 <= avs[i].estrelas <= 5
    ensures forall i :: 0 <= i < |EstrelasDe(avs, p)| ==> 1 <= EstrelasDe(avs, p)[i] <= 5
  {
    if avs != [] {
      EstrelasDeLimitadas(avs[1..], p);
    }
  }

  /** A mean of stars in 1..5 lies in [1, 5] when there is at least one. */
  lemma MediaLimitada(s: seq<int>)
    requires s != []
    requires forall i :: 0 <= i < |s| ==> 1 <= s[i] <= 5
    ensures 1.0 <= Media(s) <= 5.0
  {
    SomaLimitada(s);
    QuocienteLimitado(Soma(s) as real, |s| as real);
  }

  lemma QuocienteLimitado(t: real, n: real)
    requires n > 0.0 && n <= t <= 5.0 * n
    ensures 1.0 <= t / n <= 5.0
  {
  }

  /** The provider's mean rating: 0 without reviews, otherwise the mean of its stars (in [1, 5] for valid stars). */
  function ObterMediaPrestador(db: Database, prestadorId: int): (m: real)
    reads db
    ensures EstrelasDe(db.avaliacoes, prestadorId) == [] ==> m == 0.0
    ensures EstrelasDe(db.avaliacoes, prestadorId) != [] ==>
      m * (|EstrelasDe(db.avaliacoes, prestadorId)| as real) == Soma(EstrelasDe(db.avaliacoes, prestadorId)) as real
    ensures (EstrelasDe(db.avaliacoes, prestadorId) != [] &&
             forall i :: 0 <= i < |db.avaliacoes| ==> 1 <= db.avaliacoes[i].estrelas <= 5) ==>
      1.0 <= m <= 5.0
  {
    var s := EstrelasDe(db.avaliacoes, prestadorId);
    if s != [] && (forall i :: 0 <= i < |db.avaliacoes| ==> 1 <= db.avaliacoes[i].estrelas <= 5) then
      EstrelasDeLimitadas(db.avaliacoes, prestadorId);
      MediaLimitada(s);
      Media(s)
    else
      Media(s)
  }

  /**
   * Writes the provider's mean rating from its reviews; an unknown provider
   * changes nothing.
   */
  method AtualizarMediaPrestador(db: Database, prestadorId: int)
    requires db.Valid()
    modifies db`prestadores
    ensures db.Valid()
    ensures prestadorId !in old(db.prestadores) ==> unchanged(db)
    ensures prestadorId in old(db.prestadores) ==>
      db.prestadores == old(db.prestadores)[prestadorId :=
        old(db.prestadores)[prestadorId].(avaliacaoMedia := ObterMediaPrestador(db, prestadorId))]
  {
    var media := ObterMediaPrestador(db, prestadorId);
    if prestadorId in db.prestadores {
      db.prestadores := db.prestadores[prestadorId := db.prestadores[prestadorId].(avaliacaoMedia := media)];
    }
  }

  /** Whether the review's quote, client and provider are stored rows (its three foreign keys). */
  predicate ChavesExistem(db: Database, dados: AvaliacaoCreate)
    reads db
  {
    dados.orcamentoId in db.orcamentos && dados.clienteId in db.clientes && dados.prestadorId in db.prestadores
  }

  /**
   * The commit of a new review whose foreign keys hold: the review is
   * appended and its provider's mean rating becomes the mean of the stars
   * with the new one.
   */
  method Inserir(db: Database, a: Avaliacao)
    requires db.Valid()
    requires a.id == db.nextAvaliacaoId
    requires a.orcamentoId in db.orcamentos && a.clienteId in db.clientes && a.prestadorId in db.prestadores
    modifies db`avaliacoes, db`nextAvaliacaoId, db`prestadores
    ensures db.Valid()
    ensures db.avaliacoes == old(db.avaliacoes) + [a]
    ensures db.nextAvaliacaoId == old(db.nextAvaliacaoId) + 1
    ensures db.prestadores == old(db.prestadores)[a.prestadorId := old(db.prestadores)[a.prestadorId].(avaliacaoMedia :=
      Media(EstrelasDe(old(db.avaliacoes), a.prestadorId) + [a.estrelas]))]
  {
    EstrelasDeAppend(db.avaliacoes, a, a.prestadorId);
    AnexarAvaliacao(db, a);
    AtualizarMediaPrestador(db, a.prestadorId);
  }

  /** Appending a review whose foreign keys hold keeps the schema invariant. */
  method AnexarAvaliacao(db: Database, a: Avaliacao)
    requires db.Valid()
    requires a.id == db.nextAvaliacaoId
    requires a.orcamentoId in db.orcamentos && a.clienteId in db.clientes && a.prestadorId in db.prestadores
    modifies db`avaliacoes, db`nextAvaliacaoId
    ensures db.Valid()
    ensures db.avaliacoes == old(db.avaliacoes) + [a]
    ensures db.nextAvaliacaoId == old(db.nextAvaliacaoId) + 1
  {
    db.avaliacoes := db.avaliacoes + [a];
    db.nextAvaliacaoId := db.nextAvaliacaoId + 1;
    assert db.KeysValid() && db.RequestsReferenceClients() && db.QuotesReferenceRequests();
    assert db.ReviewsReferenceRows();
  }

  /**
   * Stores a review unless its quote already has one (400), then refreshes
   * the reviewed provider's mean rating; no other provider changes. A quote,
   * client or provider that is not stored makes the commit break a foreign
   * key, and nothing is stored.
   */
  method CriarAvaliacao(db: Database, dados: AvaliacaoCreate) returns (r: Result<Avaliacao, HttpError>)
    requires db.Valid()
    modifies db`avaliacoes, db`nextAvaliacaoId, db`prestadores
    ensures db.Valid()
    ensures Avaliado(old(db.avaliacoes), dados.orcamentoId) <==> r == Err(AlreadyReviewed)
    ensures r == Err(IntegrityError) <==>
      !Avaliado(old(db.avaliacoes), dados.orcamentoId) && !old(ChavesExistem(db, dados))
    ensures r.Ok? <==> !Avaliado(old(db.avaliacoes), dados.orcamentoId) && old(ChavesExistem(db, dados))
    ensures r.Err? ==> unchanged(db)
    ensures r.Ok? ==>
      var a := r.value;
      var p := dados.prestadorId;
      && a == Avaliacao(old(db.nextAvaliacaoId), dados.orcamentoId, dados.clienteId, p, dados.estrelas, dados.comentario)
      && db.avaliacoes == old(db.avaliacoes) + [a]
      && db.prestadores == old(db.prestadores)[p := old(db.prestadores)[p].(avaliacaoMedia :=
           Media(EstrelasDe(old(db.avaliacoes), p) + [dados.estrelas]))]
  {
    var i := 0;
    while i < |db.avaliacoes|
      invariant 0 <= i <= |db.avaliacoes|
      invariant forall j :: 0 <= j < i ==> db.avaliacoes[j].orcamentoId != dados.orcamentoId
    {
      if db.avaliacoes[i].orcamentoId == dados.orcamentoId {
        return Err(AlreadyReviewed);
      }
      i := i + 1;
    }
    assert !Avaliado(db.avaliacoes, dados.orcamentoId);
    if !ChavesExistem(db, dados) {
      return Err(IntegrityError);
    }
    var a := Avaliacao(db.nextAvaliacaoId, dados.orcamentoId, dados.clienteId, dados.prestadorId,
      dados.estrelas, dados.comentario);
    Inserir(db, a);
    r := Ok(a);
  }
}
