/**
 * The relational store as one object: each table is a field that the
 * service methods reassign, and each table has its own primary-key counter
 * (autoincrement). `Valid()` holds the constraints the schema declares:
 * primary keys, the foreign keys of requests, quotes and reviews, and the
 * unique columns. Each service call is one atomic commit; a commit that
 * would break a foreign key or a unique column, or store a text longer than
 * its column, fails and changes nothing.
 */
module Session {
  import opened Wrappers
  import opened DbModels

  /** A row of the `users` table used by the user service (username, email, password hash). */
  datatype User = User(id: int, username: string, email: string, hashedPassword: string)

  /** The HTTP errors the services raise, with the values their messages show. */
  datatype HttpError =
    | NotFound                                            // 404
    | Forbidden                                           // 403 "Não autorizado"
    | BelowMinimum(valorProposto: real, valorMinimo: real)  // 400
    | AboveMaximum(valorProposto: real, valorMaximo: real)  // 400
    | MustBeAccepted                                      // 400 "Orçamento precisa estar aceito"
    | OnlyAwaitingDeletable                               // 400 only 'Aguardando' quotes can be deleted
    | RequestHasAcceptedQuote                             // 400 request with an accepted quote
    | AlreadyReviewed                                     // 400 "Este orçamento já foi avaliado"
    | IntegrityError                                      // the commit violates a foreign key (500)
    | DataError                                           // the commit stores a text longer than its column (500)
    | InvalidBody(detail: string)                         // 422: the request body fails validation
  {
    function StatusCode(): int {
      match this
      case NotFound => 404
      case Forbidden => 403
      case IntegrityError => 500
      case DataError => 500
      case InvalidBody(_) => 422
      case _ => 400
    }
  }

  class Database {
    var solicitacoes: map<int, Solicitacao>
    var orcamentos: map<int, Orcamento>
    var avaliacoes: seq<Avaliacao>
    var clientes: map<int, Cliente>
    var prestadores: map<int, Prestador>
    var users: map<int, User>
    var nextSolicitacaoId: int
    var nextOrcamentoId: int
    var nextAvaliacaoId: int
    var nextClienteId: int
    var nextPrestadorId: int
    var nextUserId: int

    /** Primary keys: every row is stored under its own id, below the table's counter. */
    ghost predicate KeysValid()
      reads this
    {
      && (forall k :: k in solicitacoes ==> solicitacoes[k].id == k && k < nextSolicitacaoId)
      && (forall k :: k in orcamentos ==> orcamentos[k].id == k && k < nextOrcamentoId)
      && (forall i :: 0 <= i < |avaliacoes| ==> avaliacoes[i].id < nextAvaliacaoId)
      && (forall k :: k in clientes ==> clientes[k].id == k && k < nextClienteId)
      && (forall k :: k in prestadores ==> prestadores[k].id == k && k < nextPrestadorId)
      && (forall k :: k in users ==> users[k].id == k && k < nextUserId)
    }

    /**
     * Foreign keys `orcamentos.solicitacao_id` and `orcamentos.prestador_id`:
     * every quote belongs to a stored request and a stored provider.
     */
    ghost predicate QuotesReferenceRequests()
      reads this
    {
      forall k :: k in orcamentos ==> orcamentos[k].solicitacaoId in solicitacoes && orcamentos[k].prestadorId in prestadores
    }

    /** Foreign key `solicitacoes.cliente_id`: every request belongs to a stored client. */
    ghost predicate RequestsReferenceClients()
      reads this
    {
      forall k :: k in solicitacoes ==> solicitacoes[k].clienteId in clientes
    }

    /**
     * Foreign keys `avaliacoes.orcamento_id`, `avaliacoes.cliente_id` and
     * `avaliacoes.prestador_id`: every review names a stored quote, client
     * and provider.
     */
    ghost predicate ReviewsReferenceRows()
      reads this
    {
      forall i :: 0 <= i < |avaliacoes| ==>
        && avaliacoes[i].orcamentoId in orcamentos
        && avaliacoes[i].clienteId in clientes
        && avaliacoes[i].prestadorId in prestadores
    }

    /** Unique columns: client emails, provider emails, usernames and user emails. */
    ghost predicate UniqueColumns()
      reads this
    {
      && (forall a, b :: a in clientes && b in clientes && clientes[a].email == clientes[b].email ==> a == b)
      && (forall a, b :: a in prestadores && b in prestadores && prestadores[a].email == prestadores[b].email ==> a == b)
      && (forall a, b :: a in users && b in users && users[a].username == users[b].username ==> a == b)
      && (forall a, b :: a in users && b in users && users[a].email == users[b].email ==> a == b)
    }

    ghost predicate Valid()
      reads this
    {
      && KeysValid() && RequestsReferenceClients() && QuotesReferenceRequests() && ReviewsReferenceRows()
      && UniqueColumns()
    }

    /** An empty database. */
    constructor ()
      ensures Valid()
      ensures solicitacoes == map[] && orcamentos == map[] && avaliacoes == []
      ensures clientes == map[] && prestadores == map[] && users == map[]
    {
      solicitacoes, orcamentos, avaliacoes := map[], map[], [];
      clientes, prestadores, users := map[], map[], map[];
      nextSolicitacaoId, nextOrcamentoId, nextAvaliacaoId := 1, 1, 1;
      nextClienteId, nextPrestadorId, nextUserId := 1, 1, 1;
    }
  }
}
