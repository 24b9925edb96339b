/**
 * The in-memory test doubles behind the database and pricing ports: a fake
 * store of dictionary records with one id counter shared by users, requests
 * and quotes, and a pricing model answering fixed values.
 */
module Adapters {
  import opened Wrappers
  import OrcamentoService
  import Ordering

  /** A value stored in a record; records are dictionaries from column name to value. */
  datatype Valor = Inteiro(i: int) | Texto(s: string) | Decimal(d: real) | Booleano(b: bool) | Nulo

  type Registro = map<string, Valor>

  /**
   * A record built from defaults and the caller's keys: the caller's keys win,
   * including "id" and "status"; every other default is kept.
   */
  function Mesclar(padrao: Registro, dados: Registro): (r: Registro)
    ensures r.Keys == padrao.Keys + dados.Keys
    ensures forall c :: c in dados ==> r[c] == dados[c]
    ensures forall c :: c in padrao && c !in dados ==> r[c] == padrao[c]
  {
    padrao + dados
  }

  predicate TemEmail(u: Registro, email: string) {
    "email" in u && u["email"] == Texto(email)
  }

  class FakeDatabaseAdapter {
    var users: map<int, Registro>
    var solicitacoes: map<int, Registro>
    var orcamentos: map<int, Registro>
    var nextId: int

    /**
     * Every stored key was drawn from the counter, so it lies below it, and no
     * id is used by two records, whatever their kind. Since each new key is
     * above every stored one, ascending key order is insertion order.
     */
    ghost predicate Valid()
      reads this
    {
      && nextId >= 1
      && (forall k :: k in users ==> 1 <= k < nextId)
      && (forall k :: k in solicitacoes ==> 1 <= k < nextId)
      && (forall k :: k in orcamentos ==> 1 <= k < nextId)
      && users.Keys !! solicitacoes.Keys
      && users.Keys !! orcamentos.Keys
      && solicitacoes.Keys !! orcamentos.Keys
    }

    constructor ()
      ensures Valid()
      ensures users == map[] && solicitacoes == map[] && orcamentos == map[] && nextId == 1
    {
      users, solicitacoes, orcamentos := map[], map[], map[];
      nextId := 1;
    }

    method CreateUser(dados: Registro) returns (u: Registro)
      requires Valid()
      modifies this`users, this`nextId
      ensures Valid()
      ensures u == Mesclar(map["id" := Inteiro(old(nextId))], dados)
      ensures old(nextId) !in old(users) && users == old(users)[old(nextId) := u]
      ensures nextId == old(nextId) + 1
    {
      var id := nextId;
      nextId := nextId + 1;
      u := Mesclar(map["id" := Inteiro(id)], dados);
      users := users[id := u];
    }

    /** The first user, in insertion order, whose "email" is `email`; `None` when there is none. */
    method GetUserByEmail(email: string) returns (r: Option<Registro>)
      requires Valid()
      ensures r.None? <==> forall k :: k in users ==> !TemEmail(users[k], email)
      ensures r.Some? ==> exists k :: (k in users && users[k] == r.value && TemEmail(r.value, email) &&
                                       forall j :: j in users && j < k ==> !TemEmail(users[j], email))
    {
      var k := Ordering.FirstMatch(users, (u: Registro) => TemEmail(u, email));
      if k.None? {
        return None;
      }
      r := Some(users[k.value]);
    }

    function GetUserById(id: int): (r: Option<Registro>)
      reads this
      ensures r.Some? <==> id in users
      ensures r.Some? ==> r.value == users[id]
    {
      if id in users then Some(users[id]) else None
    }

    method CreateSolicitacao(dados: Registro) returns (s: Registro)
      requires Valid()
      modifies this`solicitacoes, this`nextId
      ensures Valid()
      ensures s == Mesclar(map["id" := Inteiro(old(nextId)), "status" := Texto("aguardando_orcamentos")], dados)
      ensures old(nextId) !in old(solicitacoes) && solicitacoes == old(solicitacoes)[old(nextId) := s]
      ensures nextId == old(nextId) + 1
    {
      var id := nextId;
      nextId := nextId + 1;
      s := Mesclar(map["id" := Inteiro(id), "status" := Texto("aguardando_orcamentos")], dados);
      solicitacoes := solicitacoes[id := s];
    }

    function GetSolicitacaoById(id: int): (r: Option<Registro>)
      reads this
      ensures r.Some? <==> id in solicitacoes
      ensures r.Some? ==> r.value == solicitacoes[id]
    {
      if id in solicitacoes then Some(solicitacoes[id]) else None
    }

    method CreateOrcamento(dados: Registro) returns (o: Registro)
      requires Valid()
      modifies this`orcamentos, this`nextId
      ensures Valid()
      ensures o == Mesclar(map["id" := Inteiro(old(nextId)), "status" := Texto("aguardando")], dados)
      ensures old(nextId) !in old(orcamentos) && orcamentos == old(orcamentos)[old(nextId) := o]
      ensures nextId == old(nextId) + 1
    {
      var id := nextId;
      nextId := nextId + 1;
      o := Mesclar(map["id" := Inteiro(id), "status" := Texto("aguardando")], dados);
      orcamentos := orcamentos[id := o];
    }

    function GetOrcamentoById(id: int): (r: Option<Registro>)
      reads this
      ensures r.Some? <==> id in orcamentos
      ensures r.Some? ==> r.value == orcamentos[id]
    {
      if id in orcamentos then Some(orcamentos[id]) else None
    }

    /** Sets the "status" of a stored quote and answers true; an unknown id changes nothing. */
    method UpdateOrcamentoStatus(id: int, status: string) returns (ok: bool)
      requires Valid()
      modifies this`orcamentos
      ensures Valid()
      ensures ok <==> id in old(orcamentos)
      ensures !ok ==> orcamentos == old(orcamentos)
      ensures ok ==> orcamentos == old(orcamentos)[id := old(orcamentos)[id]["status" := Texto(status)]]
    {
      if id in orcamentos {
        orcamentos := orcamentos[id := orcamentos[id]["status" := Texto(status)]];
        return true;
      }
      return false;
    }

    method Clear()
      modifies this
      ensures Valid()
      ensures users == map[] && solicitacoes == map[] && orcamentos == map[] && nextId == 1
    {
      users, solicitacoes, orcamentos := map[], map[], map[];
      nextId := 1;
    }
  }

  /** What the pricing port answers: the three bounds and a predicted category. */
  datatype LimitesPreditos = LimitesPreditos(valorMinimo: real, valorSugerido: real, valorMaximo: real,
                                             categoriaPredita: string)

  const CategoriaPadrao := "Serviços Gerais"

  /** The fake pricing model: the same bounds for every request, ordered and around the suggestion. */
  function CalcularLimitesFake(categoria: string, descricao: string, localizacao: string): (r: LimitesPreditos)
    ensures r.valorMinimo <= r.valorSugerido <= r.valorMaximo
    ensures r.categoriaPredita == CategoriaPadrao
  {
    LimitesPreditos(350.0, 500.0, 750.0, CategoriaPadrao)
  }

  /** The fake answer does not depend on the request. */
  lemma FakeIndependeDaEntrada(c1: string, d1: string, l1: string, c2: string, d2: string, l2: string)
    ensures CalcularLimitesFake(c1, d1, l1) == CalcularLimitesFake(c2, d2, l2)
  {
  }

  /** The bounds part of the fake answer, as the quote service takes it. */
  function LimitesDoFake(categoria: string, descricao: string, localizacao: string): OrcamentoService.Limites {
    var r := CalcularLimitesFake(categoria, descricao, localizacao);
    OrcamentoService.Limites(r.valorMinimo, r.valorSugerido, r.valorMaximo)
  }

  /** Under the fake pricing model, a quote is within bounds exactly when its value is in [350, 750]. */
  lemma FakeAceitaEntre(valor: real, categoria: string, descricao: string, localizacao: string)
    ensures OrcamentoService.ForaDosLimites(valor, LimitesDoFake(categoria, descricao, localizacao)).None?
        <==> 350.0 <= valor <= 750.0
  {
  }
}
