/**
 * Client and provider registration and login. Before hashing or verifying,
 * a password whose UTF-8 encoding is longer than 72 bytes is cut to its
 * first 72 bytes and decoded again, dropping the bytes of a character the
 * cut splits. The password hasher and verifier are parameters; the hasher
 * also takes the salt it would draw at random.
 */
module AuthService {
  import opened Wrappers
  import opened DbModels
  import opened Session
  import Ordering
  import opened Utf8Codec

  /** The first `n` bytes, or all of them when there are fewer (a slice `b[:n]`). */
  function Corte(b: seq<byte>, n: nat): (r: seq<byte>)
    ensures |r| == if |b| <= n then |b| else n
    ensures r == b[..|r|]
  {
    if |b| <= n then b else b[..n]
  }

  lemma CorteConcat(a: seq<byte>, b: seq<byte>, n: nat)
    requires |a| <= n
    ensures Corte(a + b, n) == a + Corte(b, n - |a|)
  {
    if |a + b| > n {
      assert (a + b)[..n] == a + b[..n - |a|];
    }
  }

  /**
   * The longest prefix of `s` whose encoding fits in `n` bytes: what decoding
   * the first `n` bytes of a valid encoding gives when the bytes of a split
   * character are ignored.
   */
  function PrefixoQueCabe(s: string, n: nat): (r: string)
    ensures |r| <= |s|
  {
    if s == [] then []
    else
      var k := |CodificarChar(s[0])|;
      if k <= n then [s[0]] + PrefixoQueCabe(s[1..], n - k) else []
  }

  lemma {:induction false} PrefixoQueCabeCorreto(s: string, n: nat)
    ensures PrefixoQueCabe(s, n) == s[..|PrefixoQueCabe(s, n)|]
    ensures |Utf8(PrefixoQueCabe(s, n))| <= n
    ensures |Utf8(PrefixoQueCabe(s, n))| <= |Utf8(s)|
    ensures Utf8(s)[..|Utf8(PrefixoQueCabe(s, n))|] == Utf8(PrefixoQueCabe(s, n))
    ensures |PrefixoQueCabe(s, n)| < |s| ==>
      |Utf8(PrefixoQueCabe(s, n))| + |CodificarChar(s[|PrefixoQueCabe(s, n)|])| > n
    ensures |Utf8(s)| <= n ==> PrefixoQueCabe(s, n) == s
  {
    if s != [] {
      var k := |CodificarChar(s[0])|;
      var r := PrefixoQueCabe(s, n);
      if k <= n {
        PrefixoQueCabeCorreto(s[1..], n - k);
        var r' := PrefixoQueCabe(s[1..], n - k);
        assert r == [s[0]] + r';
        assert r[1..] == r';
        assert Utf8(r) == CodificarChar(s[0]) + Utf8(r');
        assert Utf8(s) == CodificarChar(s[0]) + Utf8(s[1..]);
        assert |Utf8(r)| <= |Utf8(s)|;
        assert Utf8(s)[..|Utf8(r)|] == CodificarChar(s[0]) + Utf8(s[1..])[..|Utf8(r')|];
        if |r| < |s| {
          assert s[|r|] == s[1..][|r'|];
        }
      }
    }
  }

  /** The prefix that fits in `n` bytes is decided by the first `n` bytes alone. */
  lemma {:induction false} PrefixoDeterminado(s: string, t: string, n: nat)
    requires Corte(Utf8(s), n) == Corte(Utf8(t), n)
    ensures PrefixoQueCabe(s, n) == PrefixoQueCabe(t, n)
  {
    if n == 0 || s == [] || t == [] {
      if n > 0 && s == [] {
        assert Utf8(t) == [];
      }
      if n > 0 && t == [] {
        assert Utf8(s) == [];
      }
    } else {
      var es := CodificarChar(s[0]);
      var et := CodificarChar(t[0]);
      assert Utf8(s) == es + Utf8(s[1..]);
      assert Utf8(t) == et + Utf8(t[1..]);
      assert Corte(Utf8(s), n)[0] == es[0];
      assert Corte(Utf8(t), n)[0] == et[0];
      var k := |es|;
      if k <= n {
        CorteConcat(es, Utf8(s[1..]), n);
        CorteConcat(et, Utf8(t[1..]), n);
        var cs := Corte(Utf8(s[1..]), n - k);
        var ct := Corte(Utf8(t[1..]), n - k);
        assert es + cs == et + ct;
        assert es == (es + cs)[..k] && et == (et + ct)[..k];
        assert cs == (es + cs)[k..] && ct == (et + ct)[k..];
        CodificacaoInjetiva(s[0], t[0]);
        PrefixoDeterminado(s[1..], t[1..], n - k);
      }
    }
  }

  /** The password as the hasher and the verifier receive it. */
  function Truncar(senha: string): (r: string)
    ensures |Utf8(senha)| <= 72 ==> r == senha
    ensures |r| <= |senha| && |Utf8(r)| <= |Utf8(senha)|
    ensures r == senha[..|r|]
    ensures |Utf8(r)| <= 72
    ensures Utf8(senha)[..|Utf8(r)|] == Utf8(r)
    ensures |Utf8(senha)| > 72 ==> |r| < |senha| && |Utf8(r)| + |CodificarChar(senha[|r|])| > 72
  {
    PrefixoQueCabeCorreto(senha, 72);
    if |Utf8(senha)| > 72 then
      var r := PrefixoQueCabe(senha, 72);
      assert r != senha;
      r
    else senha
  }

  function HashSenha(hash: (nat, string) -> string, sal: nat, senha: string): string {
    hash(sal, Truncar(senha))
  }

  function VerificarSenha(verify: (string, string) -> bool, senha: string, senhaHash: string): bool {
    verify(Truncar(senha), senhaHash)
  }

  /** A password of at most 72 bytes reaches the hasher and the verifier unchanged. */
  lemma SenhaCurtaInalterada(hash: (nat, string) -> string, verify: (string, string) -> bool,
                             sal: nat, senha: string, senhaHash: string)
    requires |Utf8(senha)| <= 72
    ensures HashSenha(hash, sal, senha) == hash(sal, senha)
    ensures VerificarSenha(verify, senha, senhaHash) == verify(senha, senhaHash)
  {
  }

  /** Passwords that agree on their first 72 bytes hash and verify alike. */
  lemma SenhasIntercambiaveis(hash: (nat, string) -> string, verify: (string, string) -> bool,
                              sal: nat, s: string, t: string, senhaHash: string)
    requires Corte(Utf8(s), 72) == Corte(Utf8(t), 72)
    ensures Truncar(s) == Truncar(t)
    ensures HashSenha(hash, sal, s) == HashSenha(hash, sal, t)
    ensures VerificarSenha(verify, s, senhaHash) == VerificarSenha(verify, t, senhaHash)
  {
    PrefixoQueCabeCorreto(s, 72);
    PrefixoQueCabeCorreto(t, 72);
    PrefixoDeterminado(s, t, 72);
  }

  datatype ClienteCreate = ClienteCreate(
    nome: string, email: string, senha: string,
    telefone: Option<string>, cpf: Option<string>, endereco: Option<string>)

  datatype PrestadorCreate = PrestadorCreate(
    nome: string, email: string, senha: string, telefone: Option<string>, cpfCnpj: Option<string>,
    categorias: seq<string>, regioesAtendimento: seq<string>)

  /** The commit of a new client whose e-mail is free: stored under the next id, the schema invariant kept. */
  method InserirCliente(db: Database, c: Cliente)
    requires db.Valid() && c.id == db.nextClienteId
    requires forall k :: k in db.clientes ==> db.clientes[k].email != c.email
    modifies db`clientes, db`nextClienteId
    ensures db.Valid()
    ensures db.clientes == old(db.clientes)[c.id := c] && c.id !in old(db.clientes)
    ensures db.nextClienteId == old(db.nextClienteId) + 1
  {
    db.clientes := db.clientes[c.id := c];
    db.nextClienteId := db.nextClienteId + 1;
    assert db.KeysValid();
    assert db.RequestsReferenceClients() && db.QuotesReferenceRequests() && db.ReviewsReferenceRows();
  }

  /** The commit of a new provider whose e-mail is free, in the same way. */
  method InserirPrestador(db: Database, p: Prestador)
    requires db.Valid() && p.id == db.nextPrestadorId
    requires forall k :: k in db.prestadores ==> db.prestadores[k].email != p.email
    modifies db`prestadores, db`nextPrestadorId
    ensures db.Valid()
    ensures db.prestadores == old(db.prestadores)[p.id := p] && p.id !in old(db.prestadores)
    ensures db.nextPrestadorId == old(db.nextPrestadorId) + 1
  {
    db.prestadores := db.prestadores[p.id := p];
    db.nextPrestadorId := db.nextPrestadorId + 1;
    assert db.KeysValid();
    assert db.RequestsReferenceClients() && db.QuotesReferenceRequests() && db.ReviewsReferenceRows();
  }

  /**
   * The client row the insert writes, each text as its `varchar` column
   * stores it; `None` when one of them does not fit, and the commit fails.
   */
  function LinhaCliente(id: int, dados: ClienteCreate, senhaHash: string): (r: Option<Cliente>)
    ensures r.Some? <==>
      && Cabe(dados.nome, LarguraNome) && Cabe(dados.email, LarguraEmail) && Cabe(senhaHash, LarguraSenhaHash)
      && NaColunaOpcional(dados.telefone, LarguraTelefone).Some? && NaColunaOpcional(dados.cpf, LarguraDocumento).Some?
    ensures r.Some? ==>
      && r.value.id == id && r.value.endereco == dados.endereco && r.value.avaliacaoMedia == 0.0
      && r.value.nome == NaColuna(dados.nome, LarguraNome).value
      && r.value.email == NaColuna(dados.email, LarguraEmail).value
      && r.value.senhaHash == NaColuna(senhaHash, LarguraSenhaHash).value
      && r.value.telefone == NaColunaOpcional(dados.telefone, LarguraTelefone).value
      && r.value.cpf == NaColunaOpcional(dados.cpf, LarguraDocumento).value
    ensures (&& |dados.nome| <= LarguraNome && |dados.email| <= LarguraEmail && |senhaHash| <= LarguraSenhaHash
             && (dados.telefone.None? || |dados.telefone.value| <= LarguraTelefone)
             && (dados.cpf.None? || |dados.cpf.value| <= LarguraDocumento)) ==>
      r == Some(Cliente(id, dados.nome, dados.email, senhaHash, dados.telefone, dados.cpf, dados.endereco, 0.0))
  {
    var nome, email, hash := NaColuna(dados.nome, LarguraNome), NaColuna(dados.email, LarguraEmail),
      NaColuna(senhaHash, LarguraSenhaHash);
    var telefone, cpf := NaColunaOpcional(dados.telefone, LarguraTelefone), NaColunaOpcional(dados.cpf, LarguraDocumento);
    if nome.Some? && email.Some? && hash.Some? && telefone.Some? && cpf.Some? then
      Some(Cliente(id, nome.value, email.value, hash.value, telefone.value, cpf.value, dados.endereco, 0.0))
    else None
  }

  /** The provider row the insert writes, in the same way. */
  function LinhaPrestador(id: int, dados: PrestadorCreate, senhaHash: string): (r: Option<Prestador>)
    ensures r.Some? <==>
      && Cabe(dados.nome, LarguraNome) && Cabe(dados.email, LarguraEmail) && Cabe(senhaHash, LarguraSenhaHash)
      && NaColunaOpcional(dados.telefone, LarguraTelefone).Some?
      && NaColunaOpcional(dados.cpfCnpj, LarguraDocumento).Some?
    ensures r.Some? ==>
      && r.value.id == id && r.value.categorias == dados.categorias
      && r.value.regioesAtendimento == dados.regioesAtendimento && r.value.avaliacaoMedia == 0.0
      && r.value.nome == NaColuna(dados.nome, LarguraNome).value
      && r.value.email == NaColuna(dados.email, LarguraEmail).value
      && r.value.senhaHash == NaColuna(senhaHash, LarguraSenhaHash).value
      && r.value.telefone == NaColunaOpcional(dados.telefone, LarguraTelefone).value
      && r.value.cpfCnpj == NaColunaOpcional(dados.cpfCnpj, LarguraDocumento).value
    ensures (&& |dados.nome| <= LarguraNome && |dados.email| <= LarguraEmail && |senhaHash| <= LarguraSenhaHash
             && (dados.telefone.None? || |dados.telefone.value| <= LarguraTelefone)
             && (dados.cpfCnpj.None? || |dados.cpfCnpj.value| <= LarguraDocumento)) ==>
      r == Some(Prestador(id, dados.nome, dados.email, senhaHash, dados.telefone, dados.cpfCnpj,
                          dados.categorias, dados.regioesAtendimento, 0.0))
  {
    var nome, email, hash := NaColuna(dados.nome, LarguraNome), NaColuna(dados.email, LarguraEmail),
      NaColuna(senhaHash, LarguraSenhaHash);
    var telefone, doc := NaColunaOpcional(dados.telefone, LarguraTelefone),
      NaColunaOpcional(dados.cpfCnpj, LarguraDocumento);
    if nome.Some? && email.Some? && hash.Some? && telefone.Some? && doc.Some? then
      Some(Prestador(id, nome.value, email.value, hash.value, telefone.value, doc.value,
                     dados.categorias, dados.regioesAtendimento, 0.0))
    else None
  }

  /**
   * Registers a client with the hash of its password. The commit fails when
   * a text does not fit its column (data error), and otherwise when another
   * client already has the stored e-mail (unique column, integrity error);
   * a failed commit stores nothing.
   */
  method CriarCliente(db: Database, dados: ClienteCreate, hash: (nat, string) -> string, sal: nat)
    returns (r: Result<Cliente, HttpError>)
    requires db.Valid()
    modifies db`clientes, db`nextClienteId
    ensures db.Valid()
    ensures r.Err? ==> (r.error == DataError || r.error == IntegrityError) && unchanged(db)
    ensures var linha := LinhaCliente(old(db.nextClienteId), dados, HashSenha(hash, sal, dados.senha));
      && (r == Err(DataError) <==> linha.None?)
      && (r == Err(IntegrityError) <==>
            linha.Some? && exists k :: k in old(db.clientes) && old(db.clientes)[k].email == linha.value.email)
      && (r.Ok? ==>
            && linha == Some(r.value) && r.value.id !in old(db.clientes)
            && db.clientes == old(db.clientes)[r.value.id := r.value])
  {
    var linha := LinhaCliente(db.nextClienteId, dados, HashSenha(hash, sal, dados.senha));
    if linha.None? {
      return Err(DataError);
    }
    var c := linha.value;
    var existente := Ordering.FirstMatch(db.clientes, (x: Cliente) => x.email == c.email);
    if existente.Some? {
      return Err(IntegrityError);
    }
    InserirCliente(db, c);
    r := Ok(c);
  }

  /** Registers a provider in the same way, with no rating yet. */
  method CriarPrestador(db: Database, dados: PrestadorCreate, hash: (nat, string) -> string, sal: nat)
    returns (r: Result<Prestador, HttpError>)
    requires db.Valid()
    modifies db`prestadores, db`nextPrestadorId
    ensures db.Valid()
    ensures r.Err? ==> (r.error == DataError || r.error == IntegrityError) && unchanged(db)
    ensures var linha := LinhaPrestador(old(db.nextPrestadorId), dados, HashSenha(hash, sal, dados.senha));
      && (r == Err(DataError) <==> linha.None?)
      && (r == Err(IntegrityError) <==>
            linha.Some? && exists k :: k in old(db.prestadores) && old(db.prestadores)[k].email == linha.value.email)
      && (r.Ok? ==>
            && linha == Some(r.value) && r.value.id !in old(db.prestadores)
            && db.prestadores == old(db.prestadores)[r.value.id := r.value])
  {
    var linha := LinhaPrestador(db.nextPrestadorId, dados, HashSenha(hash, sal, dados.senha));
    if linha.None? {
      return Err(DataError);
    }
    var p := linha.value;
    var existente := Ordering.FirstMatch(db.prestadores, (x: Prestador) => x.email == p.email);
    if existente.Some? {
      return Err(IntegrityError);
    }
    InserirPrestador(db, p);
    r := Ok(p);
  }

  /** The client with that e-mail when the password verifies against its hash; otherwise `None`. */
  method AutenticarCliente(db: Database, email: string, senha: string, verify: (string, string) -> bool)
    returns (r: Option<Cliente>)
    requires db.Valid()
    ensures r.Some? <==> exists k :: (k in db.clientes && db.clientes[k].email == email &&
                                      VerificarSenha(verify, senha, db.clientes[k].senhaHash))
    ensures r.Some? ==> r.value.id in db.clientes && db.clientes[r.value.id] == r.value && r.value.email == email
  {
    var achado := BuscarClientePorEmail(db, email);
    if achado.None? {
      return None;
    }
    var c := achado.value;
    if !VerificarSenha(verify, senha, c.senhaHash) {
      return None;
    }
    r := Some(c);
  }

  /** The client stored under that id, if any. */
  function BuscarClientePorId(db: Database, id: int): (r: Option<Cliente>)
    reads db
    requires db.Valid()
    ensures r.Some? <==> exists k :: k in db.clientes && db.clientes[k].id == id
    ensures r.Some? ==> r.value in db.clientes.Values && r.value.id == id
  {
    if id in db.clientes then Some(db.clientes[id]) else None
  }

  /** The client with that e-mail, if any; e-mails being unique, it is the only one. */
  method BuscarClientePorEmail(db: Database, email: string) returns (r: Option<Cliente>)
    requires db.Valid()
    ensures r.None? <==> forall k :: k in db.clientes ==> db.clientes[k].email != email
    ensures r.Some? ==> r.value.id in db.clientes && db.clientes[r.value.id] == r.value && r.value.email == email
    ensures r.Some? ==> forall k :: k in db.clientes && db.clientes[k].email == email ==> k == r.value.id
  {
    var k := Ordering.FirstMatch(db.clientes, (c: Cliente) => c.email == email);
    if k.None? {
      return None;
    }
    r := Some(db.clientes[k.value]);
  }

  /** The provider with that e-mail when the password verifies against its hash; otherwise `None`. */
  method AutenticarPrestador(db: Database, email: string, senha: string, verify: (string, string) -> bool)
    returns (r: Option<Prestador>)
    requires db.Valid()
    ensures r.Some? <==> exists k :: (k in db.prestadores && db.prestadores[k].email == email &&
                                      VerificarSenha(verify, senha, db.prestadores[k].senhaHash))
    ensures r.Some? ==> r.value.id in db.prestadores && db.prestadores[r.value.id] == r.value && r.value.email == email
  {
    var achado := BuscarPrestadorPorEmail(db, email);
    if achado.None? {
      return None;
    }
    var p := achado.value;
    if !VerificarSenha(verify, senha, p.senhaHash) {
      return None;
    }
    r := Some(p);
  }

  /** The provider stored under that id, if any. */
  function BuscarPrestadorPorId(db: Database, id: int): (r: Option<Prestador>)
    reads db
    requires db.Valid()
    ensures r.Some? <==> exists k :: k in db.prestadores && db.prestadores[k].id == id
    ensures r.Some? ==> r.value in db.prestadores.Values && r.value.id == id
  {
    if id in db.prestadores then Some(db.prestadores[id]) else None
  }

  /** The provider with that e-mail, if any; e-mails being unique, it is the only one. */
  method BuscarPrestadorPorEmail(db: Database, email: string) returns (r: Option<Prestador>)
    requires db.Valid()
    ensures r.None? <==> forall k :: k in db.prestadores ==> db.prestadores[k].email != email
    ensures r.Some? ==> r.value.id in db.prestadores && db.prestadores[r.value.id] == r.value && r.value.email == email
    ensures r.Some? ==> forall k :: k in db.prestadores && db.prestadores[k].email == email ==> k == r.value.id
  {
    var k := Ordering.FirstMatch(db.prestadores, (p: Prestador) => p.email == email);
    if k.None? {
      return None;
    }
    r := Some(db.prestadores[k.value]);
  }
}
