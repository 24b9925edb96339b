/**
 * Key handling: the 32-byte symmetric key derived from the configured text,
 * its base64url form (RFC 4648, section 5), the RSA key pair generated once
 * per process, the wrapping of decryption failures, and access tokens. RSA,
 * the JWT signature and the clock are parameters.
 */
module Security {
  import opened Wrappers
  import opened Utf8Codec

  /** The configured key bytes, padded with the byte of '0' or cut to 32. */
  function ChaveBruta(chave: seq<byte>): (k: seq<byte>)
    ensures |k| == 32
    ensures |chave| <= 32 ==> k[..|chave|] == chave && forall i :: |chave| <= i < 32 ==> k[i] == 0x30
    ensures |chave| >= 32 ==> k == chave[..32]
  {
    if |chave| < 32 then chave + seq(32 - |chave|, _ => 0x30)
    else if |chave| > 32 then chave[..32]
    else chave
  }

  /** The character for a 6-bit value in the URL-safe alphabet. */
  function Simbolo(v: int): (c: char)
    requires 0 <= v < 64
  {
    if v < 26 then ('A' as int + v) as char
    else if v < 52 then ('a' as int + (v - 26)) as char
    else if v < 62 then ('0' as int + (v - 52)) as char
    else if v == 62 then '-'
    else '_'
  }

  /** The 6-bit value of a character of the URL-safe alphabet (0 for any other). */
  function ValorSimbolo(c: char): (v: int)
    ensures 0 <= v < 64
  {
    if 'A' <= c <= 'Z' then c as int - 'A' as int
    else if 'a' <= c <= 'z' then 26 + (c as int - 'a' as int)
    else if '0' <= c <= '9' then 52 + (c as int - '0' as int)
    else if c == '_' then 63
    else if c == '-' then 62
    else 0
  }

  lemma ValorDoSimbolo(v: int)
    requires 0 <= v < 64
    ensures ValorSimbolo(Simbolo(v)) == v
    ensures Simbolo(v) != '='
  {
  }

  /** Base64 with the URL-safe alphabet and '=' padding (`base64.urlsafe_b64encode`). */
  function Base64Url(b: seq<byte>): (r: seq<char>)
    ensures |r| == (|b| + 2) / 3 * 4
  {
    if |b| == 0 then []
    else if |b| == 1 then
      [Simbolo(b[0] as int / 4), Simbolo(b[0] as int % 4 * 16), '=', '=']
    else if |b| == 2 then
      [Simbolo(b[0] as int / 4), Simbolo(b[0] as int % 4 * 16 + b[1] as int / 16), Simbolo(b[1] as int % 16 * 4), '=']
    else
      [Simbolo(b[0] as int / 4), Simbolo(b[0] as int % 4 * 16 + b[1] as int / 16),
       Simbolo(b[1] as int % 16 * 4 + b[2] as int / 64), Simbolo(b[2] as int % 64)]
      + Base64Url(b[3..])
  }

  /** The bytes of one group of four characters, with one or two '=' at the end standing for fewer bytes. */
  function DecodificarGrupo(g: seq<char>): (b: seq<byte>)
    requires |g| == 4
    ensures 1 <= |b| <= 3
  {
    var v0 := ValorSimbolo(g[0]);
    var v1 := ValorSimbolo(g[1]);
    var v2 := ValorSimbolo(g[2]);
    var v3 := ValorSimbolo(g[3]);
    var b0 := (v0 * 4 + v1 / 16) as byte;
    var b1 := (v1 % 16 * 16 + v2 / 4) as byte;
    var b2 := (v2 % 4 * 64 + v3) as byte;
    if g[2] == '=' && g[3] == '=' then [b0]
    else if g[3] == '=' then [b0, b1]
    else [b0, b1, b2]
  }

  /** Decoding of well-formed base64url text (`base64.urlsafe_b64decode`). */
  function Base64UrlDecodificar(s: seq<char>): seq<byte>
    decreases |s|
  {
    if |s| < 4 then [] else DecodificarGrupo(s[..4]) + Base64UrlDecodificar(s[4..])
  }

  lemma GrupoDeTres(b0: byte, b1: byte, b2: byte)
    ensures DecodificarGrupo(Base64Url([b0, b1, b2])) == [b0, b1, b2]
  {
    var x0, x1, x2, x3 := b0 as int / 4, b0 as int % 4 * 16 + b1 as int / 16, b1 as int % 16 * 4 + b2 as int / 64,
      b2 as int % 64;
    ValorDoSimbolo(x0);
    ValorDoSimbolo(x1);
    ValorDoSimbolo(x2);
    ValorDoSimbolo(x3);
    assert [b0, b1, b2][3..] == [];
    assert x1 / 16 == b0 as int % 4 && x1 % 16 == b1 as int / 16;
    assert x2 / 4 == b1 as int % 16 && x2 % 4 == b2 as int / 64;
  }

  lemma GrupoDeUm(b0: byte)
    ensures DecodificarGrupo(Base64Url([b0])) == [b0]
  {
    ValorDoSimbolo(b0 as int / 4);
    ValorDoSimbolo(b0 as int % 4 * 16);
  }

  lemma GrupoDeDois(b0: byte, b1: byte)
    ensures DecodificarGrupo(Base64Url([b0, b1])) == [b0, b1]
  {
    var x1 := b0 as int % 4 * 16 + b1 as int / 16;
    ValorDoSimbolo(b0 as int / 4);
    ValorDoSimbolo(x1);
    ValorDoSimbolo(b1 as int % 16 * 4);
    assert x1 / 16 == b0 as int % 4 && x1 % 16 == b1 as int / 16;
  }

  /** Decoding undoes the encoding: `urlsafe_b64decode(urlsafe_b64encode(b)) == b`. */
  lemma {:induction false} Base64UrlIda(b: seq<byte>)
    ensures Base64UrlDecodificar(Base64Url(b)) == b
    decreases |b|
  {
    var r := Base64Url(b);
    if |b| == 1 {
      assert b == [b[0]];
      GrupoDeUm(b[0]);
      assert r[..4] == r && r[4..] == [];
    } else if |b| == 2 {
      assert b == [b[0], b[1]];
      GrupoDeDois(b[0], b[1]);
      assert r[..4] == r && r[4..] == [];
    } else if |b| >= 3 {
      var g := [b[0], b[1], b[2]];
      GrupoDeTres(b[0], b[1], b[2]);
      assert g[3..] == [];
      assert Base64Url(g) == r[..4];
      assert r[4..] == Base64Url(b[3..]);
      Base64UrlIda(b[3..]);
      assert b == g + b[3..];
    }
  }

  /** `get_encryption_key`: the base64url text of the 32-byte key derived from the configured text. */
  function ChaveDeCriptografia(chaveConfigurada: string): (r: seq<char>)
    ensures |r| == 44
    ensures Base64UrlDecodificar(r) == ChaveBruta(Utf8(chaveConfigurada))
  {
    var k := ChaveBruta(Utf8(chaveConfigurada));
    Base64UrlIda(k);
    Base64Url(k)
  }

  /** A configured key of 32 or more ASCII characters is cut to its first 32 characters. */
  lemma ChaveLongaAscii(chave: string)
    requires |chave| >= 32
    requires forall i :: 0 <= i < |chave| ==> chave[i] as int < 0x80
    ensures ChaveBruta(Utf8(chave)) == Utf8(chave[..32])
  {
    assert chave == chave[..32] + chave[32..];
    Utf8Concat(chave[..32], chave[32..]);
    Utf8Ascii(chave[..32]);
  }

  /** Characters below 0x80 take one byte each. */
  lemma {:induction false} Utf8Ascii(s: string)
    requires forall i :: 0 <= i < |s| ==> s[i] as int < 0x80
    ensures |Utf8(s)| == |s|
  {
    if s != [] {
      Utf8Ascii(s[1..]);
    }
  }

  /** The message prefix of every decryption failure. */
  const PrefixoErroDescriptografia := "Erro ao descriptografar senha: "

  /**
   * The RSA key pair of the process, kept in two module variables that are
   * set together the first time a key is asked for and never again. A key
   * pair is named by the value the generator draws; `pemDe` gives the PEM
   * text of its public half.
   */
  class ChavesRsa {
    var chavePrivada: Option<nat>
    var chavePublicaPem: Option<string>

    ghost predicate Valid()
      reads this
    {
      chavePrivada.Some? <==> chavePublicaPem.Some?
    }

    constructor ()
      ensures Valid()
      ensures chavePrivada == None && chavePublicaPem == None
    {
      chavePrivada, chavePublicaPem := None, None;
    }

    /** `generate_rsa_keys`: generates a pair only when none is cached, then returns the cached pair. */
    method GerarChaves(novaChave: nat, pemDe: nat -> string) returns (privada: nat, pem: string)
      requires Valid()
      modifies this
      ensures Valid()
      ensures old(chavePrivada).Some? ==> unchanged(this)
      ensures old(chavePrivada).None? ==>
        chavePrivada == Some(novaChave) && chavePublicaPem == Some(pemDe(novaChave))
      ensures chavePrivada == Some(privada) && chavePublicaPem == Some(pem)
    {
      if chavePrivada.None? {
        chavePrivada := Some(novaChave);
        chavePublicaPem := Some(pemDe(novaChave));
      }
      privada, pem := chavePrivada.value, chavePublicaPem.value;
    }

    /** `get_rsa_public_key_pem`: the cached PEM text, generating the pair first if needed; it never fails. */
    method ChavePublicaPem(novaChave: nat, pemDe: nat -> string) returns (pem: string)
      requires Valid()
      modifies this
      ensures Valid()
      ensures old(chavePublicaPem).Some? ==> unchanged(this) && pem == old(chavePublicaPem).value
      ensures old(chavePublicaPem).None? ==> pem == pemDe(novaChave) && chavePrivada == Some(novaChave)
      ensures chavePublicaPem == Some(pem)
    {
      if chavePublicaPem.None? {
        var _, _ := GerarChaves(novaChave, pemDe);
      }
      pem := chavePublicaPem.value;
    }

    /**
     * `decrypt_rsa_password`: decrypts with the cached private key (generating
     * it first if needed); any failure of decoding or decryption becomes an
     * error whose message starts with the fixed prefix.
     */
    method DescriptografarSenha(cifrada: string, novaChave: nat, pemDe: nat -> string,
                                decifrar: (nat, string) -> Result<string, string>)
      returns (r: Result<string, string>)
      requires Valid()
      modifies this
      ensures Valid()
      ensures old(chavePrivada).Some? ==> unchanged(this)
      ensures old(chavePrivada).None? ==>
        chavePrivada == Some(novaChave) && chavePublicaPem == Some(pemDe(novaChave))
      ensures chavePrivada.Some?
      ensures r.Ok? <==> decifrar(chavePrivada.value, cifrada).Ok?
      ensures r.Ok? ==> r.value == decifrar(chavePrivada.value, cifrada).value
      ensures r.Err? ==> r.error == PrefixoErroDescriptografia + decifrar(chavePrivada.value, cifrada).error
    {
      if chavePrivada.None? {
        var _, _ := GerarChaves(novaChave, pemDe);
      }
      var d := decifrar(chavePrivada.value, cifrada);
      if d.Err? {
        return Err(PrefixoErroDescriptografia + d.error);
      }
      r := Ok(d.value);
    }
  }

  /** Two key requests use the same key pair: the first one's. */
  method DuasChamadasMesmaChave(cache: ChavesRsa, a: nat, b: nat, pemDe: nat -> string)
    returns (p1: nat, p2: nat)
    requires cache.Valid()
    modifies cache
    ensures p1 == p2
    ensures old(cache.chavePrivada).None? ==> p1 == a
    ensures old(cache.chavePrivada).Some? ==> p1 == old(cache.chavePrivada).value
  {
    var pem1, pem2;
    p1, pem1 := cache.GerarChaves(a, pemDe);
    p2, pem2 := cache.GerarChaves(b, pemDe);
  }

  /** A claim of a token: text, or an instant in seconds. */
  datatype Claim = Texto(s: string) | Instante(t: int)

  type Claims = map<string, Claim>

  /**
   * The lifetime of a new token in seconds: the given one unless absent or
   * zero, else the `ACCESS_TOKEN_EXPIRE_MINUTES` setting (`minutosPadrao`,
   * read from the environment, 30 when unset).
   */
  function Duracao(validade: Option<int>, minutosPadrao: int): (d: int)
    ensures validade.Some? && validade.value != 0 ==> d == validade.value
    ensures !(validade.Some? && validade.value != 0) ==> d == minutosPadrao * 60
  {
    if validade.Some? && validade.value != 0 then validade.value else minutosPadrao * 60
  }

  /**
   * The claims of a new token: expiry (now plus the given lifetime, or the
   * configured minutes when none or a zero one is given) and subject.
   */
  function ClaimsDoToken(sujeito: string, agora: int, validade: Option<int>, minutosPadrao: int): (c: Claims)
    ensures c.Keys == {"exp", "sub"} && c["sub"] == Texto(sujeito)
    ensures validade.Some? && validade.value != 0 ==> c["exp"] == Instante(agora + validade.value)
    ensures !(validade.Some? && validade.value != 0) ==> c["exp"] == Instante(agora + minutosPadrao * 60)
  {
    map["exp" := Instante(agora + Duracao(validade, minutosPadrao)), "sub" := Texto(sujeito)]
  }

  /**
   * `create_access_token`: a token is the encoding of exactly two claims,
   * the subject and the expiry.
   */
  function CriarToken(codificar: Claims -> string, sujeito: string, agora: int, validade: Option<int>,
                      minutosPadrao: int): (t: string)
    ensures exists c: Claims :: (t == codificar(c) && c.Keys == {"exp", "sub"} && c["sub"] == Texto(sujeito) &&
                                 c["exp"] == Instante(agora + Duracao(validade, minutosPadrao)))
  {
    var c := ClaimsDoToken(sujeito, agora, validade, minutosPadrao);
    assert c["exp"] == Instante(agora + Duracao(validade, minutosPadrao));
    codificar(c)
  }

  /** `verify_token`: the "sub" claim of a token that decodes at instant `agora`; `None` otherwise. */
  function VerificarToken(decodificar: (string, int) -> Option<Claims>, token: string, agora: int): (r: Option<Claim>)
    ensures r.Some? <==> decodificar(token, agora).Some? && "sub" in decodificar(token, agora).value
    ensures r.Some? ==> r.value == decodificar(token, agora).value["sub"]
  {
    match decodificar(token, agora)
    case None => None
    case Some(payload) => if "sub" in payload then Some(payload["sub"]) else None
  }

  /** Whether a token's claims have expired at `agora` (expiry strictly before it). */
  predicate Expirado(c: Claims, agora: int) {
    "exp" in c && c["exp"].Instante? && c["exp"].t < agora
  }

  /**
   * With a decoder that returns the claims an encoder signed unless they have
   * expired, a new token yields its subject until its expiry and `None` after.
   */
  lemma TokenDevolveSujeito(codificar: Claims -> string, decodificar: (string, int) -> Option<Claims>,
                            sujeito: string, criadoEm: int, validade: Option<int>, minutosPadrao: int, agora: int)
    requires forall c: Claims, t: int :: decodificar(codificar(c), t) == if Expirado(c, t) then None else Some(c)
    ensures var token := CriarToken(codificar, sujeito, criadoEm, validade, minutosPadrao);
      var duracao := if validade.Some? && validade.value != 0 then validade.value else minutosPadrao * 60;
      VerificarToken(decodificar, token, agora) == if agora <= criadoEm + duracao then Some(Texto(sujeito)) else None
  {
    var c := ClaimsDoToken(sujeito, criadoEm, validade, minutosPadrao);
    assert decodificar(codificar(c), agora) == if Expirado(c, agora) then None else Some(c);
  }
}
