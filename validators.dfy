/**
 * The string validators for e-mail addresses, Brazilian phone numbers and
 * CPF numbers. Each one is a regular-expression match; the model states the
 * language of each pattern as a predicate and checks each validator against
 * it.
 *
 * Two details of the regular-expression engine matter here:
 * - the match is anchored at the start only (`re.match`), and `$` matches at
 *   the end of the text or just before a final "\n". So a text followed by
 *   one newline is accepted whenever the text itself is;
 * - `\d` is read as an ASCII digit.
 */
module Validators {
  import opened Wrappers

  predicate Letra(c: char) {
    'a' <= c <= 'z' || 'A' <= c <= 'Z'
  }

  predicate Digito(c: char) {
    '0' <= c <= '9'
  }

  /** `[a-zA-Z0-9._%+-]` */
  predicate CharLocal(c: char) {
    Letra(c) || Digito(c) || c == '.' || c == '_' || c == '%' || c == '+' || c == '-'
  }

  /** `[a-zA-Z0-9.-]` */
  predicate CharDominio(c: char) {
    Letra(c) || Digito(c) || c == '.' || c == '-'
  }

  predicate SoLocal(t: string) {
    forall i :: 0 <= i < |t| ==> CharLocal(t[i])
  }

  predicate SoDominio(t: string) {
    forall i :: 0 <= i < |t| ==> CharDominio(t[i])
  }

  predicate SoLetras(t: string) {
    forall i :: 0 <= i < |t| ==> Letra(t[i])
  }

  predicate SoDigitos(t: string) {
    forall i :: 0 <= i < |t| ==> Digito(t[i])
  }

  /**
   * The texts matching `[a-zA-Z0-9._%+-]+@[a-zA-Z0-9.-]+\.[a-zA-Z]{2,}` in
   * full: a local part, "@", a domain part, ".", and two or more letters.
   */
  ghost predicate FormaEmail(t: string) {
    exists i, j :: 0 < i && i + 1 < j && j + 2 < |t| &&
      SoLocal(t[..i]) && t[i] == '@' && SoDominio(t[i + 1..j]) && t[j] == '.' && SoLetras(t[j + 1..])
  }

  /** Where `$` can match: a text matches a pattern followed by `$` when it, or it minus one final "\n", does. */
  ghost predicate AteOFimEmail(t: string) {
    FormaEmail(t) || (|t| > 0 && t[|t| - 1] == '\n' && FormaEmail(t[..|t| - 1]))
  }

  /** The first position of `c` in `t`, or -1. */
  function PrimeiroIndice(t: string, c: char): (r: int)
    ensures -1 <= r < |t|
    ensures r >= 0 ==> t[r] == c && forall k :: 0 <= k < r ==> t[k] != c
    ensures r == -1 ==> forall k :: 0 <= k < |t| ==> t[k] != c
  {
    if t == [] then -1
    else if t[0] == c then 0
    else
      var r := PrimeiroIndice(t[1..], c);
      if r == -1 then -1 else r + 1
  }

  /** The last position of `c` in `t`, or -1. */
  function UltimoIndice(t: string, c: char): (r: int)
    ensures -1 <= r < |t|
    ensures r >= 0 ==> t[r] == c && forall k :: r < k < |t| ==> t[k] != c
    ensures r == -1 ==> forall k :: 0 <= k < |t| ==> t[k] != c
  {
    if t == [] then -1
    else if t[|t| - 1] == c then |t| - 1
    else UltimoIndice(t[..|t| - 1], c)
  }

  /**
   * The matcher: the local part ends at the first "@" (no class of the
   * pattern holds "@"), and the top-level domain starts after the last "."
   * (letters hold no ".").
   */
  function CorpoEmail(t: string): bool {
    var i := PrimeiroIndice(t, '@');
    if i < 1 then false
    else
      var r := t[i + 1..];
      var j := UltimoIndice(r, '.');
      SoLocal(t[..i]) && j >= 1 && SoDominio(r[..j]) && |r| - j - 1 >= 2 && SoLetras(r[j + 1..])
  }

  /** Every text the matcher accepts has the e-mail form. */
  lemma CorpoEmailSolido(t: string)
    requires CorpoEmail(t)
    ensures FormaEmail(t)
  {
    var i := PrimeiroIndice(t, '@');
    var r := t[i + 1..];
    var j := UltimoIndice(r, '.');
    var j' := i + 1 + j;
    assert t[i + 1..j'] == r[..j];
    assert t[j' + 1..] == r[j + 1..];
  }

  /** The "@" that ends a local part is the first one. */
  lemma PrimeiraArroba(t: string, a: int)
    requires 0 < a < |t| && SoLocal(t[..a]) && t[a] == '@'
    ensures PrimeiroIndice(t, '@') == a
  {
    forall k | 0 <= k < a ensures t[k] != '@' {
      assert t[..a][k] == t[k];
    }
  }

  /** The "." before a run of letters is the last one. */
  lemma UltimoPonto(r: string, j: int)
    requires 0 <= j < |r| && r[j] == '.' && SoLetras(r[j + 1..])
    ensures UltimoIndice(r, '.') == j
  {
    forall k | j < k < |r| ensures r[k] != '.' {
      assert r[k] == r[j + 1..][k - j - 1];
    }
  }

  /** A text split as the e-mail form is accepted by the matcher: its "@" is the first one and its "." the last. */
  lemma CorpoEmailCompleto(t: string, a: int, b: int)
    requires 0 < a && a + 1 < b && b + 2 < |t|
    requires SoLocal(t[..a]) && t[a] == '@' && SoDominio(t[a + 1..b]) && t[b] == '.' && SoLetras(t[b + 1..])
    ensures CorpoEmail(t)
  {
    PrimeiraArroba(t, a);
    var r := t[a + 1..];
    var jb := b - a - 1;
    assert r[jb] == '.';
    assert r[jb + 1..] == t[b + 1..];
    UltimoPonto(r, jb);
    assert r[..jb] == t[a + 1..b];
  }

  lemma CorpoEmailCorreto(t: string)
    ensures CorpoEmail(t) <==> FormaEmail(t)
  {
    if CorpoEmail(t) {
      CorpoEmailSolido(t);
    }
    if FormaEmail(t) {
      var a, b :| 0 < a && a + 1 < b && b + 2 < |t| &&
        SoLocal(t[..a]) && t[a] == '@' && SoDominio(t[a + 1..b]) && t[b] == '.' && SoLetras(t[b + 1..]);
      CorpoEmailCompleto(t, a, b);
    }
  }

  /**
   * `validate_email`: false for a missing or empty text; otherwise whether the
   * e-mail pattern matches up to `$`.
   */
  function ValidarEmail(email: Option<string>): (ok: bool)
    ensures ok <==> email.Some? && AteOFimEmail(email.value)
  {
    if email.None? || email.value == [] then false
    else
      var t := email.value;
      CorpoEmailCorreto(t);
      if CorpoEmail(t) then true
      else if t[|t| - 1] == '\n' then
        CorpoEmailCorreto(t[..|t| - 1]);
        CorpoEmail(t[..|t| - 1])
      else false
  }

  /** `\s`: the characters `str.isspace` accepts. */
  predicate Espaco(c: char) {
    || c == ' ' || '\t' <= c <= '\r' || '\U{1C}' <= c <= '\U{1F}' || c == '\U{85}' || c == '\U{A0}'
    || c == '\U{1680}' || '\U{2000}' <= c <= '\U{200A}' || c == '\U{2028}' || c == '\U{2029}'
    || c == '\U{202F}' || c == '\U{205F}' || c == '\U{3000}'
  }

  /** The two character classes the validators delete: `[\s\(\)\-]` for phones and `[\.\-]` for CPFs. */
  datatype Classe = SeparadorTelefone | SeparadorCpf

  predicate Pertence(k: Classe, c: char) {
    match k
    case SeparadorTelefone => Espaco(c) || c == '(' || c == ')' || c == '-'
    case SeparadorCpf => c == '.' || c == '-'
  }

  /** The text with every character of class `k` deleted (a substitution by ''). */
  function Remover(s: string, k: Classe): (r: string)
    ensures |r| <= |s|
    ensures forall i :: 0 <= i < |r| ==> !Pertence(k, r[i])
  {
    if s == [] then []
    else (if Pertence(k, s[0]) then [] else [s[0]]) + Remover(s[1..], k)
  }

  /** Deleting keeps exactly the characters of the text outside the class. */
  lemma {:induction false} RemoverMembros(s: string, k: Classe)
    ensures forall c :: c in Remover(s, k) <==> c in s && !Pertence(k, c)
  {
    if s != [] {
      RemoverMembros(s[1..], k);
      assert s == [s[0]] + s[1..];
    }
  }

  /** Deleting distributes over concatenation. */
  lemma {:induction false} RemoverConcat(a: string, b: string, k: Classe)
    ensures Remover(a + b, k) == Remover(a, k) + Remover(b, k)
  {
    if a == [] {
      assert a + b == b;
    } else {
      assert (a + b)[0] == a[0];
      assert (a + b)[1..] == a[1..] + b;
      RemoverConcat(a[1..], b, k);
    }
  }

  /** A text without characters of the class is left as it is. */
  lemma {:induction false} RemoverNada(s: string, k: Classe)
    requires forall i :: 0 <= i < |s| ==> !Pertence(k, s[i])
    ensures Remover(s, k) == s
  {
    if s != [] {
      RemoverNada(s[1..], k);
    }
  }

  /** Whether `^\d{n,m}$` matches: n to m digits, then the end or one final "\n". */
  function DigitosAteOFim(t: string, n: nat, m: nat): bool {
    (SoDigitos(t) && n <= |t| <= m) ||
    (|t| > 0 && t[|t| - 1] == '\n' && SoDigitos(t[..|t| - 1]) && n <= |t| - 1 <= m)
  }

  /**
   * `validate_phone`: false for a missing or empty text; otherwise whether 10
   * or 11 digits, and nothing else, remain after deleting whitespace,
   * parentheses and hyphens. The final-newline case of `$` cannot arise, as
   * the newline is whitespace and has been deleted.
   */
  function ValidarTelefone(telefone: Option<string>): (ok: bool)
    ensures ok <==> (telefone.Some? && telefone.value != [] &&
                     var limpo := Remover(telefone.value, SeparadorTelefone);
                     SoDigitos(limpo) && (|limpo| == 10 || |limpo| == 11))
  {
    if telefone.None? || telefone.value == [] then false
    else
      var limpo := Remover(telefone.value, SeparadorTelefone);
      assert |limpo| > 0 ==> !Pertence(SeparadorTelefone, limpo[|limpo| - 1]);
      DigitosAteOFim(limpo, 10, 11)
  }

  /** The number of distinct characters of `t`, as `len(set(t))`. */
  function Distintos(t: string): nat {
    |set i | 0 <= i < |t| :: t[i]|
  }

  /** A text has exactly one distinct character exactly when it is non-empty and all its characters are equal. */
  lemma UmDistinto(t: string)
    ensures Distintos(t) == 1 <==> t != [] && forall i :: 0 <= i < |t| ==> t[i] == t[0]
  {
    var s := set i | 0 <= i < |t| :: t[i];
    if t != [] && forall i :: 0 <= i < |t| ==> t[i] == t[0] {
      assert s == {t[0]};
    }
    if t == [] {
      assert s == {};
    }
    if Distintos(t) == 1 {
      forall i | 0 <= i < |t| ensures t[i] == t[0] {
        DoisDistintos(t, i);
      }
    }
  }

  lemma DoisDistintos(t: string, i: int)
    requires 0 <= i < |t|
    ensures t[i] != t[0] ==> Distintos(t) >= 2
  {
    var s := set k | 0 <= k < |t| :: t[k];
    assert t[i] in s;
    assert t[0] in s;
    assert s == (s - {t[0]}) + {t[0]};
    if t[i] != t[0] {
      assert t[i] in s - {t[0]};
    }
  }

  /**
   * `validate_cpf` as written: false for a missing or empty text; after
   * deleting "." and "-", `^\d{11}$` must match and the text must not consist
   * of one repeated character. With a final "\n" the digits pass `$` and the
   * newline counts as a second distinct character, so eleven equal digits
   * followed by "\n" are accepted.
   */
  function ValidarCpf(cpf: Option<string>): (ok: bool)
    ensures ok <==> (cpf.Some? && cpf.value != [] &&
                     var limpo := Remover(cpf.value, SeparadorCpf);
                     || (|limpo| == 11 && SoDigitos(limpo) && exists i :: 0 <= i < 11 && limpo[i] != limpo[0])
                     || (|limpo| == 12 && SoDigitos(limpo[..11]) && limpo[11] == '\n'))
  {
    if cpf.None? || cpf.value == [] then false
    else
      var limpo := Remover(cpf.value, SeparadorCpf);
      UmDistinto(limpo);
      if !DigitosAteOFim(limpo, 11, 11) then false
      else if Distintos(limpo) == 1 then false
      else true
  }

  /**
   * The CPF check with `$` read as the end of the text: exactly eleven digits
   * remain after deleting "." and "-", and they are not all equal.
   */
  function ValidarCpfCorrigido(cpf: Option<string>): (ok: bool)
    ensures ok ==> cpf.Some? && |Remover(cpf.value, SeparadorCpf)| == 11 && SoDigitos(Remover(cpf.value, SeparadorCpf))
    ensures ok <==> (cpf.Some? && cpf.value != [] &&
                     var limpo := Remover(cpf.value, SeparadorCpf);
                     |limpo| == 11 && SoDigitos(limpo) && exists i :: 0 <= i < 11 && limpo[i] != limpo[0])
  {
    if cpf.None? || cpf.value == [] then false
    else
      var limpo := Remover(cpf.value, SeparadorCpf);
      UmDistinto(limpo);
      SoDigitos(limpo) && |limpo| == 11 && Distintos(limpo) != 1
  }

  /** The corrected check rejects every CPF whose digits are all equal. */
  lemma CorrigidoRejeitaRepetidos(cpf: string)
    requires forall i :: 0 <= i < |Remover(cpf, SeparadorCpf)| ==>
      Remover(cpf, SeparadorCpf)[i] == Remover(cpf, SeparadorCpf)[0]
    ensures !ValidarCpfCorrigido(Some(cpf))
  {
  }

  /**
   * Eleven equal digits followed by a newline ("11111111111\n", say) pass the
   * check as written and fail the corrected one.
   */
  lemma CpfRepetidoComQuebraDeLinha(d: string)
    requires |d| == 11 && SoDigitos(d)
    requires forall i :: 0 <= i < |d| ==> d[i] == d[0]
    ensures ValidarCpf(Some(d + "\n"))
    ensures !ValidarCpfCorrigido(Some(d + "\n"))
  {
    var t := d + "\n";
    assert t[..11] == d;
    RemoverNada(t, SeparadorCpf);
  }

  /** A text the pattern matches in full does not end in a character other than a letter. */
  lemma FormaEmailTerminaEmLetra(u: string)
    requires |u| > 0 && !Letra(u[|u| - 1])
    ensures !FormaEmail(u)
  {
    CorpoEmailCorreto(u);
    var i := PrimeiroIndice(u, '@');
    if i >= 1 {
      var r := u[i + 1..];
      var j := UltimoIndice(r, '.');
      if j >= 1 && |r| - j - 1 >= 2 {
        assert r[j + 1..][|r| - j - 2] == u[|u| - 1];
      }
    }
  }

  /**
   * An address followed by one newline is accepted, as `$` matches before
   * it; followed by two it is not.
   */
  lemma EmailComQuebraDeLinha(t: string)
    requires FormaEmail(t)
    ensures ValidarEmail(Some(t))
    ensures ValidarEmail(Some(t + "\n"))
    ensures !ValidarEmail(Some(t + "\n\n"))
  {
    var u := t + "\n";
    assert u[..|u| - 1] == t && u[|u| - 1] == '\n';
    assert AteOFimEmail(u);
    EmailComDuasQuebras(t);
  }

  /** Whatever precedes them, two final newlines are never accepted. */
  lemma EmailComDuasQuebras(t: string)
    ensures !ValidarEmail(Some(t + "\n\n"))
  {
    var v := t + "\n\n";
    var u := v[..|v| - 1];
    assert u[|u| - 1] == '\n';
    FormaEmailTerminaEmLetra(u);
    FormaEmailTerminaEmLetra(v);
  }

  /** Without "@" no text is an e-mail address. */
  lemma EmailSemArroba(t: string)
    requires forall i :: 0 <= i < |t| ==> t[i] != '@'
    ensures !ValidarEmail(Some(t))
  {
    CorpoEmailCorreto(t);
    if |t| > 0 {
      var u := t[..|t| - 1];
      assert forall i :: 0 <= i < |u| ==> u[i] == t[i];
      CorpoEmailCorreto(u);
    }
  }

  /** Fewer than ten characters never make a phone number. */
  lemma TelefoneCurto(t: string)
    requires |t| < 10
    ensures !ValidarTelefone(Some(t))
  {
  }

  /** Deleting from a text that starts with a separator deletes that separator. */
  lemma RemoverSeparador(c: char, x: string, k: Classe)
    requires Pertence(k, c)
    ensures Remover([c] + x, k) == Remover(x, k)
  {
    assert ([c] + x)[0] == c;
    assert ([c] + x)[1..] == x;
  }

  /** Deleting from digits followed by more text keeps the digits. */
  lemma RemoverDigitos(d: string, x: string, k: Classe)
    requires SoDigitos(d)
    ensures Remover(d + x, k) == d + Remover(x, k)
  {
    RemoverConcat(d, x, k);
    forall i | 0 <= i < |d| ensures !Pertence(k, d[i]) {
      DigitoNaoSepara(d[i], k);
    }
    RemoverNada(d, k);
  }

  /** No digit belongs to a separator class. */
  lemma DigitoNaoSepara(c: char, k: Classe)
    requires Digito(c)
    ensures !Pertence(k, c)
  {
  }

  /** The formatted shapes "(DD) NNNNN-NNNN" and "(DD) NNNN-NNNN" are valid phone numbers. */
  lemma TelefoneFormatado(ddd: string, a: string, b: string)
    requires |ddd| == 2 && SoDigitos(ddd)
    requires (|a| == 4 || |a| == 5) && SoDigitos(a)
    requires |b| == 4 && SoDigitos(b)
    ensures ValidarTelefone(Some("(" + ddd + ") " + a + "-" + b))
  {
    RemoverFormatado(ddd, a, b);
    var d := ddd + (a + b);
    forall i | 0 <= i < |d| ensures Digito(d[i]) {
      if i < |ddd| {
        assert d[i] == ddd[i];
      } else if i < |ddd| + |a| {
        assert d[i] == a[i - |ddd|];
      } else {
        assert d[i] == b[i - |ddd| - |a|];
      }
    }
  }

  /** Deleting the separators of a formatted number leaves its digits in order. */
  lemma RemoverFormatado(ddd: string, a: string, b: string)
    requires SoDigitos(ddd) && SoDigitos(a) && SoDigitos(b)
    ensures Remover("(" + ddd + ") " + a + "-" + b, SeparadorTelefone) == ddd + (a + b)
  {
    var k := SeparadorTelefone;
    var t2 := [' '] + (a + (['-'] + b));
    var t1 := [')'] + t2;
    var t0 := ddd + t1;
    assert "(" + ddd + ") " + a + "-" + b == ['('] + t0;
    RemoverCauda(a, b);
    RemoverSeparador(')', t2, k);
    RemoverDigitos(ddd, t1, k);
    RemoverSeparador('(', t0, k);
  }

  /** The part " NNNNN-NNNN" of a formatted number loses its space and its hyphen. */
  lemma RemoverCauda(a: string, b: string)
    requires SoDigitos(a) && SoDigitos(b)
    ensures Remover([' '] + (a + (['-'] + b)), SeparadorTelefone) == a + b
  {
    var k := SeparadorTelefone;
    var t4 := ['-'] + b;
    var t3 := a + t4;
    RemoverDigitos(b, [], k);
    assert b + [] == b;
    RemoverSeparador('-', b, k);
    RemoverDigitos(a, t4, k);
    RemoverSeparador(' ', t3, k);
  }

  /** Unformatted digits of length 10 or 11 are valid phone numbers. */
  lemma TelefoneSoDigitos(t: string)
    requires (|t| == 10 || |t| == 11) && SoDigitos(t)
    ensures ValidarTelefone(Some(t))
  {
    RemoverNada(t, SeparadorTelefone);
  }

  /** Without a newline, a CPF whose remaining characters are all equal is rejected ("111.111.111-11"). */
  lemma CpfRepetidoRejeitado(cpf: string)
    requires forall i :: 0 <= i < |cpf| ==> cpf[i] != '\n'
    requires forall i :: 0 <= i < |Remover(cpf, SeparadorCpf)| ==>
      Remover(cpf, SeparadorCpf)[i] == Remover(cpf, SeparadorCpf)[0]
    ensures !ValidarCpf(Some(cpf))
  {
    var limpo := Remover(cpf, SeparadorCpf);
    RemoverMembros(cpf, SeparadorCpf);
    if |limpo| == 12 {
      assert limpo[11] in limpo;
    }
  }

  /** Eleven digits, not all equal, form a valid CPF whether or not "." and "-" separate them. */
  lemma CpfDigitosDistintos(d: string)
    requires |d| == 11 && SoDigitos(d)
    requires exists i :: 0 <= i < 11 && d[i] != d[0]
    ensures ValidarCpf(Some(d))
  {
    RemoverNada(d, SeparadorCpf);
  }
}
