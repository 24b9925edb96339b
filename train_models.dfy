/**
 * The text normalisation applied to service descriptions before they are
 * vectorised, and the merge of the real and the synthetic training data.
 * Whitespace is the `\s` class of the validators (`Validators.Espaco`); among the other
 * characters above 127, each is taken as a word character that lower-casing
 * leaves alone.
 */
module TrainModels {
  import opened Wrappers
  import Validators

  // ---------------------------------------------------------- limpar_texto

  /** What `limpar_texto` receives: a string, or any other value together with its `str()` rendering. */
  datatype Entrada = Texto(s: string) | Outro(str: string)

  /** The characters `\w` matches: letters, digits and the underscore. */
  predicate EhPalavra(c: char) {
    'a' <= c <= 'z' || 'A' <= c <= 'Z' || '0' <= c <= '9' || c == '_' || (c as int >= 128 && !Validators.Espaco(c))
  }

  /** Word characters are not whitespace. */
  lemma PalavraNaoEEspaco(c: char)
    ensures EhPalavra(c) ==> !Validators.Espaco(c)
  {
  }

  /** `lower()` on one character: 'A'..'Z' become 'a'..'z'; every other character is kept. */
  function Minusculo(c: char): (d: char)
    ensures 'A' <= c <= 'Z' ==> 'a' <= d <= 'z' && d as int == c as int + 32
    ensures !('A' <= c <= 'Z') ==> d == c
    ensures !('A' <= d <= 'Z')
    ensures EhPalavra(c) <==> EhPalavra(d)
    ensures Validators.Espaco(c) <==> Validators.Espaco(d)
  {
    if 'A' <= c <= 'Z' then (c as int + 32) as char else c
  }

  /** `texto.lower()`. */
  function Minusculas(s: string): (r: string)
    ensures |r| == |s| && forall i :: 0 <= i < |s| ==> r[i] == Minusculo(s[i])
  {
    seq(|s|, i requires 0 <= i < |s| => Minusculo(s[i]))
  }

  /** `re.sub(r'[^\w\s]', ' ', texto)`: every character that is neither a word character nor whitespace becomes a space. */
  function TrocarSimbolos(s: string): (r: string)
    ensures |r| == |s|
    ensures forall i :: 0 <= i < |s| ==> r[i] == (if EhPalavra(s[i]) || Validators.Espaco(s[i]) then s[i] else ' ')
  {
    seq(|s|, i requires 0 <= i < |s| => if EhPalavra(s[i]) || Validators.Espaco(s[i]) then s[i] else ' ')
  }

  /** The text after its leading whitespace. */
  function SemEspacosIniciais(s: string): (r: string)
    ensures |r| <= |s| && r == s[|s| - |r|..]
    ensures r == [] || !Validators.Espaco(r[0])
    ensures forall i :: 0 <= i < |s| - |r| ==> Validators.Espaco(s[i])
  {
    if s != [] && Validators.Espaco(s[0]) then SemEspacosIniciais(s[1..]) else s
  }

  /** The text without its trailing whitespace. */
  function SemEspacosFinais(s: string): (r: string)
    ensures |r| <= |s| && r == s[..|r|]
    ensures r == [] || !Validators.Espaco(r[|r| - 1])
    ensures forall i :: |r| <= i < |s| ==> Validators.Espaco(s[i])
  {
    if s != [] && Validators.Espaco(s[|s| - 1]) then SemEspacosFinais(s[..|s| - 1]) else s
  }

  /** `re.sub(r'\s+', ' ', texto)`: each run of whitespace becomes one space. */
  function Colapsar(s: string): (r: string)
    ensures |r| <= |s|
    ensures s == [] || !Validators.Espaco(s[0]) ==> r == [] || !Validators.Espaco(r[0])
    decreases |s|
  {
    if s == [] then []
    else if Validators.Espaco(s[0]) then [' '] + Colapsar(SemEspacosIniciais(s[1..]))
    else [s[0]] + Colapsar(s[1..])
  }

  /** `texto.strip()`. */
  function Aparar(s: string): (r: string)
    ensures |r| <= |s|
  {
    SemEspacosFinais(SemEspacosIniciais(s))
  }

  /** `limpar_texto`: never longer than the text it cleans (symbols become spaces, runs of spaces collapse). */
  function LimparTexto(e: Entrada): (r: string)
    ensures |r| <= |match e case Texto(s) => s case Outro(str) => str|
  {
    var s := match e case Texto(s) => s case Outro(str) => str;
    Aparar(Colapsar(TrocarSimbolos(Minusculas(s))))
  }

  /** No upper-case letter; only word characters and plain spaces. */
  predicate SoPalavrasEEspacos(s: string) {
    forall i :: 0 <= i < |s| ==> !('A' <= s[i] <= 'Z') && (EhPalavra(s[i]) || s[i] == ' ')
  }

  /** No two whitespace characters in a row. */
  predicate SemEspacosDuplos(s: string) {
    forall i :: 0 <= i < |s| - 1 ==> !(Validators.Espaco(s[i]) && Validators.Espaco(s[i + 1]))
  }

  /** What a cleaned text looks like. */
  predicate Limpo(s: string) {
    && SoPalavrasEEspacos(s)
    && SemEspacosDuplos(s)
    && (s == [] || (!Validators.Espaco(s[0]) && !Validators.Espaco(s[|s| - 1])))
  }

  /** The characters the symbol replacement leaves: no upper-case letter, only word characters and whitespace. */
  ghost predicate SoPalavrasEEspacosQuaisquer(s: string) {
    forall i :: 0 <= i < |s| ==> !('A' <= s[i] <= 'Z') && (EhPalavra(s[i]) || Validators.Espaco(s[i]))
  }

  /** Putting one more character in front keeps the shape when a space is not followed by whitespace. */
  lemma PrefixarConserva(c: char, r: string)
    requires SoPalavrasEEspacos(r) && SemEspacosDuplos(r)
    requires c == ' ' || (EhPalavra(c) && !('A' <= c <= 'Z'))
    requires Validators.Espaco(c) ==> r == [] || !Validators.Espaco(r[0])
    ensures SoPalavrasEEspacos([c] + r) && SemEspacosDuplos([c] + r)
  {
    var x := [c] + r;
    forall i | 0 <= i < |x| - 1 ensures !(Validators.Espaco(x[i]) && Validators.Espaco(x[i + 1])) {
      if i > 0 {
        assert x[i] == r[i - 1] && x[i + 1] == r[i];
      }
    }
  }

  lemma {:induction false} ColapsarForma(s: string)
    requires SoPalavrasEEspacosQuaisquer(s)
    ensures SoPalavrasEEspacos(Colapsar(s)) && SemEspacosDuplos(Colapsar(s))
    decreases |s|, 1
  {
    if s != [] {
      if Validators.Espaco(s[0]) {
        ColapsarFormaEspaco(s);
      } else {
        ColapsarFormaPalavra(s);
      }
    }
  }

  /** A run of whitespace becomes one space before the rest. */
  lemma {:induction false} ColapsarFormaEspaco(s: string)
    requires s != [] && Validators.Espaco(s[0]) && SoPalavrasEEspacosQuaisquer(s)
    ensures SoPalavrasEEspacos(Colapsar(s)) && SemEspacosDuplos(Colapsar(s))
    decreases |s|, 0
  {
    var t := SemEspacosIniciais(s[1..]);
    assert SoPalavrasEEspacosQuaisquer(t) by {
      forall i | 0 <= i < |t| ensures !('A' <= t[i] <= 'Z') && (EhPalavra(t[i]) || Validators.Espaco(t[i])) {
        assert t[i] == s[|s| - |t| + i];
      }
    }
    ColapsarForma(t);
    assert Colapsar(s) == [' '] + Colapsar(t);
    PrefixarConserva(' ', Colapsar(t));
  }

  /** A word character is kept before the rest. */
  lemma {:induction false} ColapsarFormaPalavra(s: string)
    requires s != [] && !Validators.Espaco(s[0]) && SoPalavrasEEspacosQuaisquer(s)
    ensures SoPalavrasEEspacos(Colapsar(s)) && SemEspacosDuplos(Colapsar(s))
    decreases |s|, 0
  {
    var t := s[1..];
    assert SoPalavrasEEspacosQuaisquer(t) by {
      forall i | 0 <= i < |t| ensures !('A' <= t[i] <= 'Z') && (EhPalavra(t[i]) || Validators.Espaco(t[i])) {
        assert t[i] == s[i + 1];
      }
    }
    ColapsarForma(t);
    assert Colapsar(s) == [s[0]] + Colapsar(t);
    PrefixarConserva(s[0], Colapsar(t));
  }

  /** A piece of a text keeps the piece's share of its shape. */
  lemma TrechoConserva(s: string, a: nat, b: nat)
    requires a <= b <= |s| && SoPalavrasEEspacos(s) && SemEspacosDuplos(s)
    ensures SoPalavrasEEspacos(s[a..b]) && SemEspacosDuplos(s[a..b])
  {
    forall i | 0 <= i < b - a - 1 ensures !(Validators.Espaco(s[a..b][i]) && Validators.Espaco(s[a..b][i + 1])) {
      assert s[a..b][i] == s[a + i] && s[a..b][i + 1] == s[a + i + 1];
    }
  }

  /** After lower-casing and replacing symbols: no upper-case letter, only word characters and whitespace. */
  lemma SimbolosTrocados(s: string)
    ensures SoPalavrasEEspacosQuaisquer(TrocarSimbolos(Minusculas(s)))
  {
  }

  /** What `strip()` keeps is a piece of the text. */
  lemma ApararEhTrecho(c: string) returns (a: nat, b: nat)
    ensures a <= b <= |c| && Aparar(c) == c[a..b]
  {
    var u := SemEspacosIniciais(c);
    var r := SemEspacosFinais(u);
    a, b := |c| - |u|, |c| - |u| + |r|;
    assert u == c[a..] && r == u[..|r|];
    assert c[a..][..|r|] == c[a..b];
  }

  /** What `strip()` keeps neither starts nor ends with whitespace. */
  lemma ApararSemEspacosNasPontas(c: string)
    ensures Aparar(c) == [] || (!Validators.Espaco(Aparar(c)[0]) && !Validators.Espaco(Aparar(c)[|Aparar(c)| - 1]))
  {
    var u := SemEspacosIniciais(c);
    var r := SemEspacosFinais(u);
    if r != [] {
      assert r[0] == u[0];
    }
  }

  /** Stripping a text of word characters and single spaces leaves a clean text. */
  lemma ApararLimpa(c: string)
    requires SoPalavrasEEspacos(c) && SemEspacosDuplos(c)
    ensures Limpo(Aparar(c))
  {
    var a, b := ApararEhTrecho(c);
    TrechoConserva(c, a, b);
    ApararSemEspacosNasPontas(c);
  }

  /** The cleaned text has no upper-case letter, only word characters and single spaces, and no space at either end. */
  lemma LimparTextoLimpo(e: Entrada)
    ensures Limpo(LimparTexto(e))
  {
    var s := match e case Texto(s) => s case Outro(str) => str;
    SimbolosTrocados(s);
    ColapsarForma(TrocarSimbolos(Minusculas(s)));
    ApararLimpa(Colapsar(TrocarSimbolos(Minusculas(s))));
  }

  lemma {:induction false} ColapsarIdentidade(s: string)
    requires SemEspacosDuplos(s) && forall i :: 0 <= i < |s| ==> Validators.Espaco(s[i]) ==> s[i] == ' '
    ensures Colapsar(s) == s
    decreases |s|
  {
    if s != [] {
      var t := s[1..];
      assert SemEspacosDuplos(t) by {
        forall i | 0 <= i < |t| - 1 ensures !(Validators.Espaco(t[i]) && Validators.Espaco(t[i + 1])) {
          assert t[i] == s[i + 1] && t[i + 1] == s[i + 2];
        }
      }
      if Validators.Espaco(s[0]) {
        assert t == [] || !Validators.Espaco(t[0]);
        assert SemEspacosIniciais(t) == t;
      }
      ColapsarIdentidade(t);
    }
  }

  /** Cleaning a cleaned text changes nothing. */
  lemma LimpoFixo(s: string)
    requires Limpo(s)
    ensures LimparTexto(Texto(s)) == s
  {
    assert Minusculas(s) == s;
    assert TrocarSimbolos(s) == s;
    forall i | 0 <= i < |s| ensures Validators.Espaco(s[i]) ==> s[i] == ' ' {
      PalavraNaoEEspaco(s[i]);
    }
    ColapsarIdentidade(s);
    assert SemEspacosIniciais(s) == s;
    assert SemEspacosFinais(s) == s;
  }

  /** `limpar_texto` is idempotent. */
  lemma LimparTextoIdempotente(e: Entrada)
    ensures LimparTexto(Texto(LimparTexto(e))) == LimparTexto(e)
  {
    LimparTextoLimpo(e);
    LimpoFixo(LimparTexto(e));
  }

  /** The characters of a text that are not whitespace, in order. */
  function Visiveis(s: string): (r: string)
    ensures |r| <= |s|
    ensures forall i :: 0 <= i < |r| ==> !Validators.Espaco(r[i])
  {
    if s == [] then []
    else (if Validators.Espaco(s[0]) then [] else [s[0]]) + Visiveis(s[1..])
  }

  lemma {:induction false} VisiveisConcat(a: string, b: string)
    ensures Visiveis(a + b) == Visiveis(a) + Visiveis(b)
    decreases |a|
  {
    if a == [] {
      assert a + b == b;
    } else {
      var h := if Validators.Espaco(a[0]) then [] else [a[0]];
      assert (a + b)[0] == a[0] && (a + b)[1..] == a[1..] + b;
      assert Visiveis(a + b) == h + Visiveis(a[1..] + b);
      VisiveisConcat(a[1..], b);
      assert Visiveis(a) == h + Visiveis(a[1..]);
    }
  }

  /** Every character is whitespace. */
  predicate SoEspacos(s: string) {
    forall i :: 0 <= i < |s| ==> Validators.Espaco(s[i])
  }

  /** A text of whitespace only has nothing visible. */
  lemma {:induction false} VisiveisDeEspacos(s: string)
    requires SoEspacos(s)
    ensures Visiveis(s) == []
    decreases |s|
  {
    if s != [] {
      assert SoEspacos(s[1..]) by {
        forall i | 0 <= i < |s[1..]| ensures Validators.Espaco(s[1..][i]) {
          assert s[1..][i] == s[i + 1];
        }
      }
      VisiveisDeEspacos(s[1..]);
    }
  }

  /** Dropping the leading whitespace keeps what is visible. */
  lemma IniciaisInvisiveis(s: string)
    ensures Visiveis(SemEspacosIniciais(s)) == Visiveis(s)
  {
    var u := SemEspacosIniciais(s);
    var w := s[..|s| - |u|];
    assert s == w + u;
    assert SoEspacos(w);
    VisiveisConcat(w, u);
    VisiveisDeEspacos(w);
  }

  /** Dropping the trailing whitespace keeps what is visible. */
  lemma FinaisInvisiveis(s: string)
    ensures Visiveis(SemEspacosFinais(s)) == Visiveis(s)
  {
    var v := SemEspacosFinais(s);
    var w := s[|v|..];
    assert s == v + w;
    assert SoEspacos(w);
    VisiveisConcat(v, w);
    VisiveisDeEspacos(w);
  }

  /** Collapsing whitespace runs keeps every other character, in order. */
  lemma {:induction false} ColapsarConservaVisiveis(s: string)
    ensures Visiveis(Colapsar(s)) == Visiveis(s)
    decreases |s|
  {
    if s != [] {
      if Validators.Espaco(s[0]) {
        var t := SemEspacosIniciais(s[1..]);
        ColapsarConservaVisiveis(t);
        IniciaisInvisiveis(s[1..]);
        VisiveisConcat([' '], Colapsar(t));
      } else {
        ColapsarConservaVisiveis(s[1..]);
        VisiveisConcat([s[0]], Colapsar(s[1..]));
      }
    }
  }

  /**
   * Cleaning keeps the content: the visible characters of the cleaned text
   * are those of the lower-cased text with its symbols turned into spaces.
   */
  lemma LimparTextoConservaVisiveis(e: Entrada)
    ensures var s := match e case Texto(s) => s case Outro(str) => str;
      Visiveis(LimparTexto(e)) == Visiveis(TrocarSimbolos(Minusculas(s)))
  {
    var s := match e case Texto(s) => s case Outro(str) => str;
    var c := Colapsar(TrocarSimbolos(Minusculas(s)));
    ColapsarConservaVisiveis(TrocarSimbolos(Minusculas(s)));
    IniciaisInvisiveis(c);
    FinaisInvisiveis(SemEspacosIniciais(c));
  }

  // -------------------------------------------------------- combinar_dados

  /** The training data: four parallel lists. */
  datatype Dados = Dados(serviceNames: seq<string>, categories: seq<string>, prices: seq<real>, descriptions: seq<string>)

  /** One entry per sample in every list. */
  predicate Alinhado(d: Dados) {
    |d.serviceNames| == |d.categories| == |d.prices| == |d.descriptions|
  }

  /** `combinar_dados`: without real data the synthetic data; otherwise each real list followed by its synthetic list. */
  function CombinarDados(reais: Option<Dados>, sinteticos: Dados): (r: Dados)
    ensures reais.None? ==> r == sinteticos
    ensures reais.Some? ==>
      && |r.serviceNames| == |reais.value.serviceNames| + |sinteticos.serviceNames|
      && |r.categories| == |reais.value.categories| + |sinteticos.categories|
      && |r.prices| == |reais.value.prices| + |sinteticos.prices|
      && |r.descriptions| == |reais.value.descriptions| + |sinteticos.descriptions|
      && r.serviceNames[..|reais.value.serviceNames|] == reais.value.serviceNames
      && r.serviceNames[|reais.value.serviceNames|..] == sinteticos.serviceNames
      && r.categories[..|reais.value.categories|] == reais.value.categories
      && r.categories[|reais.value.categories|..] == sinteticos.categories
      && r.prices[..|reais.value.prices|] == reais.value.prices
      && r.prices[|reais.value.prices|..] == sinteticos.prices
      && r.descriptions[..|reais.value.descriptions|] == reais.value.descriptions
      && r.descriptions[|reais.value.descriptions|..] == sinteticos.descriptions
  {
    match reais
    case None => sinteticos
    case Some(d) =>
      Dados(d.serviceNames + sinteticos.serviceNames, d.categories + sinteticos.categories,
            d.prices + sinteticos.prices, d.descriptions + sinteticos.descriptions)
  }

  /** Merging aligned data gives aligned data: sample `i` keeps its name, category, price and description together. */
  lemma CombinarPreservaAlinhamento(reais: Option<Dados>, sinteticos: Dados, i: nat)
    requires (reais.Some? ==> Alinhado(reais.value)) && Alinhado(sinteticos)
    ensures Alinhado(CombinarDados(reais, sinteticos))
    ensures reais.Some? && i < |reais.value.prices| ==>
      var r := CombinarDados(reais, sinteticos);
      r.serviceNames[i] == reais.value.serviceNames[i] && r.categories[i] == reais.value.categories[i]
      && r.prices[i] == reais.value.prices[i] && r.descriptions[i] == reais.value.descriptions[i]
    ensures reais.Some? && |reais.value.prices| <= i < |reais.value.prices| + |sinteticos.prices| ==>
      var r := CombinarDados(reais, sinteticos);
      var j := i - |reais.value.prices|;
      r.serviceNames[i] == sinteticos.serviceNames[j] && r.categories[i] == sinteticos.categories[j]
      && r.prices[i] == sinteticos.prices[j] && r.descriptions[i] == sinteticos.descriptions[j]
  {
  }
}
