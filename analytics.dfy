/**
 * The dashboard aggregations over the spreadsheet store: an overview
 * (totals, mean, status counts, top services, monthly trends), per-service
 * price analytics and per-client spending analytics. Money is `real`; the
 * month of an instant is given by a parameter whose values order as the
 * "%Y-%m" texts do.
 */
module Analytics {
  import opened Wrappers
  import opened ExcelService

  // ------------------------------------------------------------ grouping

  /** One entry of a dictionary built by a counting loop: its key, how many rows, and the sum of their values. */
  datatype Grupo<K> = Grupo(chave: K, contagem: nat, soma: real)

  /** How many times `k` occurs. */
  function Ocorrencias<K(==)>(ks: seq<K>, k: K): nat {
    if ks == [] then 0 else Ocorrencias(ks[..|ks| - 1], k) + (if ks[|ks| - 1] == k then 1 else 0)
  }

  /** The sum of the values whose key is `k`. */
  function SomaOnde<K(==)>(ks: seq<K>, vs: seq<real>, k: K): real
    requires |ks| == |vs|
  {
    if ks == [] then 0.0
    else SomaOnde(ks[..|ks| - 1], vs[..|vs| - 1], k) + (if ks[|ks| - 1] == k then vs[|vs| - 1] else 0.0)
  }

  /** Where key `k` sits in the dictionary, if it is there. */
  function IndiceDaChave<K(==)>(g: seq<Grupo<K>>, k: K): (r: Option<nat>)
    ensures r.None? <==> forall i :: 0 <= i < |g| ==> g[i].chave != k
    ensures r.Some? ==> r.value < |g| && g[r.value].chave == k
  {
    if g == [] then None
    else if g[|g| - 1].chave == k then Some(|g| - 1)
    else IndiceDaChave(g[..|g| - 1], k)
  }

  /** One step of the loop: `d[k] = d.get(k, 0) + 1` (and the value added to the key's sum). */
  function Acrescentar<K(==)>(g: seq<Grupo<K>>, k: K, v: real): seq<Grupo<K>> {
    match IndiceDaChave(g, k)
    case Some(i) => g[i := Grupo(k, g[i].contagem + 1, g[i].soma + v)]
    case None => g + [Grupo(k, 1, v)]
  }

  /** The dictionary after the whole loop, keys in order of first appearance. */
  function Agrupamento<K(==)>(ks: seq<K>, vs: seq<real>): seq<Grupo<K>>
    requires |ks| == |vs|
  {
    if ks == [] then []
    else Acrescentar(Agrupamento(ks[..|ks| - 1], vs[..|vs| - 1]), ks[|ks| - 1], vs[|vs| - 1])
  }

  function SomaContagens<K>(g: seq<Grupo<K>>): nat {
    if g == [] then 0 else SomaContagens(g[..|g| - 1]) + g[|g| - 1].contagem
  }

  /** Each key once; exactly the keys that occur; each with its number of rows and the sum of their values. */
  ghost predicate Reflete<K>(g: seq<Grupo<K>>, ks: seq<K>, vs: seq<real>)
    requires |ks| == |vs|
  {
    && (forall i, j :: 0 <= i < j < |g| ==> g[i].chave != g[j].chave)
    && (forall i :: 0 <= i < |g| ==> g[i].chave in ks)
    && (forall k :: k in ks ==> exists i :: 0 <= i < |g| && g[i].chave == k)
    && (forall i :: 0 <= i < |g| ==> g[i].contagem == Ocorrencias(ks, g[i].chave))
    && (forall i :: 0 <= i < |g| ==> g[i].soma == SomaOnde(ks, vs, g[i].chave))
  }

  lemma {:induction false} SomaContagensAtualizada<K>(g: seq<Grupo<K>>, i: nat, x: Grupo<K>)
    requires i < |g|
    ensures SomaContagens(g[i := x]) == SomaContagens(g) - g[i].contagem + x.contagem
  {
    if i < |g| - 1 {
      assert g[i := x][..|g| - 1] == g[..|g| - 1][i := x];
      SomaContagensAtualizada(g[..|g| - 1], i, x);
    } else {
      assert g[i := x][..|g| - 1] == g[..|g| - 1];
    }
  }

  lemma SomaContagensAnexada<K>(g: seq<Grupo<K>>, x: Grupo<K>)
    ensures SomaContagens(g + [x]) == SomaContagens(g) + x.contagem
  {
    assert (g + [x])[..|g|] == g;
  }

  /** Appending one row adds it to its own key's count and sum only. */
  lemma Anexar<K>(ks: seq<K>, vs: seq<real>, k: K, v: real, c: K)
    requires |ks| == |vs|
    ensures Ocorrencias(ks + [k], c) == Ocorrencias(ks, c) + (if c == k then 1 else 0)
    ensures SomaOnde(ks + [k], vs + [v], c) == SomaOnde(ks, vs, c) + (if c == k then v else 0.0)
  {
    assert (ks + [k])[..|ks|] == ks && (vs + [v])[..|vs|] == vs;
  }

  lemma AcrescentarExistente<K>(g: seq<Grupo<K>>, ks: seq<K>, vs: seq<real>, k: K, v: real, i: nat)
    requires |ks| == |vs| && Reflete(g, ks, vs)
    requires i < |g| && g[i].chave == k
    ensures Reflete(g[i := Grupo(k, g[i].contagem + 1, g[i].soma + v)], ks + [k], vs + [v])
  {
    var r := g[i := Grupo(k, g[i].contagem + 1, g[i].soma + v)];
    forall j | 0 <= j < |r|
      ensures r[j].contagem == Ocorrencias(ks + [k], r[j].chave)
      ensures r[j].soma == SomaOnde(ks + [k], vs + [v], r[j].chave)
    {
      Anexar(ks, vs, k, v, r[j].chave);
    }
    forall x | x in ks + [k] ensures exists j :: 0 <= j < |r| && r[j].chave == x {
      if x == k {
        assert r[i].chave == x;
      } else {
        assert x in ks;
        var j :| 0 <= j < |g| && g[j].chave == x;
        assert r[j].chave == x;
      }
    }
  }

  lemma AcrescentarNovo<K>(g: seq<Grupo<K>>, ks: seq<K>, vs: seq<real>, k: K, v: real)
    requires |ks| == |vs| && Reflete(g, ks, vs)
    requires forall i :: 0 <= i < |g| ==> g[i].chave != k
    ensures Reflete(g + [Grupo(k, 1, v)], ks + [k], vs + [v])
  {
    var r := g + [Grupo(k, 1, v)];
    assert k !in ks;
    AusenteNaoOcorre(ks, vs, k);
    forall j | 0 <= j < |r|
      ensures r[j].contagem == Ocorrencias(ks + [k], r[j].chave)
      ensures r[j].soma == SomaOnde(ks + [k], vs + [v], r[j].chave)
    {
      Anexar(ks, vs, k, v, r[j].chave);
    }
    forall x | x in ks + [k] ensures exists j :: 0 <= j < |r| && r[j].chave == x {
      if x == k {
        assert r[|g|].chave == x;
      } else {
        assert x in ks;
        var j :| 0 <= j < |g| && g[j].chave == x;
        assert r[j].chave == x;
      }
    }
  }

  lemma AcrescentarPreserva<K>(g: seq<Grupo<K>>, ks: seq<K>, vs: seq<real>, k: K, v: real)
    requires |ks| == |vs| && Reflete(g, ks, vs)
    ensures Reflete(Acrescentar(g, k, v), ks + [k], vs + [v])
    ensures SomaContagens(Acrescentar(g, k, v)) == SomaContagens(g) + 1
  {
    var p := IndiceDaChave(g, k);
    if p.Some? {
      var x := Grupo(k, g[p.value].contagem + 1, g[p.value].soma + v);
      assert Acrescentar(g, k, v) == g[p.value := x];
      AcrescentarExistente(g, ks, vs, k, v, p.value);
      SomaContagensAtualizada(g, p.value, x);
    } else {
      assert Acrescentar(g, k, v) == g + [Grupo(k, 1, v)];
      AcrescentarNovo(g, ks, vs, k, v);
      SomaContagensAnexada(g, Grupo(k, 1, v));
    }
  }

  lemma {:induction false} AusenteNaoOcorre<K>(ks: seq<K>, vs: seq<real>, k: K)
    requires |ks| == |vs| && k !in ks
    ensures Ocorrencias(ks, k) == 0 && SomaOnde(ks, vs, k) == 0.0
  {
    if ks != [] {
      AusenteNaoOcorre(ks[..|ks| - 1], vs[..|vs| - 1], k);
    }
  }

  /** The loop's dictionary reflects its rows, and its counts add up to the number of rows. */
  lemma {:induction false} AgrupamentoCorreto<K>(ks: seq<K>, vs: seq<real>)
    requires |ks| == |vs|
    ensures Reflete(Agrupamento(ks, vs), ks, vs)
    ensures SomaContagens(Agrupamento(ks, vs)) == |ks|
  {
    if ks != [] {
      var ini, vini := ks[..|ks| - 1], vs[..|vs| - 1];
      var k, v := ks[|ks| - 1], vs[|vs| - 1];
      assert ini + [k] == ks && vini + [v] == vs;
      assert Agrupamento(ks, vs) == Acrescentar(Agrupamento(ini, vini), k, v);
      AgrupamentoCorreto(ini, vini);
      AcrescentarPreserva(Agrupamento(ini, vini), ini, vini, k, v);
    }
  }

  /** The counting loop: a dictionary from key to count and value sum, filled in row order. */
  method Agrupar<K(==)>(ks: seq<K>, vs: seq<real>) returns (g: seq<Grupo<K>>)
    requires |ks| == |vs|
    ensures g == Agrupamento(ks, vs)
  {
    g := [];
    var i := 0;
    while i < |ks|
      invariant 0 <= i <= |ks|
      invariant g == Agrupamento(ks[..i], vs[..i])
    {
      assert ks[..i + 1][..i] == ks[..i] && vs[..i + 1][..i] == vs[..i];
      var k := IndiceDaChave(g, ks[i]);
      if k.Some? {
        g := g[k.value := Grupo(ks[i], g[k.value].contagem + 1, g[k.value].soma + vs[i])];
      } else {
        g := g + [Grupo(ks[i], 1, vs[i])];
      }
      i := i + 1;
    }
    assert ks[..i] == ks && vs[..i] == vs;
  }

  // ------------------------------------------------------------- sorting

  /** Non-increasing in the key (`reverse=True`). */
  ghost predicate Decrescente<T>(s: seq<T>, k: T -> real) {
    forall i, j :: 0 <= i < j < |s| ==> k(s[i]) >= k(s[j])
  }

  /** Inserts `x` after every element whose key is at least its own, so equal keys keep their order. */
  function InserirDesc<T>(x: T, s: seq<T>, k: T -> real): (r: seq<T>)
    ensures |r| == |s| + 1
  {
    if s == [] then [x] else if k(s[0]) >= k(x) then [s[0]] + InserirDesc(x, s[1..], k) else [x] + s
  }

  /** A stable sort by `k`, highest first (`sorted(..., key=k, reverse=True)`). */
  function OrdenarDesc<T>(s: seq<T>, k: T -> real): (r: seq<T>)
    ensures |r| == |s|
  {
    if s == [] then [] else InserirDesc(s[|s| - 1], OrdenarDesc(s[..|s| - 1], k), k)
  }

  /** An element at least as high as every element of a sorted list can go in front of it. */
  lemma NaFrente<T>(a: T, t: seq<T>, k: T -> real)
    requires Decrescente(t, k)
    requires forall j :: 0 <= j < |t| ==> k(a) >= k(t[j])
    ensures Decrescente([a] + t, k)
  {
    var r := [a] + t;
    forall i, j | 0 <= i < j < |r| ensures k(r[i]) >= k(r[j]) {
      assert r[j] == t[j - 1];
      if i > 0 {
        assert r[i] == t[i - 1];
      }
    }
  }

  /** The head of a sorted list is at least as high as every element of the list it was put in front of. */
  lemma CabecaDomina<T>(s: seq<T>, x: T, t: seq<T>, k: T -> real)
    requires s != [] && Decrescente(s, k) && k(s[0]) >= k(x)
    requires multiset(t) == multiset(s[1..]) + multiset{x}
    ensures forall j :: 0 <= j < |t| ==> k(s[0]) >= k(t[j])
  {
    forall j | 0 <= j < |t| ensures k(s[0]) >= k(t[j]) {
      assert t[j] in multiset(t);
      if t[j] != x {
        assert t[j] in multiset(s[1..]);
        var m :| 0 <= m < |s[1..]| && s[1..][m] == t[j];
        assert s[m + 1] == t[j];
      }
    }
  }

  lemma {:induction false} InserirDescCorreto<T>(x: T, s: seq<T>, k: T -> real)
    requires Decrescente(s, k)
    ensures Decrescente(InserirDesc(x, s, k), k)
    ensures multiset(InserirDesc(x, s, k)) == multiset(s) + multiset{x}
  {
    if s == [] {
    } else if k(s[0]) >= k(x) {
      var t := InserirDesc(x, s[1..], k);
      assert InserirDesc(x, s, k) == [s[0]] + t;
      assert Decrescente(s[1..], k);
      InserirDescCorreto(x, s[1..], k);
      assert s == [s[0]] + s[1..];
      CabecaDomina(s, x, t, k);
      NaFrente(s[0], t, k);
    } else {
      assert InserirDesc(x, s, k) == [x] + s;
      NaFrente(x, s, k);
    }
  }

  /** The sort returns the same elements, highest key first. */
  lemma {:induction false} OrdenarDescCorreto<T>(s: seq<T>, k: T -> real)
    ensures Decrescente(OrdenarDesc(s, k), k)
    ensures multiset(OrdenarDesc(s, k)) == multiset(s)
  {
    if s != [] {
      OrdenarDescCorreto(s[..|s| - 1], k);
      InserirDescCorreto(s[|s| - 1], OrdenarDesc(s[..|s| - 1], k), k);
      assert s == s[..|s| - 1] + [s[|s| - 1]];
    }
  }

  // ---------------------------------------------------------------- sums

  function SomaReais(s: seq<real>): real {
    if s == [] then 0.0 else SomaReais(s[..|s| - 1]) + s[|s| - 1]
  }

  function Totais(qs: seq<Quote>): (r: seq<real>)
    ensures |r| == |qs| && forall i :: 0 <= i < |qs| ==> r[i] == qs[i].total
  {
    seq(|qs|, i requires 0 <= i < |qs| => qs[i].total)
  }

  function MenorReal(s: seq<real>): (m: real)
    requires s != []
    ensures forall i :: 0 <= i < |s| ==> m <= s[i]
    ensures exists i :: 0 <= i < |s| && s[i] == m
  {
    if |s| == 1 then s[0]
    else
      var m' := MenorReal(s[..|s| - 1]);
      assert forall i :: 0 <= i < |s| - 1 ==> s[i] == s[..|s| - 1][i];
      if s[|s| - 1] < m' then s[|s| - 1] else m'
  }

  function MaiorReal(s: seq<real>): (m: real)
    requires s != []
    ensures forall i :: 0 <= i < |s| ==> s[i] <= m
    ensures exists i :: 0 <= i < |s| && s[i] == m
  {
    if |s| == 1 then s[0]
    else
      var m' := MaiorReal(s[..|s| - 1]);
      assert forall i :: 0 <= i < |s| - 1 ==> s[i] == s[..|s| - 1][i];
      if s[|s| - 1] > m' then s[|s| - 1] else m'
  }

  /** A mean that is 0 for no values (the handlers' `if count > 0 else 0` guard). */
  function Media(soma: real, n: nat): (m: real)
    ensures n == 0 ==> m == 0.0
    ensures n > 0 ==> m * (n as real) == soma
  {
    if n > 0 then soma / (n as real) else 0.0
  }

  // ------------------------------------------------------------ overview

  datatype Tendencia = Tendencia(month: int, quotesCount: nat, revenue: real)

  datatype Visao = Visao(
    totalQuotes: nat, totalServices: nat, totalClients: nat,
    totalRevenue: real, avgQuoteValue: real, recentRevenue30d: real,
    statusDistribution: seq<Grupo<string>>,
    topServices: seq<Grupo<string>>,
    monthlyTrends: seq<Tendencia>)

  const TrintaDiasEmSegundos := 30 * 24 * 60 * 60

  /** The service name of every item of every quote, quote by quote. */
  function NomesDosItens(qs: seq<Quote>): seq<string> {
    if qs == [] then []
    else NomesDosItens(qs[..|qs| - 1]) + seq(|qs[|qs| - 1].items|, j requires 0 <= j < |qs[|qs| - 1].items| =>
                                             qs[|qs| - 1].items[j].serviceName)
  }

  function Zeros(n: nat): (r: seq<real>)
    ensures |r| == n
  {
    seq(n, _ => 0.0)
  }

  function Contagem(g: Grupo<string>): real {
    g.contagem as real
  }

  /** Ascending by month, as the highest key of the negated month. */
  function MesNegado(g: Grupo<int>): real {
    -(g.chave as real)
  }

  function Recentes(qs: seq<Quote>, desde: int): seq<real> {
    if qs == [] then []
    else Recentes(qs[..|qs| - 1], desde) + (if qs[|qs| - 1].createdAt >= desde then [qs[|qs| - 1].total] else [])
  }

  function MesesDe(qs: seq<Quote>, mesDe: int -> int): (r: seq<int>)
    ensures |r| == |qs|
  {
    seq(|qs|, i requires 0 <= i < |qs| => mesDe(qs[i].createdAt))
  }

  function StatusDe(qs: seq<Quote>): (r: seq<string>)
    ensures |r| == |qs|
  {
    seq(|qs|, i requires 0 <= i < |qs| => qs[i].status)
  }

  function ParaTendencia(g: Grupo<int>): Tendencia {
    Tendencia(g.chave, g.contagem, g.soma)
  }

  /** The five most used services (fewer when fewer are used): the head of the list sorted by count, highest first. */
  function TopServicos(uso: seq<Grupo<string>>): (t: seq<Grupo<string>>)
    ensures |t| <= 5 && (|uso| >= 5 ==> |t| == 5) && (|uso| < 5 ==> |t| == |uso|)
    ensures t == OrdenarDesc(uso, Contagem)[..|t|]
  {
    var ordenados := OrdenarDesc(uso, Contagem);
    ordenados[..if |ordenados| < 5 then |ordenados| else 5]
  }

  /** The top services come highest count first. */
  lemma TopServicosEmOrdem(uso: seq<Grupo<string>>)
    ensures Decrescente(TopServicos(uso), Contagem)
  {
    OrdenarDescCorreto(uso, Contagem);
    TopPreservaOrdem(OrdenarDesc(uso, Contagem), |TopServicos(uso)|, Contagem);
  }

  /** Each top service is one of the grouped services, with its number of items. */
  lemma TopServicosContam(uso: seq<Grupo<string>>, nomes: seq<string>)
    requires Reflete(uso, nomes, Zeros(|nomes|))
    ensures forall i :: 0 <= i < |TopServicos(uso)| ==>
      TopServicos(uso)[i] in uso && TopServicos(uso)[i].contagem == Ocorrencias(nomes, TopServicos(uso)[i].chave)
  {
    var t := TopServicos(uso);
    var ordenados := OrdenarDesc(uso, Contagem);
    OrdenarDescCorreto(uso, Contagem);
    forall i | 0 <= i < |t| ensures t[i] in uso && t[i].contagem == Ocorrencias(nomes, t[i].chave) {
      assert t[i] == ordenados[i];
      assert ordenados[i] in multiset(uso);
    }
  }

  /** A service left out of the top is used no more often than any listed one. */
  lemma TopServicosDominam(uso: seq<Grupo<string>>, nomes: seq<string>)
    requires Reflete(uso, nomes, Zeros(|nomes|))
    ensures forall nome, i ::
      (nome in nomes && (forall j :: 0 <= j < |TopServicos(uso)| ==> TopServicos(uso)[j].chave != nome)
       && 0 <= i < |TopServicos(uso)|) ==> Ocorrencias(nomes, nome) <= TopServicos(uso)[i].contagem
  {
    var t := TopServicos(uso);
    var ordenados := OrdenarDesc(uso, Contagem);
    OrdenarDescCorreto(uso, Contagem);
    TopPreservaOrdem(ordenados, |t|, Contagem);
    TopDomina(uso, nomes, ordenados, |t|);
  }

  lemma TopDomina(uso: seq<Grupo<string>>, nomes: seq<string>, ordenados: seq<Grupo<string>>, n: nat)
    requires Reflete(uso, nomes, Zeros(|nomes|))
    requires multiset(ordenados) == multiset(uso) && n <= |ordenados|
    requires forall g, h :: g in ordenados[..n] && h in ordenados && h !in ordenados[..n] ==> Contagem(g) >= Contagem(h)
    ensures forall nome, i :: nome in nomes && (forall j :: 0 <= j < n ==> ordenados[..n][j].chave != nome) && 0 <= i < n
              ==> Ocorrencias(nomes, nome) <= ordenados[..n][i].contagem
  {
    forall nome, i | nome in nomes && (forall j :: 0 <= j < n ==> ordenados[..n][j].chave != nome) && 0 <= i < n
      ensures Ocorrencias(nomes, nome) <= ordenados[..n][i].contagem
    {
      var x :| 0 <= x < |uso| && uso[x].chave == nome;
      var h := uso[x];
      assert h in multiset(ordenados);
      assert h !in ordenados[..n];
      assert Contagem(ordenados[..n][i]) >= Contagem(h);
    }
  }

  /** Where the six latest months start in the month list sorted ascending. */
  function InicioUltimos(n: nat): (d: nat)
    ensures d <= n && n - d <= 6 && (n >= 6 ==> n - d == 6) && (n < 6 ==> d == 0)
  {
    n - (if n < 6 then n else 6)
  }

  /** The month groups sorted ascending (a sort by the negated month, highest first). */
  function MesesOrdenados(meses: seq<Grupo<int>>): seq<Grupo<int>> {
    OrdenarDesc(meses, MesNegado)
  }

  /** The six latest months with quotes (fewer when fewer have quotes), each with its count and revenue. */
  function TendenciasMensais(meses: seq<Grupo<int>>): (t: seq<Tendencia>)
    ensures |t| <= 6 && (|meses| >= 6 ==> |t| == 6) && (|meses| < 6 ==> |t| == |meses|)
    ensures forall i :: 0 <= i < |t| ==> t[i] == ParaTendencia(MesesOrdenados(meses)[InicioUltimos(|meses|)..][i])
  {
    var ultimos := MesesOrdenados(meses)[InicioUltimos(|meses|)..];
    seq(|ultimos|, i requires 0 <= i < |ultimos| => ParaTendencia(ultimos[i]))
  }

  /** The trends are in ascending month order. */
  lemma TendenciasEmOrdem(meses: seq<Grupo<int>>, ks: seq<int>, vs: seq<real>)
    requires |ks| == |vs| && Reflete(meses, ks, vs)
    ensures forall i, j :: 0 <= i < j < |TendenciasMensais(meses)| ==>
      TendenciasMensais(meses)[i].month < TendenciasMensais(meses)[j].month
  {
    OrdenarDescCorreto(meses, MesNegado);
    MesesCrescentes(meses, MesesOrdenados(meses), InicioUltimos(|meses|));
    TendenciasCrescentes(MesesOrdenados(meses), InicioUltimos(|meses|), TendenciasMensais(meses));
  }

  /** Each trend carries its month's number of quotes and their revenue. */
  lemma TendenciasTotalizam(meses: seq<Grupo<int>>, ks: seq<int>, vs: seq<real>)
    requires |ks| == |vs| && Reflete(meses, ks, vs)
    ensures forall i :: 0 <= i < |TendenciasMensais(meses)| ==>
      var t := TendenciasMensais(meses)[i];
      t.month in ks && t.quotesCount == Ocorrencias(ks, t.month) && t.revenue == SomaOnde(ks, vs, t.month)
  {
    OrdenarDescCorreto(meses, MesNegado);
    MesesRecentes(meses, ks, vs, MesesOrdenados(meses), InicioUltimos(|meses|));
    TendenciasContam(ks, vs, MesesOrdenados(meses), InicioUltimos(|meses|), TendenciasMensais(meses));
  }

  /** Every month with quotes that is left out is earlier than every listed month. */
  lemma TendenciasSaoAsUltimas(meses: seq<Grupo<int>>, ks: seq<int>, vs: seq<real>)
    requires |ks| == |vs| && Reflete(meses, ks, vs)
    ensures forall m, i ::
      (m in ks && (forall j :: 0 <= j < |TendenciasMensais(meses)| ==> TendenciasMensais(meses)[j].month != m)
       && 0 <= i < |TendenciasMensais(meses)|) ==> m < TendenciasMensais(meses)[i].month
  {
    OrdenarDescCorreto(meses, MesNegado);
    MesesRecentes(meses, ks, vs, MesesOrdenados(meses), InicioUltimos(|meses|));
    TendenciasUltimas(ks, MesesOrdenados(meses), InicioUltimos(|meses|), TendenciasMensais(meses));
  }

  lemma TendenciasCrescentes(porMes: seq<Grupo<int>>, d: nat, t: seq<Tendencia>)
    requires d <= |porMes| && |t| == |porMes| - d
    requires forall i :: 0 <= i < |t| ==> t[i] == ParaTendencia(porMes[d..][i])
    requires forall i, j :: d <= i < j < |porMes| ==> porMes[i].chave < porMes[j].chave
    ensures forall i, j :: 0 <= i < j < |t| ==> t[i].month < t[j].month
  {
    forall i, j | 0 <= i < j < |t| ensures t[i].month < t[j].month {
      assert porMes[d..][i] == porMes[d + i] && porMes[d..][j] == porMes[d + j];
    }
  }

  lemma TendenciasContam(ks: seq<int>, vs: seq<real>, porMes: seq<Grupo<int>>, d: nat, t: seq<Tendencia>)
    requires |ks| == |vs| && d <= |porMes| && |t| == |porMes| - d
    requires forall i :: 0 <= i < |t| ==> t[i] == ParaTendencia(porMes[d..][i])
    requires forall i :: d <= i < |porMes| ==>
      porMes[i].chave in ks && porMes[i].contagem == Ocorrencias(ks, porMes[i].chave)
      && porMes[i].soma == SomaOnde(ks, vs, porMes[i].chave)
    ensures forall i :: 0 <= i < |t| ==>
      t[i].month in ks && t[i].quotesCount == Ocorrencias(ks, t[i].month) && t[i].revenue == SomaOnde(ks, vs, t[i].month)
  {
    forall i | 0 <= i < |t|
      ensures t[i].month in ks && t[i].quotesCount == Ocorrencias(ks, t[i].month)
      ensures t[i].revenue == SomaOnde(ks, vs, t[i].month)
    {
      assert porMes[d..][i] == porMes[d + i];
    }
  }

  lemma TendenciasUltimas(ks: seq<int>, porMes: seq<Grupo<int>>, d: nat, t: seq<Tendencia>)
    requires d <= |porMes| && |t| == |porMes| - d
    requires forall i :: 0 <= i < |t| ==> t[i] == ParaTendencia(porMes[d..][i])
    requires forall m, i :: m in ks && (forall j :: d <= j < |porMes| ==> porMes[j].chave != m) && d <= i < |porMes|
              ==> m < porMes[i].chave
    ensures forall m, i :: m in ks && (forall j :: 0 <= j < |t| ==> t[j].month != m) && 0 <= i < |t| ==> m < t[i].month
  {
    forall m, i | m in ks && (forall j :: 0 <= j < |t| ==> t[j].month != m) && 0 <= i < |t| ensures m < t[i].month {
      forall j | d <= j < |porMes| ensures porMes[j].chave != m {
        assert porMes[d..][j - d] == porMes[j];
        assert t[j - d].month == porMes[j].chave;
      }
      assert porMes[d..][i] == porMes[d + i];
    }
  }

  /** The most used services of a list of item names, as the overview groups them. */
  function TopServicosDe(nomes: seq<string>): seq<Grupo<string>> {
    TopServicos(Agrupamento(nomes, Zeros(|nomes|)))
  }

  /** The monthly trends of a list of months and quote totals, as the overview groups them. */
  function TendenciasDe(ks: seq<int>, vs: seq<real>): seq<Tendencia>
    requires |ks| == |vs|
  {
    TendenciasMensais(Agrupamento(ks, vs))
  }

  lemma MesesRecentes(meses: seq<Grupo<int>>, ks: seq<int>, vs: seq<real>, porMes: seq<Grupo<int>>, d: nat)
    requires |ks| == |vs| && Reflete(meses, ks, vs)
    requires multiset(porMes) == multiset(meses) && Decrescente(porMes, MesNegado) && d <= |porMes|
    ensures forall i :: d <= i < |porMes| ==>
      porMes[i].chave in ks && porMes[i].contagem == Ocorrencias(ks, porMes[i].chave)
      && porMes[i].soma == SomaOnde(ks, vs, porMes[i].chave)
    ensures forall m, i :: m in ks && (forall j :: d <= j < |porMes| ==> porMes[j].chave != m) && d <= i < |porMes|
              ==> m < porMes[i].chave
  {
    forall i | d <= i < |porMes|
      ensures porMes[i].chave in ks && porMes[i].contagem == Ocorrencias(ks, porMes[i].chave)
      ensures porMes[i].soma == SomaOnde(ks, vs, porMes[i].chave)
    {
      assert porMes[i] in multiset(meses);
    }
    forall m, i | m in ks && (forall j :: d <= j < |porMes| ==> porMes[j].chave != m) && d <= i < |porMes|
      ensures m < porMes[i].chave
    {
      var x :| 0 <= x < |meses| && meses[x].chave == m;
      assert meses[x] in multiset(porMes);
      var y :| 0 <= y < |porMes| && porMes[y] == meses[x];
      assert y < d;
      MesesEmOrdem(porMes, y, i);
      DistintosEmPosicoesDistintas(porMes, y, i, meses);
    }
  }

  /**
   * The overview of a list of quotes. The status counts add up to the
   * number of quotes; the mean is 0 without quotes and otherwise the revenue
   * over the count; the top services and the monthly trends are those of the
   * functions above.
   */
  method Resumir(qs: seq<Quote>, totalServices: nat, totalClients: nat, agora: int, mesDe: int -> int)
    returns (v: Visao)
    ensures v.totalQuotes == |qs| && v.totalServices == totalServices && v.totalClients == totalClients
    ensures v.totalRevenue == SomaReais(Totais(qs))
    ensures v.avgQuoteValue == Media(v.totalRevenue, v.totalQuotes)
    ensures v.recentRevenue30d == SomaReais(Recentes(qs, agora - TrintaDiasEmSegundos))
    ensures Reflete(v.statusDistribution, StatusDe(qs), Zeros(|qs|))
    ensures SomaContagens(v.statusDistribution) == v.totalQuotes
    ensures v.topServices == TopServicosDe(NomesDosItens(qs))
    ensures v.monthlyTrends == TendenciasDe(MesesDe(qs, mesDe), Totais(qs))
  {
    var receita := SomaReais(Totais(qs));
    var media := Media(receita, |qs|);
    var status := Agrupar(StatusDe(qs), Zeros(|qs|));
    AgrupamentoCorreto(StatusDe(qs), Zeros(|qs|));
    var nomes := NomesDosItens(qs);
    var uso := Agrupar(nomes, Zeros(|nomes|));
    var top := TopServicos(uso);
    var ks, vs := MesesDe(qs, mesDe), Totais(qs);
    var meses := Agrupar(ks, vs);
    var tendencias := TendenciasMensais(meses);
    v := Visao(|qs|, totalServices, totalClients, receita, media, SomaReais(Recentes(qs, agora - TrintaDiasEmSegundos)),
               status, top, tendencias);
  }

  /** The overview handler: a failure to read the quotes becomes an error answer. */
  method VisaoGeral(p: Planilha, agora: int, mesDe: int -> int) returns (r: Result<Visao, ExcelError>)
    ensures r.Err? <==> MontarTodos(p.quotes, p.clients, p.items, p.services).Err?
    ensures r.Ok? ==>
      var qs := MontarTodos(p.quotes, p.clients, p.items, p.services).value;
      && r.value.totalQuotes == |qs| && r.value.totalServices == |p.services| && r.value.totalClients == |p.clients|
      && r.value.totalRevenue == SomaReais(Totais(qs))
      && r.value.avgQuoteValue == Media(r.value.totalRevenue, r.value.totalQuotes)
      && r.value.recentRevenue30d == SomaReais(Recentes(qs, agora - TrintaDiasEmSegundos))
      && Reflete(r.value.statusDistribution, StatusDe(qs), Zeros(|qs|))
      && SomaContagens(r.value.statusDistribution) == r.value.totalQuotes
      && r.value.topServices == TopServicosDe(NomesDosItens(qs))
      && r.value.monthlyTrends == TendenciasDe(MesesDe(qs, mesDe), Totais(qs))
  {
    var lidos := p.GetAllQuotes();
    if lidos.Err? {
      return Err(RowMissing);
    }
    var v := Resumir(lidos.value, |p.services|, |p.clients|, agora, mesDe);
    r := Ok(v);
  }

  /** A prefix of a sorted list is sorted, drawn from it, and at least as high as everything after it. */
  lemma TopPreservaOrdem<T>(s: seq<T>, n: nat, k: T -> real)
    requires n <= |s| && Decrescente(s, k)
    ensures Decrescente(s[..n], k)
    ensures forall g :: g in s[..n] ==> g in s
    ensures forall g, h :: g in s[..n] && h in s && h !in s[..n] ==> k(g) >= k(h)
  {
    assert s == s[..n] + s[n..];
    forall g, h | g in s[..n] && h in s && h !in s[..n] ensures k(g) >= k(h) {
      var i :| 0 <= i < n && s[i] == g;
      assert h in s[n..];
      var j :| 0 <= j < |s[n..]| && s[n..][j] == h;
      assert s[n + j] == h;
    }
  }

  /** Months from distinct keys sorted by their negation come out strictly ascending. */
  lemma MesesCrescentes(meses: seq<Grupo<int>>, porMes: seq<Grupo<int>>, d: nat)
    requires forall i, j :: 0 <= i < j < |meses| ==> meses[i].chave != meses[j].chave
    requires multiset(porMes) == multiset(meses) && Decrescente(porMes, MesNegado)
    requires d <= |porMes|
    ensures forall i, j :: d <= i < j < |porMes| ==> porMes[i].chave < porMes[j].chave
  {
    forall i, j | d <= i < j < |porMes| ensures porMes[i].chave < porMes[j].chave {
      MesesEmOrdem(porMes, i, j);
      DistintosEmPosicoesDistintas(porMes, i, j, meses);
    }
  }

  lemma MesesEmOrdem(porMes: seq<Grupo<int>>, i: nat, j: nat)
    requires Decrescente(porMes, MesNegado) && i < j < |porMes|
    ensures porMes[i].chave <= porMes[j].chave
  {
    assert MesNegado(porMes[i]) >= MesNegado(porMes[j]);
  }

  /** Two positions of a rearrangement of a list with distinct keys hold distinct keys. */
  lemma DistintosEmPosicoesDistintas(porMes: seq<Grupo<int>>, i: nat, j: nat, meses: seq<Grupo<int>>)
    requires forall a, b :: 0 <= a < b < |meses| ==> meses[a].chave != meses[b].chave
    requires multiset(porMes) == multiset(meses)
    requires i < j < |porMes|
    ensures porMes[i].chave != porMes[j].chave
  {
    var a := porMes[i];
    assert porMes == porMes[..j] + [porMes[j]] + porMes[j + 1..];
    assert porMes[..j][i] == a;
    assert multiset(porMes)[a] == multiset(porMes[..j])[a] + multiset([porMes[j]])[a] + multiset(porMes[j + 1..])[a];
    UnicoNaSequencia(meses, a);
    assert a != porMes[j];
    assert porMes[i] in multiset(meses) && porMes[j] in multiset(meses);
    var x :| 0 <= x < |meses| && meses[x] == porMes[i];
    var y :| 0 <= y < |meses| && meses[y] == porMes[j];
    assert x != y;
  }

  /** In a list with distinct keys, each element occurs at most once. */
  lemma {:induction false} UnicoNaSequencia(meses: seq<Grupo<int>>, x: Grupo<int>)
    requires forall a, b :: 0 <= a < b < |meses| ==> meses[a].chave != meses[b].chave
    ensures multiset(meses)[x] <= 1
  {
    if meses != [] {
      var ini := meses[..|meses| - 1];
      UnicoNaSequencia(ini, x);
      assert meses == ini + [meses[|meses| - 1]];
      assert forall a :: 0 <= a < |ini| ==> ini[a].chave != meses[|meses| - 1].chave;
    }
  }

  // ------------------------------------------------------------ services

  datatype ServicoAnalise = ServicoAnalise(
    serviceId: int, serviceName: string, unit: string, basePrice: real,
    avgPriceUsed: real, minPrice: real, maxPrice: real, totalUsage: real, timesUsed: nat)

  /** The items of every quote that use service `id`, quote by quote. */
  function ItensUsando(qs: seq<Quote>, id: int): seq<QuoteItem> {
    if qs == [] then []
    else ItensUsando(qs[..|qs| - 1], id) + DoServico(qs[|qs| - 1].items, id)
  }

  function DoServico(its: seq<QuoteItem>, id: int): seq<QuoteItem> {
    if its == [] then []
    else DoServico(its[..|its| - 1], id) + (if its[|its| - 1].serviceId == id then [its[|its| - 1]] else [])
  }

  function Precos(its: seq<QuoteItem>): (r: seq<real>)
    ensures |r| == |its| && forall i :: 0 <= i < |its| ==> r[i] == its[i].unitPrice
  {
    seq(|its|, i requires 0 <= i < |its| => its[i].unitPrice)
  }

  function Quantidades(its: seq<QuoteItem>): (r: seq<real>)
    ensures |r| == |its|
  {
    seq(|its|, i requires 0 <= i < |its| => its[i].quantity)
  }


  /** The statistics of the items using a service: their mean, lowest and highest unit price, total quantity and count. */
  function Estatisticas(s: ServiceRow, its: seq<QuoteItem>): (a: ServicoAnalise)
    requires its != []
    ensures a.serviceId == s.id && a.timesUsed == |its| >= 1
    ensures a.avgPriceUsed * (a.timesUsed as real) == SomaReais(Precos(its))
    ensures a.totalUsage == SomaReais(Quantidades(its))
    ensures forall i :: 0 <= i < |its| ==> a.minPrice <= its[i].unitPrice <= a.maxPrice
    ensures exists i :: 0 <= i < |its| && its[i].unitPrice == a.minPrice
    ensures exists i :: 0 <= i < |its| && its[i].unitPrice == a.maxPrice
  {
    var precos := Precos(its);
    ServicoAnalise(s.id, s.name, s.unit, s.unitPrice, Media(SomaReais(precos), |precos|),
                   MenorReal(precos), MaiorReal(precos), SomaReais(Quantidades(its)), |its|)
  }

  /** A service's entry: only for a service some item uses. */
  function AnaliseDoServico(s: ServiceRow, qs: seq<Quote>): (r: Option<ServicoAnalise>)
    ensures r.Some? <==> ItensUsando(qs, s.id) != []
    ensures r.Some? ==> r.value == Estatisticas(s, ItensUsando(qs, s.id))
  {
    var its := ItensUsando(qs, s.id);
    if its == [] then None else Some(Estatisticas(s, its))
  }

  function AnalisesDe(ss: seq<ServiceRow>, qs: seq<Quote>): seq<ServicoAnalise> {
    if ss == [] then []
    else
      AnalisesDe(ss[..|ss| - 1], qs) +
      (match AnaliseDoServico(ss[|ss| - 1], qs) case Some(a) => [a] case None => [])
  }

  function VezesUsado(a: ServicoAnalise): real {
    a.timesUsed as real
  }

  lemma {:induction false} AnalisesUsadas(ss: seq<ServiceRow>, qs: seq<Quote>)
    ensures forall a :: a in AnalisesDe(ss, qs) ==> a.timesUsed >= 1
  {
    if ss != [] {
      AnalisesUsadas(ss[..|ss| - 1], qs);
    }
  }

  /** The services handler's answer. */
  datatype ServicosResposta = ServicosResposta(services: seq<ServicoAnalise>, totalServices: nat, activeServices: nat)

  function Ativos(as_: seq<ServicoAnalise>): (n: nat)
    ensures n <= |as_|
  {
    if as_ == [] then 0 else Ativos(as_[..|as_| - 1]) + (if as_[|as_| - 1].timesUsed > 0 then 1 else 0)
  }

  lemma {:induction false} TodosAtivos(as_: seq<ServicoAnalise>)
    requires forall a :: a in as_ ==> a.timesUsed >= 1
    ensures Ativos(as_) == |as_|
  {
    if as_ != [] {
      TodosAtivos(as_[..|as_| - 1]);
    }
  }

  /**
   * The services handler: one entry per service in use, sorted by times
   * used, highest first; every listed service is in use, so the number of
   * active services is the length of the list.
   */
  method AnaliseServicos(p: Planilha) returns (r: Result<ServicosResposta, ExcelError>)
    ensures r.Err? <==> MontarTodos(p.quotes, p.clients, p.items, p.services).Err?
    ensures r.Ok? ==>
      var qs := MontarTodos(p.quotes, p.clients, p.items, p.services).value;
      && r.value.services == OrdenarDesc(AnalisesDe(p.services, qs), VezesUsado)
      && multiset(r.value.services) == multiset(AnalisesDe(p.services, qs))
      && Decrescente(r.value.services, VezesUsado)
      && r.value.totalServices == |p.services|
      && r.value.activeServices == |r.value.services|
  {
    var lidos := p.GetAllQuotes();
    if lidos.Err? {
      return Err(RowMissing);
    }
    var qs := lidos.value;
    var lista: seq<ServicoAnalise> := [];
    var i := 0;
    while i < |p.services|
      invariant 0 <= i <= |p.services|
      invariant lista == AnalisesDe(p.services[..i], qs)
    {
      assert p.services[..i + 1][..i] == p.services[..i];
      var a := AnaliseDoServico(p.services[i], qs);
      if a.Some? {
        lista := lista + [a.value];
      }
      i := i + 1;
    }
    assert p.services[..i] == p.services;
    var ordenada := OrdenarDesc(lista, VezesUsado);
    OrdenarDescCorreto(lista, VezesUsado);
    AnalisesUsadas(p.services, qs);
    forall a | a in ordenada ensures a.timesUsed >= 1 {
      assert a in multiset(lista);
    }
    TodosAtivos(ordenada);
    r := Ok(ServicosResposta(ordenada, |p.services|, Ativos(ordenada)));
  }

  // ------------------------------------------------------------- clients

  datatype ClienteAnalise = ClienteAnalise(
    clientId: int, clientName: string, quotesCount: nat, totalSpent: real, avgQuoteValue: real, lastQuoteDate: int)

  function DoCliente(qs: seq<Quote>, id: int): seq<Quote> {
    if qs == [] then []
    else DoCliente(qs[..|qs| - 1], id) + (if qs[|qs| - 1].clientId == id then [qs[|qs| - 1]] else [])
  }

  function Datas(qs: seq<Quote>): (r: seq<real>)
    ensures |r| == |qs|
  {
    seq(|qs|, i requires 0 <= i < |qs| => qs[i].createdAt as real)
  }

  /** A client's entry: only for a client with quotes, under its name; the last date is the latest creation instant. */
  function AnaliseDoCliente(c: ClientRow, qs: seq<Quote>): (r: Option<ClienteAnalise>)
    ensures r.Some? <==> DoCliente(qs, c.id) != []
    ensures r.Some? ==>
      && r.value.clientId == c.id && r.value.quotesCount == |DoCliente(qs, c.id)|
      && r.value.totalSpent == SomaReais(Totais(DoCliente(qs, c.id)))
      && r.value.avgQuoteValue * (r.value.quotesCount as real) == r.value.totalSpent
      && r.value.clientName == c.name
      && (forall i :: 0 <= i < |DoCliente(qs, c.id)| ==> DoCliente(qs, c.id)[i].createdAt <= r.value.lastQuoteDate)
      && (exists i :: 0 <= i < |DoCliente(qs, c.id)| && DoCliente(qs, c.id)[i].createdAt == r.value.lastQuoteDate)
  {
    var deles := DoCliente(qs, c.id);
    if deles == [] then None
    else
      var total := SomaReais(Totais(deles));
      var ultima := UltimaData(deles);
      Some(ClienteAnalise(c.id, c.name, |deles|, total, Media(total, |deles|), ultima))
  }

  function UltimaData(qs: seq<Quote>): (d: int)
    requires qs != []
    ensures forall i :: 0 <= i < |qs| ==> qs[i].createdAt <= d
    ensures exists i :: 0 <= i < |qs| && qs[i].createdAt == d
  {
    if |qs| == 1 then qs[0].createdAt
    else
      var d' := UltimaData(qs[..|qs| - 1]);
      assert forall i :: 0 <= i < |qs| - 1 ==> qs[i] == qs[..|qs| - 1][i];
      if qs[|qs| - 1].createdAt > d' then qs[|qs| - 1].createdAt else d'
  }

  function AnalisesDeClientes(cs: seq<ClientRow>, qs: seq<Quote>): seq<ClienteAnalise> {
    if cs == [] then []
    else
      AnalisesDeClientes(cs[..|cs| - 1], qs) +
      (match AnaliseDoCliente(cs[|cs| - 1], qs) case Some(a) => [a] case None => [])
  }

  function TotalGasto(a: ClienteAnalise): real {
    a.totalSpent
  }

  datatype ClientesResposta = ClientesResposta(clients: seq<ClienteAnalise>, totalClients: nat, activeClients: nat)

  /** The clients handler: one entry per client with quotes, by total spent, highest first. */
  method AnaliseClientes(p: Planilha) returns (r: Result<ClientesResposta, ExcelError>)
    ensures r.Err? <==> MontarTodos(p.quotes, p.clients, p.items, p.services).Err?
    ensures r.Ok? ==>
      var qs := MontarTodos(p.quotes, p.clients, p.items, p.services).value;
      && r.value.clients == OrdenarDesc(AnalisesDeClientes(p.clients, qs), TotalGasto)
      && multiset(r.value.clients) == multiset(AnalisesDeClientes(p.clients, qs))
      && Decrescente(r.value.clients, TotalGasto)
      && r.value.totalClients == |p.clients|
      && r.value.activeClients == |r.value.clients|
  {
    var lidos := p.GetAllQuotes();
    if lidos.Err? {
      return Err(RowMissing);
    }
    var qs := lidos.value;
    var lista: seq<ClienteAnalise> := [];
    var i := 0;
    while i < |p.clients|
      invariant 0 <= i <= |p.clients|
      invariant lista == AnalisesDeClientes(p.clients[..i], qs)
    {
      assert p.clients[..i + 1][..i] == p.clients[..i];
      var a := AnaliseDoCliente(p.clients[i], qs);
      if a.Some? {
        lista := lista + [a.value];
      }
      i := i + 1;
    }
    assert p.clients[..i] == p.clients;
    var ordenada := OrdenarDesc(lista, TotalGasto);
    OrdenarDescCorreto(lista, TotalGasto);
    r := Ok(ClientesResposta(ordenada, |p.clients|, |ordenada|));
  }
}
