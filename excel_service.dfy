/**
 * The legacy spreadsheet store of quotes. Each sheet is a sequence of rows
 * that the operations reassign. Ids are the largest id of a sheet plus one,
 * read from the saved sheet; looking up a row that is not there raises, as
 * `.iloc[0]` on an empty selection does. The clock (and the year and month
 * of quote numbers) are parameters.
 */
module ExcelService {
  import opened Wrappers

  datatype ClientRow = ClientRow(id: int, name: string, createdAt: int, updatedAt: int)

  datatype ServiceRow = ServiceRow(id: int, name: string, unitPrice: real, unit: string, createdAt: int, updatedAt: int)

  datatype QuoteRow = QuoteRow(
    id: int, quoteNumber: string, clientId: int, title: string, description: Option<string>,
    status: string, total: real, createdAt: int, updatedAt: int)

  datatype ItemRow = ItemRow(
    id: int, quoteId: int, serviceId: int, quantity: real, unitPrice: real, totalPrice: real,
    serviceName: string, serviceUnit: string, createdAt: int)

  datatype QuoteItemCreate = QuoteItemCreate(serviceId: int, quantity: real, unitPrice: real)

  datatype QuoteCreate = QuoteCreate(
    clientId: int, title: string, description: Option<string>, status: string, items: seq<QuoteItemCreate>)

  /** The fields a caller set; `description` may be set to null. */
  datatype QuoteUpdate = QuoteUpdate(
    title: Option<string>, description: Option<Option<string>>, status: Option<string>,
    items: Option<seq<QuoteItemCreate>>)

  /** An item as read back: the service's name and unit come from the services sheet. */
  datatype QuoteItem = QuoteItem(
    id: int, serviceId: int, quantity: real, unitPrice: real, totalPrice: real, serviceName: string, serviceUnit: string)

  datatype Quote = Quote(
    id: int, quoteNumber: string, clientId: int, title: string, description: Option<string>, status: string,
    total: real, createdAt: int, updatedAt: int, client: ClientRow, items: seq<QuoteItem>)

  /** A selection was empty where the code takes its first row. */
  datatype ExcelError = RowMissing

  // ---------------------------------------------------------------- ids

  function Maximo(ids: seq<int>): (m: int)
    requires ids != []
    ensures forall i :: 0 <= i < |ids| ==> ids[i] <= m
    ensures exists i :: 0 <= i < |ids| && ids[i] == m
  {
    if |ids| == 1 then ids[0]
    else
      var m' := Maximo(ids[1..]);
      assert forall i :: 1 <= i < |ids| ==> ids[i] == ids[1..][i - 1];
      if ids[0] >= m' then ids[0] else m'
  }

  /** `_get_next_id`: 1 for an empty sheet, otherwise the largest id plus one; above every id. */
  function ProximoId(ids: seq<int>): (n: int)
    ensures ids == [] ==> n == 1
    ensures ids != [] ==> exists i :: 0 <= i < |ids| && ids[i] == n - 1
    ensures forall i :: 0 <= i < |ids| ==> ids[i] < n
  {
    if ids == [] then 1 else Maximo(ids) + 1
  }

  function IdsClientes(cs: seq<ClientRow>): seq<int> {
    seq(|cs|, i requires 0 <= i < |cs| => cs[i].id)
  }

  function IdsServicos(ss: seq<ServiceRow>): seq<int> {
    seq(|ss|, i requires 0 <= i < |ss| => ss[i].id)
  }

  function IdsOrcamentos(qs: seq<QuoteRow>): seq<int> {
    seq(|qs|, i requires 0 <= i < |qs| => qs[i].id)
  }

  function IdsItens(its: seq<ItemRow>): seq<int> {
    seq(|its|, i requires 0 <= i < |its| => its[i].id)
  }

  // ------------------------------------------------------ quote numbers

  function Digito(d: int): char
    requires 0 <= d < 10
  {
    ('0' as int + d) as char
  }

  predicate SoDigitos(s: string) {
    forall i :: 0 <= i < |s| ==> '0' <= s[i] <= '9'
  }

  /** The decimal numeral of `n`, without leading zeros (`str(n)`). */
  function Decimal(n: nat): (s: string)
    ensures |s| >= 1 && SoDigitos(s)
  {
    if n < 10 then [Digito(n)] else Decimal(n / 10) + [Digito(n % 10)]
  }

  /** The number a numeral stands for. */
  function ValorDecimal(s: string): nat
    requires SoDigitos(s)
  {
    if s == [] then 0 else ValorDecimal(s[..|s| - 1]) * 10 + (s[|s| - 1] as int - '0' as int)
  }

  lemma {:induction false} ValorDoDecimal(n: nat)
    ensures ValorDecimal(Decimal(n)) == n
  {
    if n >= 10 {
      var s := Decimal(n);
      assert s[..|s| - 1] == Decimal(n / 10);
      ValorDoDecimal(n / 10);
    }
  }

  /** The numeral left-padded with '0' to width `w` (`f"{n:0wd}"`). */
  function ComZeros(s: string, w: nat): (r: string)
    ensures |r| == if |s| >= w then |s| else w
    ensures r[|r| - |s|..] == s
    ensures forall i :: 0 <= i < |r| - |s| ==> r[i] == '0'
  {
    if |s| >= w then s else seq(w - |s|, _ => '0') + s
  }

  lemma {:induction false} ValorSemZerosAEsquerda(z: string, s: string)
    requires forall i :: 0 <= i < |z| ==> z[i] == '0'
    requires SoDigitos(s)
    ensures SoDigitos(z + s)
    ensures ValorDecimal(z + s) == ValorDecimal(s)
    decreases |s|
  {
    if s == [] {
      assert z + s == z;
      ZerosValemZero(z);
    } else {
      var t := z + s;
      assert t[..|t| - 1] == z + s[..|s| - 1];
      assert t[|t| - 1] == s[|s| - 1];
      ValorSemZerosAEsquerda(z, s[..|s| - 1]);
    }
  }

  lemma {:induction false} ZerosValemZero(z: string)
    requires forall i :: 0 <= i < |z| ==> z[i] == '0'
    ensures SoDigitos(z) && ValorDecimal(z) == 0
  {
    if z != [] {
      ZerosValemZero(z[..|z| - 1]);
    }
  }

  /** The leading text of every quote number of a month: "ORC", the year and the two-digit month. */
  function PrefixoNumero(ano: nat, mes: nat): string {
    "ORC" + Decimal(ano) + ComZeros(Decimal(mes), 2)
  }

  /** How many quote numbers of the sheet start with `p` (`str.startswith`). */
  function ContarComPrefixo(qs: seq<QuoteRow>, p: string): (n: nat)
    ensures n <= |qs|
  {
    if qs == [] then 0
    else ContarComPrefixo(qs[..|qs| - 1], p) + (if p <= qs[|qs| - 1].quoteNumber then 1 else 0)
  }

  /** `_generate_quote_number`: the month's prefix and, in at least three digits, one more than the month's count. */
  function NumeroOrcamento(qs: seq<QuoteRow>, ano: nat, mes: nat): string {
    var p := PrefixoNumero(ano, mes);
    p + ComZeros(Decimal(ContarComPrefixo(qs, p) + 1), 3)
  }

  /** A quote number is the month's prefix followed by at least three digits that read as the count plus one. */
  lemma NumeroOrcamentoForma(qs: seq<QuoteRow>, ano: nat, mes: nat)
    ensures var p := PrefixoNumero(ano, mes);
      var r := NumeroOrcamento(qs, ano, mes);
      && p <= r
      && |r| >= |p| + 3
      && SoDigitos(r[|p|..])
      && ValorDecimal(r[|p|..]) == ContarComPrefixo(qs, p) + 1
  {
    var p := PrefixoNumero(ano, mes);
    var d := Decimal(ContarComPrefixo(qs, p) + 1);
    var z := ComZeros(d, 3);
    var r := NumeroOrcamento(qs, ano, mes);
    assert r[|p|..] == z;
    assert z == z[..|z| - |d|] + d;
    ValorSemZerosAEsquerda(z[..|z| - |d|], d);
    ValorDoDecimal(ContarComPrefixo(qs, p) + 1);
  }

  /** Storing a quote under the number just generated makes the next number of that month different. */
  lemma NumeroSeguinteDifere(qs: seq<QuoteRow>, q: QuoteRow, ano: nat, mes: nat)
    requires q.quoteNumber == NumeroOrcamento(qs, ano, mes)
    ensures NumeroOrcamento(qs + [q], ano, mes) != NumeroOrcamento(qs, ano, mes)
  {
    var p := PrefixoNumero(ano, mes);
    NumeroOrcamentoForma(qs, ano, mes);
    NumeroOrcamentoForma(qs + [q], ano, mes);
    assert (qs + [q])[..|qs|] == qs;
    assert ContarComPrefixo(qs + [q], p) == ContarComPrefixo(qs, p) + 1;
  }

  // --------------------------------------------------- sheet selections

  /** The index of the first row satisfying `p`, if any (a filter then `.iloc[0]`). */
  function Primeiro<T>(s: seq<T>, p: T -> bool): (r: Option<nat>)
    ensures r.None? <==> forall i :: 0 <= i < |s| ==> !p(s[i])
    ensures r.Some? ==> r.value < |s| && p(s[r.value]) && forall j :: 0 <= j < r.value ==> !p(s[j])
  {
    if s == [] then None
    else if p(s[0]) then Some(0)
    else
      match Primeiro(s[1..], p)
      case None => None
      case Some(k) => Some(k + 1)
  }

  function ClientePorId(cs: seq<ClientRow>, id: int): Option<ClientRow> {
    match Primeiro(cs, (c: ClientRow) => c.id == id)
    case None => None
    case Some(i) => Some(cs[i])
  }

  function ServicoPorId(ss: seq<ServiceRow>, id: int): Option<ServiceRow> {
    match Primeiro(ss, (s: ServiceRow) => s.id == id)
    case None => None
    case Some(i) => Some(ss[i])
  }

  /** The items of quote `quoteId`, in sheet order. */
  function ItensDoOrcamento(its: seq<ItemRow>, quoteId: int): (r: seq<ItemRow>)
    ensures forall x :: x in r <==> x in its && x.quoteId == quoteId
  {
    if its == [] then []
    else
      var r' := ItensDoOrcamento(its[..|its| - 1], quoteId);
      assert its == its[..|its| - 1] + [its[|its| - 1]];
      if its[|its| - 1].quoteId == quoteId then r' + [its[|its| - 1]] else r'
  }

  /** The rows of every other quote. */
  function SemOrcamento(qs: seq<QuoteRow>, id: int): (r: seq<QuoteRow>)
    ensures forall x :: x in r <==> x in qs && x.id != id
    ensures |r| <= |qs|
  {
    if qs == [] then []
    else
      var r' := SemOrcamento(qs[..|qs| - 1], id);
      assert qs == qs[..|qs| - 1] + [qs[|qs| - 1]];
      if qs[|qs| - 1].id != id then r' + [qs[|qs| - 1]] else r'
  }

  /** The items of every other quote. */
  function SemItensDe(its: seq<ItemRow>, quoteId: int): (r: seq<ItemRow>)
    ensures forall x :: x in r <==> x in its && x.quoteId != quoteId
    ensures |r| <= |its|
  {
    if its == [] then []
    else
      var r' := SemItensDe(its[..|its| - 1], quoteId);
      assert its == its[..|its| - 1] + [its[|its| - 1]];
      if its[|its| - 1].quoteId != quoteId then r' + [its[|its| - 1]] else r'
  }

  // ------------------------------------------------------------ reading

  function MontarItem(it: ItemRow, ss: seq<ServiceRow>): Result<QuoteItem, ExcelError> {
    match ServicoPorId(ss, it.serviceId)
    case None => Err(RowMissing)
    case Some(s) => Ok(QuoteItem(it.id, it.serviceId, it.quantity, it.unitPrice, it.totalPrice, s.name, s.unit))
  }

  /** The items as read back, or an error when one names a service that is not in the sheet. */
  function MontarItens(its: seq<ItemRow>, ss: seq<ServiceRow>): (r: Result<seq<QuoteItem>, ExcelError>)
    ensures r.Ok? ==> |r.value| == |its|
  {
    if its == [] then Ok([])
    else
      match MontarItens(its[..|its| - 1], ss)
      case Err(e) => Err(e)
      case Ok(v) =>
        match MontarItem(its[|its| - 1], ss)
        case Err(e) => Err(e)
        case Ok(x) => Ok(v + [x])
  }

  /** A quote as read back from its row, its client and its items. */
  function MontarOrcamento(q: QuoteRow, cs: seq<ClientRow>, its: seq<ItemRow>, ss: seq<ServiceRow>)
    : Result<Quote, ExcelError>
  {
    match ClientePorId(cs, q.clientId)
    case None => Err(RowMissing)
    case Some(c) =>
      match MontarItens(ItensDoOrcamento(its, q.id), ss)
      case Err(e) => Err(e)
      case Ok(itens) =>
        Ok(Quote(q.id, q.quoteNumber, q.clientId, q.title, q.description, q.status, q.total,
                 q.createdAt, q.updatedAt, c, itens))
  }

  function MontarTodos(qs: seq<QuoteRow>, cs: seq<ClientRow>, its: seq<ItemRow>, ss: seq<ServiceRow>)
    : (r: Result<seq<Quote>, ExcelError>)
  {
    if qs == [] then Ok([])
    else
      match MontarTodos(qs[..|qs| - 1], cs, its, ss)
      case Err(e) => Err(e)
      case Ok(v) =>
        match MontarOrcamento(qs[|qs| - 1], cs, its, ss)
        case Err(e) => Err(e)
        case Ok(x) => Ok(v + [x])
  }

  /** Reading every row with `ler`, stopping at the first row it cannot read. */
  function LerTodos<R, T>(rs: seq<R>, ler: R -> Result<T, ExcelError>): Result<seq<T>, ExcelError> {
    if rs == [] then Ok([])
    else
      match LerTodos(rs[..|rs| - 1], ler)
      case Err(e) => Err(e)
      case Ok(v) =>
        match ler(rs[|rs| - 1])
        case Err(e) => Err(e)
        case Ok(x) => Ok(v + [x])
  }

  /** Reading every row succeeds exactly when each row can be read, and then keeps row order. */
  lemma {:induction false} LerTodosCorreto<R, T>(rs: seq<R>, ler: R -> Result<T, ExcelError>)
    ensures LerTodos(rs, ler).Ok? <==> forall i :: 0 <= i < |rs| ==> ler(rs[i]).Ok?
    ensures LerTodos(rs, ler).Ok? ==>
      && |LerTodos(rs, ler).value| == |rs|
      && forall i :: 0 <= i < |rs| ==> LerTodos(rs, ler).value[i] == ler(rs[i]).value
  {
    if rs != [] {
      var ini := rs[..|rs| - 1];
      LerTodosCorreto(ini, ler);
      assert forall i :: 0 <= i < |ini| ==> rs[i] == ini[i];
    }
  }

  /** Reading all quotes is reading every quote row with the one-quote reader. */
  lemma {:induction false} MontarTodosLeCadaUm(qs: seq<QuoteRow>, cs: seq<ClientRow>, its: seq<ItemRow>,
                                               ss: seq<ServiceRow>)
    ensures MontarTodos(qs, cs, its, ss) == LerTodos(qs, q => MontarOrcamento(q, cs, its, ss))
  {
    if qs != [] {
      MontarTodosLeCadaUm(qs[..|qs| - 1], cs, its, ss);
    }
  }

  /** Reading all quotes succeeds exactly when every quote can be read, and then keeps sheet order. */
  lemma {:induction false} MontarTodosCorreto(qs: seq<QuoteRow>, cs: seq<ClientRow>, its: seq<ItemRow>, ss: seq<ServiceRow>)
    ensures MontarTodos(qs, cs, its, ss).Ok? <==> forall i :: 0 <= i < |qs| ==> MontarOrcamento(qs[i], cs, its, ss).Ok?
    ensures MontarTodos(qs, cs, its, ss).Ok? ==>
      && |MontarTodos(qs, cs, its, ss).value| == |qs|
      && forall i :: 0 <= i < |qs| ==> MontarTodos(qs, cs, its, ss).value[i] == MontarOrcamento(qs[i], cs, its, ss).value
  {
    var ler := q => MontarOrcamento(q, cs, its, ss);
    MontarTodosLeCadaUm(qs, cs, its, ss);
    LerTodosCorreto(qs, ler);
  }

  // ------------------------------------------------------------ writing

  /** The sum of quantity times unit price over the items given (the new quote's total). */
  function SomaPrecos(its: seq<QuoteItemCreate>): real {
    if its == [] then 0.0 else SomaPrecos(its[..|its| - 1]) + its[|its| - 1].quantity * its[|its| - 1].unitPrice
  }

  function SomaTotais(its: seq<ItemRow>): real {
    if its == [] then 0.0 else SomaTotais(its[..|its| - 1]) + its[|its| - 1].totalPrice
  }

  function NovoItem(it: QuoteItemCreate, itemId: int, quoteId: int, s: ServiceRow, agora: int): ItemRow {
    ItemRow(itemId, quoteId, it.serviceId, it.quantity, it.unitPrice, it.quantity * it.unitPrice, s.name, s.unit, agora)
  }

  /**
   * The rows the item loop builds: every one under the same id, because the
   * next id is read again from the sheet, which the loop has not saved yet.
   * `None` when an item names a service that is not in the sheet.
   */
  function NovosItens(its: seq<QuoteItemCreate>, itemId: int, quoteId: int, ss: seq<ServiceRow>, agora: int)
    : (r: Option<seq<ItemRow>>)
    ensures r.Some? ==> |r.value| == |its|
  {
    if its == [] then Some([])
    else
      match NovosItens(its[..|its| - 1], itemId, quoteId, ss, agora)
      case None => None
      case Some(v) =>
        match ServicoPorId(ss, its[|its| - 1].serviceId)
        case None => None
        case Some(s) => Some(v + [NovoItem(its[|its| - 1], itemId, quoteId, s, agora)])
  }

  /** The loop fails exactly when some item's service is missing. */
  lemma {:induction false} NovosItensFalha(its: seq<QuoteItemCreate>, itemId: int, quoteId: int,
                                           ss: seq<ServiceRow>, agora: int)
    ensures NovosItens(its, itemId, quoteId, ss, agora).Some? <==>
      forall i :: 0 <= i < |its| ==> ServicoPorId(ss, its[i].serviceId).Some?
  {
    if its != [] {
      var ini := its[..|its| - 1];
      NovosItensFalha(ini, itemId, quoteId, ss, agora);
      assert forall i :: 0 <= i < |ini| ==> its[i] == ini[i];
    }
  }

  /**
   * Otherwise it builds one row per item, in order, all under `itemId` and
   * quote `quoteId`, each priced quantity times unit price.
   */
  lemma {:induction false} NovosItensForma(its: seq<QuoteItemCreate>, itemId: int, quoteId: int,
                                           ss: seq<ServiceRow>, agora: int)
    requires NovosItens(its, itemId, quoteId, ss, agora).Some?
    ensures var v := NovosItens(its, itemId, quoteId, ss, agora).value;
      forall i :: 0 <= i < |v| ==>
        && v[i].id == itemId && v[i].quoteId == quoteId && v[i].serviceId == its[i].serviceId
        && v[i].totalPrice == its[i].quantity * its[i].unitPrice
  {
    if its != [] {
      var ini := its[..|its| - 1];
      NovosItensForma(ini, itemId, quoteId, ss, agora);
      var v := NovosItens(its, itemId, quoteId, ss, agora).value;
      var w := NovosItens(ini, itemId, quoteId, ss, agora).value;
      assert v[..|v| - 1] == w;
      forall i | 0 <= i < |v| - 1
        ensures v[i].id == itemId && v[i].quoteId == quoteId && v[i].serviceId == its[i].serviceId
        ensures v[i].totalPrice == its[i].quantity * its[i].unitPrice
      {
        assert v[i] == w[i] && its[i] == ini[i];
      }
    }
  }

  /** The new items' totals add up to the quote's total. */
  lemma {:induction false} NovosItensTotal(its: seq<QuoteItemCreate>, itemId: int, quoteId: int,
                                           ss: seq<ServiceRow>, agora: int)
    requires NovosItens(its, itemId, quoteId, ss, agora).Some?
    ensures SomaTotais(NovosItens(its, itemId, quoteId, ss, agora).value) == SomaPrecos(its)
  {
    if its != [] {
      var ini := its[..|its| - 1];
      NovosItensTotal(ini, itemId, quoteId, ss, agora);
      var v := NovosItens(its, itemId, quoteId, ss, agora).value;
      assert v[..|v| - 1] == NovosItens(ini, itemId, quoteId, ss, agora).value;
    }
  }

  /** All items of one quote are stored under ids that one call to the item loop reads once. */
  lemma ItensDeUmaChamadaCompartilhamId(its: seq<QuoteItemCreate>, itemId: int, quoteId: int,
                                         ss: seq<ServiceRow>, agora: int, i: int, j: int)
    requires NovosItens(its, itemId, quoteId, ss, agora).Some?
    requires 0 <= i < |its| && 0 <= j < |its|
    ensures NovosItens(its, itemId, quoteId, ss, agora).value[i].id == NovosItens(its, itemId, quoteId, ss, agora).value[j].id
  {
    NovosItensForma(its, itemId, quoteId, ss, agora);
  }

  class Planilha {
    var clients: seq<ClientRow>
    var services: seq<ServiceRow>
    var quotes: seq<QuoteRow>
    var items: seq<ItemRow>

    /** A new workbook has its four sheets, empty. */
    constructor ()
      ensures clients == [] && services == [] && quotes == [] && items == []
    {
      clients, services, quotes, items := [], [], [], [];
    }

    method CreateClient(name: string, agora: int) returns (c: ClientRow)
      modifies this`clients
      ensures c == ClientRow(ProximoId(IdsClientes(old(clients))), name, agora, agora)
      ensures clients == old(clients) + [c]
    {
      c := ClientRow(ProximoId(IdsClientes(clients)), name, agora, agora);
      clients := clients + [c];
    }

    method CreateService(name: string, unitPrice: real, unit: string, agora: int) returns (s: ServiceRow)
      modifies this`services
      ensures s == ServiceRow(ProximoId(IdsServicos(old(services))), name, unitPrice, unit, agora, agora)
      ensures services == old(services) + [s]
    {
      s := ServiceRow(ProximoId(IdsServicos(services)), name, unitPrice, unit, agora, agora);
      services := services + [s];
    }

    /** The items of one quote as read back: the inner loop of `get_all_quotes`. */
    method LerItens(quoteId: int) returns (r: Result<seq<QuoteItem>, ExcelError>)
      ensures r == MontarItens(ItensDoOrcamento(items, quoteId), services)
    {
      var doOrcamento := ItensDoOrcamento(items, quoteId);
      var lidos: seq<QuoteItem> := [];
      var i := 0;
      while i < |doOrcamento|
        invariant 0 <= i <= |doOrcamento|
        invariant MontarItens(doOrcamento[..i], services) == Ok(lidos)
      {
        assert doOrcamento[..i + 1][..i] == doOrcamento[..i];
        var x := MontarItem(doOrcamento[i], services);
        if x.Err? {
          assert doOrcamento[..i + 1][i] == doOrcamento[i];
          assert MontarItens(doOrcamento[..i + 1], services).Err?;
          MontarItensErroPropaga(doOrcamento, services, i + 1);
          assert MontarItens(doOrcamento, services).error.RowMissing?;
          return Err(RowMissing);
        }
        lidos := lidos + [x.value];
        i := i + 1;
      }
      assert doOrcamento[..i] == doOrcamento;
      r := Ok(lidos);
    }

    /** One quote with its client and items: the body of the outer loop of `get_all_quotes`. */
    method LerOrcamento(q: QuoteRow) returns (r: Result<Quote, ExcelError>)
      ensures r == MontarOrcamento(q, clients, items, services)
    {
      var c := ClientePorId(clients, q.clientId);
      if c.None? {
        return Err(RowMissing);
      }
      var itens := LerItens(q.id);
      if itens.Err? {
        assert MontarOrcamento(q, clients, items, services).error.RowMissing?;
        return Err(RowMissing);
      }
      r := Ok(Quote(q.id, q.quoteNumber, q.clientId, q.title, q.description, q.status, q.total,
                    q.createdAt, q.updatedAt, c.value, itens.value));
    }

    /** `get_all_quotes`: every quote with its client and items, in sheet order; an error if a row is missing. */
    method GetAllQuotes() returns (r: Result<seq<Quote>, ExcelError>)
      ensures r == MontarTodos(quotes, clients, items, services)
    {
      var lidos: seq<Quote> := [];
      var i := 0;
      while i < |quotes|
        invariant 0 <= i <= |quotes|
        invariant MontarTodos(quotes[..i], clients, items, services) == Ok(lidos)
      {
        assert quotes[..i + 1][..i] == quotes[..i];
        var x := LerOrcamento(quotes[i]);
        if x.Err? {
          assert quotes[..i + 1][i] == quotes[i];
          MontarTodosErroPropaga(quotes, clients, items, services, i + 1);
          assert MontarTodos(quotes, clients, items, services).error.RowMissing?;
          return Err(RowMissing);
        }
        lidos := lidos + [x.value];
        i := i + 1;
      }
      assert quotes[..i] == quotes;
      r := Ok(lidos);
    }

    /**
     * `get_quote_by_id`: the first quote with that id, read back, or `None`;
     * reading fails when any quote of the sheet cannot be read.
     */
    method GetQuoteById(id: int) returns (r: Result<Option<Quote>, ExcelError>)
      ensures r.Err? <==> MontarTodos(quotes, clients, items, services).Err?
      ensures r.Ok? ==> (r.value.None? <==> forall i :: 0 <= i < |quotes| ==> quotes[i].id != id)
      ensures r.Ok? && r.value.Some? ==> exists i :: (
        && 0 <= i < |quotes| && quotes[i].id == id
        && (forall j :: 0 <= j < i ==> quotes[j].id != id)
        && Ok(r.value.value) == MontarOrcamento(quotes[i], clients, items, services))
    {
      var todos := GetAllQuotes();
      if todos.Err? {
        return Err(RowMissing);
      }
      var v := todos.value;
      var i := 0;
      while i < |quotes|
        invariant 0 <= i <= |quotes|
        invariant forall j :: 0 <= j < i ==> quotes[j].id != id
      {
        if quotes[i].id == id {
          MontarTodosCorreto(quotes, clients, items, services);
          assert Ok(v[i]) == MontarOrcamento(quotes[i], clients, items, services);
          return Ok(Some(v[i]));
        }
        i := i + 1;
      }
      r := Ok(None);
    }

    /**
     * `create_quote`: appends the quote row (new id, the month's next number,
     * total the sum of quantity times unit price) and saves it; then builds
     * the item rows, all under one item id, and saves them; then reads the
     * quote back. A missing service raises after the quote row was saved.
     */
    method CreateQuote(q: QuoteCreate, ano: nat, mes: nat, agora: int) returns (r: Result<Option<Quote>, ExcelError>)
      modifies this`quotes, this`items
      ensures var row := QuoteRow(ProximoId(IdsOrcamentos(old(quotes))), NumeroOrcamento(old(quotes), ano, mes),
                                  q.clientId, q.title, q.description, q.status, SomaPrecos(q.items), agora, agora);
        && quotes == old(quotes) + [row]
        && (q.items == [] ==> items == old(items))
        && (q.items != [] ==>
              var novos := NovosItens(q.items, ProximoId(IdsItens(old(items))), row.id, services, agora);
              && (novos.None? ==> r == Err(RowMissing) && items == old(items))
              && (novos.Some? ==> items == old(items) + novos.value))
        && (r.Ok? <==>
              && (q.items == [] || NovosItens(q.items, ProximoId(IdsItens(old(items))), row.id, services, agora).Some?)
              && MontarTodos(quotes, clients, items, services).Ok?)
        && (r.Ok? ==> r.value.Some? && Ok(r.value.value) == MontarOrcamento(row, clients, items, services))
    {
      var novoId := ProximoId(IdsOrcamentos(quotes));
      var row := QuoteRow(novoId, NumeroOrcamento(quotes, ano, mes), q.clientId, q.title, q.description, q.status,
        SomaPrecos(q.items), agora, agora);
      ghost var antes := quotes;
      quotes := quotes + [row];
      if q.items != [] {
        var novos := ConstruirItens(q.items, ProximoId(IdsItens(items)), novoId, agora);
        if novos.None? {
          return Err(RowMissing);
        }
        items := items + novos.value;
      }
      assert forall j :: 0 <= j < |antes| ==> quotes[j].id == IdsOrcamentos(antes)[j] < novoId;
      r := GetQuoteById(novoId);
    }

    /** The item loop of `create_quote` and `update_quote`. */
    method ConstruirItens(its: seq<QuoteItemCreate>, itemId: int, quoteId: int, agora: int)
      returns (r: Option<seq<ItemRow>>)
      ensures r == NovosItens(its, itemId, quoteId, services, agora)
    {
      var novos: seq<ItemRow> := [];
      var i := 0;
      while i < |its|
        invariant 0 <= i <= |its|
        invariant NovosItens(its[..i], itemId, quoteId, services, agora) == Some(novos)
      {
        assert its[..i + 1][..i] == its[..i];
        var s := ServicoPorId(services, its[i].serviceId);
        if s.None? {
          NovosItensFalhaPropaga(its, itemId, quoteId, services, agora, i + 1);
          return None;
        }
        novos := novos + [NovoItem(its[i], itemId, quoteId, s.value, agora)];
        i := i + 1;
      }
      assert its[..i] == its;
      r := Some(novos);
    }

    /**
     * `update_quote`: `None` for an unknown id. Sets the given fields; with
     * an item list, drops the quote's old items, and for a non-empty list
     * adds the new ones and saves the sheet, the total becoming the sum of
     * the new items' totals; an empty list leaves the saved item sheet as it
     * was and makes the total 0. A missing service raises inside the guarded
     * block, so nothing is saved and the answer is `None`. Otherwise the
     * answer is the updated quote read back from the sheets, and `None` when
     * they cannot be read.
     */
    method UpdateQuote(id: int, upd: QuoteUpdate, agora: int) returns (r: Option<Quote>)
      modifies this`quotes, this`items
      ensures (forall i :: 0 <= i < |old(quotes)| ==> old(quotes)[i].id != id) ==> r.None? && unchanged(this)
      ensures (exists i :: 0 <= i < |old(quotes)| && old(quotes)[i].id == id) ==>
        var k := Primeiro(old(quotes), (x: QuoteRow) => x.id == id).value;
        var campos := Campos(old(quotes)[k], upd);
        if upd.items.None? then
          quotes == old(quotes)[k := campos.(updatedAt := agora)] && items == old(items)
        else if upd.items.value == [] then
          quotes == old(quotes)[k := campos.(total := 0.0, updatedAt := agora)] && items == old(items)
        else
          var novos := NovosItens(upd.items.value, ProximoId(IdsItens(old(items))), id, services, agora);
          if novos.None? then
            r.None? && unchanged(this)
          else
            && quotes == old(quotes)[k := campos.(total := SomaTotais(novos.value), updatedAt := agora)]
            && items == SemItensDe(old(items), id) + novos.value
      ensures (exists i :: 0 <= i < |old(quotes)| && old(quotes)[i].id == id) &&
              !(upd.items.Some? && upd.items.value != [] &&
                NovosItens(upd.items.value, ProximoId(IdsItens(old(items))), id, services, agora).None?) ==>
        var k := Primeiro(old(quotes), (x: QuoteRow) => x.id == id).value;
        && (r.Some? <==> MontarTodos(quotes, clients, items, services).Ok?)
        && (r.Some? ==> Ok(r.value) == MontarOrcamento(quotes[k], clients, items, services))
    {
      var k := Primeiro(quotes, (x: QuoteRow) => x.id == id);
      if k.None? {
        return None;
      }
      var gravado := Gravar(k.value, upd, agora);
      if !gravado {
        return None;
      }
      r := LerDeVolta(id, k.value);
    }

    /**
     * The write step of `update_quote` on the row at `k`: the given fields, and
     * when items are given, the quote's items replaced and its total recomputed;
     * false, with nothing written, when a new item names an unknown service.
     */
    method Gravar(k: nat, upd: QuoteUpdate, agora: int) returns (ok: bool)
      requires k < |quotes|
      modifies this`quotes, this`items
      ensures var id, campos := old(quotes)[k].id, Campos(old(quotes)[k], upd);
        if upd.items.None? then
          ok && quotes == old(quotes)[k := campos.(updatedAt := agora)] && items == old(items)
        else if upd.items.value == [] then
          ok && quotes == old(quotes)[k := campos.(total := 0.0, updatedAt := agora)] && items == old(items)
        else
          var novos := NovosItens(upd.items.value, ProximoId(IdsItens(old(items))), id, services, agora);
          if novos.None? then
            !ok && unchanged(this)
          else
            && ok
            && quotes == old(quotes)[k := campos.(total := SomaTotais(novos.value), updatedAt := agora)]
            && items == SemItensDe(old(items), id) + novos.value
    {
      var id := quotes[k].id;
      var row := Campos(quotes[k], upd);
      if upd.items.Some? {
        var restantes := SemItensDe(items, id);
        var total := 0.0;
        if upd.items.value != [] {
          var novos := ConstruirItens(upd.items.value, ProximoId(IdsItens(items)), id, agora);
          if novos.None? {
            return false;
          }
          items := restantes + novos.value;
          total := SomaTotais(novos.value);
        }
        row := row.(total := total);
      }
      row := row.(updatedAt := agora);
      quotes := quotes[k := row];
      ok := true;
    }

    /**
     * The read-back that ends `update_quote`: the quote at `k`, the first row
     * with that id, as the sheets give it, or `None` when they cannot be read.
     */
    method LerDeVolta(id: int, k: nat) returns (r: Option<Quote>)
      requires k < |quotes| && quotes[k].id == id && forall j :: 0 <= j < k ==> quotes[j].id != id
      ensures r.Some? <==> MontarTodos(quotes, clients, items, services).Ok?
      ensures r.Some? ==> Ok(r.value) == MontarOrcamento(quotes[k], clients, items, services)
    {
      var lido := GetQuoteById(id);
      r := if lido.Ok? then lido.value else None;
    }

    /** `delete_quote`: false for an unknown id; otherwise removes that quote and exactly its items. */
    method DeleteQuote(id: int) returns (ok: bool)
      modifies this`quotes, this`items
      ensures ok <==> exists i :: 0 <= i < |old(quotes)| && old(quotes)[i].id == id
      ensures !ok ==> unchanged(this)
      ensures ok ==> quotes == SemOrcamento(old(quotes), id) && items == SemItensDe(old(items), id)
    {
      var k := Primeiro(quotes, (x: QuoteRow) => x.id == id);
      if k.None? {
        return false;
      }
      quotes := SemOrcamento(quotes, id);
      items := SemItensDe(items, id);
      ok := true;
    }
  }

  /** A quote row with the fields the caller set (everything but the items). */
  function Campos(q: QuoteRow, upd: QuoteUpdate): (r: QuoteRow)
    ensures r.id == q.id && r.quoteNumber == q.quoteNumber && r.clientId == q.clientId
    ensures r.total == q.total && r.createdAt == q.createdAt && r.updatedAt == q.updatedAt
    ensures r.title == (if upd.title.Some? then upd.title.value else q.title)
    ensures r.description == (if upd.description.Some? then upd.description.value else q.description)
    ensures r.status == (if upd.status.Some? then upd.status.value else q.status)
  {
    var q1 := if upd.title.Some? then q.(title := upd.title.value) else q;
    var q2 := if upd.description.Some? then q1.(description := upd.description.value) else q1;
    if upd.status.Some? then q2.(status := upd.status.value) else q2
  }

  /** An item that cannot be read makes every longer list unreadable. */
  lemma {:induction false} MontarItensErroPropaga(its: seq<ItemRow>, ss: seq<ServiceRow>, n: nat)
    requires n <= |its|
    requires MontarItens(its[..n], ss).Err?
    ensures MontarItens(its, ss).Err?
  {
    if n < |its| {
      var ini := its[..|its| - 1];
      assert ini[..n] == its[..n];
      MontarItensErroPropaga(ini, ss, n);
    } else {
      assert its[..n] == its;
    }
  }

  lemma {:induction false} MontarTodosErroPropaga(qs: seq<QuoteRow>, cs: seq<ClientRow>, its: seq<ItemRow>,
                                                  ss: seq<ServiceRow>, n: nat)
    requires n <= |qs|
    requires MontarTodos(qs[..n], cs, its, ss).Err?
    ensures MontarTodos(qs, cs, its, ss).Err?
  {
    if n < |qs| {
      var ini := qs[..|qs| - 1];
      assert ini[..n] == qs[..n];
      MontarTodosErroPropaga(ini, cs, its, ss, n);
    } else {
      assert qs[..n] == qs;
    }
  }

  lemma {:induction false} NovosItensFalhaPropaga(its: seq<QuoteItemCreate>, itemId: int, quoteId: int,
                                                  ss: seq<ServiceRow>, agora: int, n: nat)
    requires n <= |its|
    requires NovosItens(its[..n], itemId, quoteId, ss, agora).None?
    ensures NovosItens(its, itemId, quoteId, ss, agora).None?
  {
    if n < |its| {
      var ini := its[..|its| - 1];
      assert ini[..n] == its[..n];
      NovosItensFalhaPropaga(ini, itemId, quoteId, ss, agora, n);
    } else {
      assert its[..n] == its;
    }
  }
}
