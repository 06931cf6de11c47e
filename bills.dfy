/** The `/contas-fixas` handlers over the caller's recurring bills. */
module Bills {
  import opened Basics
  import opened Sorting
  import opened Store

  /** A row of `contas_fixas`. */
  datatype ContaFixa = ContaFixa(
    nome: string, valor: real, diaVencimento: int, categoria: string, pago: bool,
    mesReferencia: int, anoReferencia: int, parcelaAtual: int, parcelaTotal: int, moeda: string)

  /** The create payload. */
  datatype ContaFixaCreate = ContaFixaCreate(
    nome: string, valor: real, diaVencimento: int, categoria: string, parcelaAtual: int, parcelaTotal: int,
    moeda: string, mesReferencia: int, anoReferencia: int)

  /** The update payload: `None` is a field the client did not send. */
  datatype ContaFixaUpdate = ContaFixaUpdate(
    nome: Option<string>, valor: Option<real>, diaVencimento: Option<int>, categoria: Option<string>,
    pago: Option<bool>, parcelaAtual: Option<int>, parcelaTotal: Option<int>, moeda: Option<string>)

  type Entry = (int, ContaFixa)

  const NotFound := HttpError(404, "Conta não encontrada")
  /** The column default of `moeda`; the create handler does not copy the payload's `moeda`. */
  const DefaultMoeda := "BRL"
  const DefaultCategoria := "Geral"

  /** The payload of a client that sends only the required fields. */
  function MinimalCreate(nome: string, valor: real, diaVencimento: int, mesReferencia: int, anoReferencia: int): (c: ContaFixaCreate)
    ensures c.categoria == DefaultCategoria && c.parcelaAtual == 1 && c.parcelaTotal == 1 && c.moeda == DefaultMoeda
    ensures c.nome == nome && c.valor == valor && c.diaVencimento == diaVencimento
    ensures c.mesReferencia == mesReferencia && c.anoReferencia == anoReferencia
  {
    ContaFixaCreate(nome, valor, diaVencimento, DefaultCategoria, 1, 1, DefaultMoeda, mesReferencia, anoReferencia)
  }

  /** The row a create payload becomes: not paid yet, in the default currency. */
  function FromCreate(c: ContaFixaCreate): (b: ContaFixa)
    ensures !b.pago && b.moeda == DefaultMoeda
    ensures b.nome == c.nome && b.valor == c.valor && b.diaVencimento == c.diaVencimento && b.categoria == c.categoria
    ensures b.mesReferencia == c.mesReferencia && b.anoReferencia == c.anoReferencia
    ensures b.parcelaAtual == c.parcelaAtual && b.parcelaTotal == c.parcelaTotal
  {
    ContaFixa(c.nome, c.valor, c.diaVencimento, c.categoria, false, c.mesReferencia, c.anoReferencia,
              c.parcelaAtual, c.parcelaTotal, DefaultMoeda)
  }

  /** A query parameter filters only when it is given and not 0 (Python truthiness). */
  predicate Truthy(p: Option<int>)
  {
    p.Some? && p.value != 0
  }

  predicate MatchesPeriod(b: ContaFixa, mes: Option<int>, ano: Option<int>)
  {
    (Truthy(mes) ==> b.mesReferencia == mes.value) && (Truthy(ano) ==> b.anoReferencia == ano.value)
  }

  /** The entries of `s` in the requested period, in their order. */
  function FilterPeriod(s: seq<Entry>, mes: Option<int>, ano: Option<int>): (r: seq<Entry>)
    ensures forall e :: e in r <==> e in s && MatchesPeriod(e.1, mes, ano)
    ensures DistinctKeys(s) ==> DistinctKeys(r)
  {
    if s == [] then []
    else
      var rest := FilterPeriod(s[1..], mes, ano);
      assert DistinctKeys(s) ==> forall e :: e in rest ==> e.0 != s[0].0 by {
        forall k | 0 <= k < |s[1..]| ensures s[1..][k] == s[k + 1] {}
      }
      (if MatchesPeriod(s[0].1, mes, ano) then [s[0]] else []) + rest
  }

  /** Sort key of `order_by(dia_vencimento)`. */
  function DueDay(e: Entry): real
  {
    e.1.diaVencimento as real
  }

  /** `GET /contas-fixas?mes=&ano=`: the caller's bills of the period, earliest due day first. */
  function ListContasFixas(db: Store.Table<ContaFixa>, user: int, mes: Option<int>, ano: Option<int>): (r: seq<Entry>)
    reads db
    requires db.Valid()
    ensures forall id, b :: (id, b) in r <==>
      id in db.rows && db.rows[id] == Row(user, b) && MatchesPeriod(b, mes, ano)
    ensures forall i, j :: 0 <= i < j < |r| ==> r[i].1.diaVencimento <= r[j].1.diaVencimento
    ensures DistinctKeys(r)
  {
    var selected := FilterPeriod(db.OwnedBy(user), mes, ano);
    var r := SortBy(selected, DueDay);
    SortKeepsDistinctKeys(selected, DueDay);
    forall e ensures e in r <==> e in selected {
      SortByMembers(selected, DueDay, e);
    }
    assert forall i, j :: 0 <= i < j < |r| ==> DueDay(r[i]) <= DueDay(r[j]);
    r
  }

  /** Without filters the list holds every bill of the caller. */
  lemma UnfilteredListsAll(db: Store.Table<ContaFixa>, user: int, id: int)
    requires db.Valid()
    requires id in db.rows && db.rows[id].owner == user
    ensures (id, db.rows[id].data) in ListContasFixas(db, user, None, Some(0))
  {
  }

  /** `not conta.pago`. */
  function Toggled(b: ContaFixa): (r: ContaFixa)
    ensures r.pago == !b.pago
    ensures r.(pago := b.pago) == b
  {
    b.(pago := !b.pago)
  }

  /** Toggling twice restores the bill. */
  lemma ToggleTwice(b: ContaFixa)
    ensures Toggled(Toggled(b)) == b
  {
  }

  /** The partial update: a field the client sent replaces the stored one, any other is kept. */
  function ApplyUpdate(b: ContaFixa, u: ContaFixaUpdate): (r: ContaFixa)
    ensures r.nome == u.nome.GetOr(b.nome) && r.valor == u.valor.GetOr(b.valor)
    ensures r.diaVencimento == u.diaVencimento.GetOr(b.diaVencimento) && r.categoria == u.categoria.GetOr(b.categoria)
    ensures r.pago == u.pago.GetOr(b.pago) && r.moeda == u.moeda.GetOr(b.moeda)
    ensures r.parcelaAtual == u.parcelaAtual.GetOr(b.parcelaAtual) && r.parcelaTotal == u.parcelaTotal.GetOr(b.parcelaTotal)
    ensures r.mesReferencia == b.mesReferencia && r.anoReferencia == b.anoReferencia
  {
    ContaFixa(u.nome.GetOr(b.nome), u.valor.GetOr(b.valor), u.diaVencimento.GetOr(b.diaVencimento),
              u.categoria.GetOr(b.categoria), u.pago.GetOr(b.pago), b.mesReferencia, b.anoReferencia,
              u.parcelaAtual.GetOr(b.parcelaAtual), u.parcelaTotal.GetOr(b.parcelaTotal), u.moeda.GetOr(b.moeda))
  }

  /** `POST /contas-fixas`. */
  method CreateContaFixa(db: Store.Table<ContaFixa>, user: int, c: ContaFixaCreate) returns (id: int, b: ContaFixa)
    requires db.Valid()
    modifies db
    ensures db.Valid() && id !in old(db.rows)
    ensures b == FromCreate(c) && db.rows == old(db.rows)[id := Row(user, b)]
  {
    b := FromCreate(c);
    id := db.Add(user, b);
  }

  /** `PUT /contas-fixas/{id}`. */
  method UpdateContaFixa(db: Store.Table<ContaFixa>, user: int, id: int, u: ContaFixaUpdate) returns (r: Result<ContaFixa>)
    requires db.Valid()
    modifies db
    ensures db.Valid() && db.nextId == old(db.nextId)
    ensures old(db.Find(user, id)).None? ==> r == Err(NotFound) && db.rows == old(db.rows)
    ensures old(db.Find(user, id)).Some? ==>
      var b := ApplyUpdate(old(db.Find(user, id)).value, u);
      r == Ok(b) && db.rows == old(db.rows)[id := Row(user, b)]
  {
    var found := db.Find(user, id);
    if found.None? {
      return Err(NotFound);
    }
    var b := ApplyUpdate(found.value, u);
    db.Put(id, b);
    r := Ok(b);
  }

  /** `PATCH /contas-fixas/{id}/toggle-pago`. */
  method TogglePago(db: Store.Table<ContaFixa>, user: int, id: int) returns (r: Result<ContaFixa>)
    requires db.Valid()
    modifies db
    ensures db.Valid() && db.nextId == old(db.nextId)
    ensures old(db.Find(user, id)).None? ==> r == Err(NotFound) && db.rows == old(db.rows)
    ensures old(db.Find(user, id)).Some? ==>
      var b := Toggled(old(db.Find(user, id)).value);
      r == Ok(b) && db.rows == old(db.rows)[id := Row(user, b)]
  {
    var found := db.Find(user, id);
    if found.None? {
      return Err(NotFound);
    }
    var b := Toggled(found.value);
    db.Put(id, b);
    r := Ok(b);
  }

  /** `DELETE /contas-fixas/{id}`. */
  method DeleteContaFixa(db: Store.Table<ContaFixa>, user: int, id: int) returns (r: Result<string>)
    requires db.Valid()
    modifies db
    ensures db.Valid() && db.nextId == old(db.nextId)
    ensures old(db.Find(user, id)).None? ==> r == Err(NotFound) && db.rows == old(db.rows)
    ensures old(db.Find(user, id)).Some? ==>
      r == Ok("Conta excluída com sucesso") && db.rows == old(db.rows) - {id}
  {
    var found := db.Find(user, id);
    if found.None? {
      return Err(NotFound);
    }
    db.Remove(id);
    r := Ok("Conta excluída com sucesso");
  }
}
