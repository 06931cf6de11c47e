/** The `/investimentos` handlers over the caller's investments. */
module Investments {
  import opened Basics
  import opened Store

  /** A row of `investimentos`. */
  datatype Investimento = Investimento(
    nome: string, tipo: string, valorInvestido: real, valorAtual: real, quantidade: real, ticker: Option<string>)

  /** The create payload (its `moeda` has no column and is not stored). */
  datatype InvestimentoCreate = InvestimentoCreate(
    nome: string, tipo: string, valorInvestido: real, valorAtual: real, quantidade: real, ticker: Option<string>)

  /** The update payload: `None` is a field not sent; for the nullable `ticker`, `Some(None)` is an explicit null. */
  datatype InvestimentoUpdate = InvestimentoUpdate(
    nome: Option<string>, tipo: Option<string>, valorInvestido: Option<real>, valorAtual: Option<real>,
    quantidade: Option<real>, ticker: Option<Option<string>>)

  datatype Resumo = Resumo(totalInvestido: real, totalAtual: real, rentabilidade: real, quantidade: int)

  type Entry = (int, Investimento)

  const NotFound := HttpError(404, "Investimento não encontrado")

  /** The payload of a client that sends only the required fields: one unit, no ticker. */
  function MinimalCreate(nome: string, tipo: string, valorInvestido: real, valorAtual: real): (c: InvestimentoCreate)
    ensures c.quantidade == 1.0 && c.ticker.None?
    ensures c.nome == nome && c.tipo == tipo && c.valorInvestido == valorInvestido && c.valorAtual == valorAtual
  {
    InvestimentoCreate(nome, tipo, valorInvestido, valorAtual, 1.0, None)
  }

  function FromCreate(c: InvestimentoCreate): (i: Investimento)
    ensures i.nome == c.nome && i.tipo == c.tipo && i.valorInvestido == c.valorInvestido
    ensures i.valorAtual == c.valorAtual && i.quantidade == c.quantidade && i.ticker == c.ticker
  {
    Investimento(c.nome, c.tipo, c.valorInvestido, c.valorAtual, c.quantidade, c.ticker)
  }

  function SumInvested(s: seq<Entry>): real
  {
    if s == [] then 0.0 else s[0].1.valorInvestido + SumInvested(s[1..])
  }

  function SumCurrent(s: seq<Entry>): real
  {
    if s == [] then 0.0 else s[0].1.valorAtual + SumCurrent(s[1..])
  }

  lemma {:induction false} SumsAppend(a: seq<Entry>, b: seq<Entry>)
    ensures SumInvested(a + b) == SumInvested(a) + SumInvested(b)
    ensures SumCurrent(a + b) == SumCurrent(a) + SumCurrent(b)
  {
    if a == [] {
      assert a + b == b;
    } else {
      assert (a + b)[0] == a[0] && (a + b)[1..] == a[1..] + b;
      SumsAppend(a[1..], b);
    }
  }

  /** The summary of a list of investments, as `get_resumo` computes it. */
  function ResumoOf(s: seq<Entry>): (r: Resumo)
    ensures r.totalInvestido == SumInvested(s) && r.totalAtual == SumCurrent(s) && r.quantidade == |s|
    ensures r.totalInvestido > 0.0 ==> r.rentabilidade * r.totalInvestido == (r.totalAtual - r.totalInvestido) * 100.0
    ensures r.totalInvestido <= 0.0 ==> r.rentabilidade == 0.0
  {
    var investido := SumInvested(s);
    var atual := SumCurrent(s);
    var rentabilidade := if investido > 0.0 then (atual - investido) / investido * 100.0 else 0.0;
    Resumo(investido, atual, rentabilidade, |s|)
  }

  /** `GET /investimentos`: exactly the caller's investments (the query sets no order; this is id order). */
  function ListInvestimentos(db: Store.Table<Investimento>, user: int): (r: seq<Entry>)
    reads db
    requires db.Valid()
    ensures forall id, i :: (id, i) in r <==> id in db.rows && db.rows[id] == Row(user, i)
    ensures forall k, l :: 0 <= k < l < |r| ==> r[k].0 < r[l].0
  {
    db.OwnedBy(user)
  }

  /** `GET /investimentos/resumo`. */
  function GetResumo(db: Store.Table<Investimento>, user: int): (r: Resumo)
    reads db
    requires db.Valid()
    ensures r.totalInvestido == SumInvested(ListInvestimentos(db, user))
    ensures r.totalAtual == SumCurrent(ListInvestimentos(db, user))
    ensures r.quantidade == |ListInvestimentos(db, user)| == |db.OwnedIds(user)|
    ensures r.totalInvestido > 0.0 ==> r.rentabilidade * r.totalInvestido == (r.totalAtual - r.totalInvestido) * 100.0
    ensures r.totalInvestido <= 0.0 ==> r.rentabilidade == 0.0
  {
    ResumoOf(db.OwnedBy(user))
  }

  /** A new investment adds its two values to its owner's totals and one to the count, and changes nobody else's summary. */
  lemma {:induction false} ResumoAfterCreate(rows: map<int, Row<Investimento>>, n: int, owner: int, x: Investimento, user: int)
    requires n >= 0
    requires forall id :: id in rows ==> id < n
    ensures var before := ResumoOf(Owned(rows, user, n));
            var after := ResumoOf(Owned(rows[n := Row(owner, x)], user, n + 1));
            if owner == user then
              after.totalInvestido == before.totalInvestido + x.valorInvestido &&
              after.totalAtual == before.totalAtual + x.valorAtual &&
              after.quantidade == before.quantidade + 1
            else after == before
  {
    OwnedAfterAdd(rows, n, owner, x, user);
    if owner == user {
      SumsAppend(Owned(rows, user, n), [(n, x)]);
    } else {
      assert Owned(rows, user, n) + [] == Owned(rows, user, n);
    }
  }

  /** The partial update: a field the client sent replaces the stored one, any other is kept. */
  function ApplyUpdate(i: Investimento, u: InvestimentoUpdate): (r: Investimento)
    ensures r.nome == u.nome.GetOr(i.nome) && r.tipo == u.tipo.GetOr(i.tipo)
    ensures r.valorInvestido == u.valorInvestido.GetOr(i.valorInvestido) && r.valorAtual == u.valorAtual.GetOr(i.valorAtual)
    ensures r.quantidade == u.quantidade.GetOr(i.quantidade) && r.ticker == u.ticker.GetOr(i.ticker)
  {
    Investimento(u.nome.GetOr(i.nome), u.tipo.GetOr(i.tipo), u.valorInvestido.GetOr(i.valorInvestido),
                 u.valorAtual.GetOr(i.valorAtual), u.quantidade.GetOr(i.quantidade), u.ticker.GetOr(i.ticker))
  }

  /** `POST /investimentos`. */
  method CreateInvestimento(db: Store.Table<Investimento>, user: int, c: InvestimentoCreate) returns (id: int, i: Investimento)
    requires db.Valid()
    modifies db
    ensures db.Valid() && id !in old(db.rows)
    ensures i == FromCreate(c) && db.rows == old(db.rows)[id := Row(user, i)]
  {
    i := FromCreate(c);
    id := db.Add(user, i);
  }

  /** `PUT /investimentos/{id}`. */
  method UpdateInvestimento(db: Store.Table<Investimento>, user: int, id: int, u: InvestimentoUpdate) returns (r: Result<Investimento>)
    requires db.Valid()
    modifies db
    ensures db.Valid() && db.nextId == old(db.nextId)
    ensures old(db.Find(user, id)).None? ==> r == Err(NotFound) && db.rows == old(db.rows)
    ensures old(db.Find(user, id)).Some? ==>
      var i := ApplyUpdate(old(db.Find(user, id)).value, u);
      r == Ok(i) && db.rows == old(db.rows)[id := Row(user, i)]
  {
    var found := db.Find(user, id);
    if found.None? {
      return Err(NotFound);
    }
    var i := ApplyUpdate(found.value, u);
    db.Put(id, i);
    r := Ok(i);
  }

  /** `DELETE /investimentos/{id}`. */
  method DeleteInvestimento(db: Store.Table<Investimento>, user: int, id: int) returns (r: Result<string>)
    requires db.Valid()
    modifies db
    ensures db.Valid() && db.nextId == old(db.nextId)
    ensures old(db.Find(user, id)).None? ==> r == Err(NotFound) && db.rows == old(db.rows)
    ensures old(db.Find(user, id)).Some? ==>
      r == Ok("Investimento excluído com sucesso") && db.rows == old(db.rows) - {id}
  {
    var found := db.Find(user, id);
    if found.None? {
      return Err(NotFound);
    }
    db.Remove(id);
    r := Ok("Investimento excluído com sucesso");
  }
}
