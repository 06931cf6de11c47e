/**
 * The `/transactions` handlers: every handler runs on behalf of the
 * authenticated caller and only sees the caller's rows.
 */
module Transactions {
  import opened Basics
  import opened Sorting
  import opened Store

  /** The two kinds a client may send (the `TipoTransacao` enum). */
  datatype TipoTransacao = Receita | Despesa {
    /** The string stored in the `tipo` column. */
    function Name(): (s: string)
      ensures s == "receita" || s == "despesa"
      ensures Receita? <==> s == "receita"
    {
      match this
      case Receita => "receita"
      case Despesa => "despesa"
    }
  }

  /**
   * A row of the `transactions` table. `tipo` is the column's free string;
   * `data` is the calendar date as a day number, so that dates compare as
   * integers.
   */
  datatype Transaction = Transaction(tipo: string, valor: real, categoria: string, descricao: Option<string>, data: int)

  /** The create payload. */
  datatype TransactionCreate = TransactionCreate(tipo: TipoTransacao, valor: real, categoria: string, descricao: Option<string>, data: int)

  /**
   * The update payload: `None` is a field the client did not send. For the
   * nullable `descricao`, `Some(None)` is an explicit null.
   */
  datatype TransactionUpdate = TransactionUpdate(
    tipo: Option<TipoTransacao>, valor: Option<real>, categoria: Option<string>,
    descricao: Option<Option<string>>, data: Option<int>)

  datatype Summary = Summary(receitas: real, despesas: real, saldo: real)

  type Entry = (int, Transaction)

  const NotFound := HttpError(404, "Transação não encontrada")

  /** The row a create payload becomes. */
  function FromCreate(c: TransactionCreate): (t: Transaction)
    ensures t.tipo == c.tipo.Name() && t.valor == c.valor && t.categoria == c.categoria
    ensures t.descricao == c.descricao && t.data == c.data
  {
    Transaction(c.tipo.Name(), c.valor, c.categoria, c.descricao, c.data)
  }

  /** The sum of `valor` over the entries whose `tipo` is `kind`. */
  function SumKind(s: seq<Entry>, kind: string): real
  {
    if s == [] then 0.0
    else (if s[0].1.tipo == kind then s[0].1.valor else 0.0) + SumKind(s[1..], kind)
  }

  lemma {:induction false} SumKindAppend(a: seq<Entry>, b: seq<Entry>, kind: string)
    ensures SumKind(a + b, kind) == SumKind(a, kind) + SumKind(b, kind)
  {
    if a == [] {
      assert a + b == b;
    } else {
      assert (a + b)[0] == a[0] && (a + b)[1..] == a[1..] + b;
      SumKindAppend(a[1..], b, kind);
    }
  }

  /** The summary of a list of entries, as `get_summary` computes it. */
  function SummaryOf(s: seq<Entry>): (r: Summary)
    ensures r.saldo == r.receitas - r.despesas
  {
    var receitas := SumKind(s, "receita");
    var despesas := SumKind(s, "despesa");
    Summary(receitas, despesas, receitas - despesas)
  }

  /** Records of any other `tipo` are counted in neither sum. */
  lemma OtherKindsNotCounted(s: seq<Entry>, e: Entry)
    requires e.1.tipo != "receita" && e.1.tipo != "despesa"
    ensures SummaryOf(s + [e]) == SummaryOf(s)
  {
    SumKindAppend(s, [e], "receita");
    SumKindAppend(s, [e], "despesa");
  }

  /** The partial update: a field the client sent replaces the stored one, any other is kept. */
  function ApplyUpdate(t: Transaction, u: TransactionUpdate): (r: Transaction)
    ensures r.tipo == (if u.tipo.Some? then u.tipo.value.Name() else t.tipo)
    ensures r.valor == u.valor.GetOr(t.valor) && r.categoria == u.categoria.GetOr(t.categoria)
    ensures r.descricao == u.descricao.GetOr(t.descricao) && r.data == u.data.GetOr(t.data)
  {
    Transaction(
      if u.tipo.Some? then u.tipo.value.Name() else t.tipo,
      u.valor.GetOr(t.valor), u.categoria.GetOr(t.categoria),
      u.descricao.GetOr(t.descricao), u.data.GetOr(t.data))
  }

  /** The same payload sent twice changes nothing the second time. */
  lemma UpdateIdempotent(t: Transaction, u: TransactionUpdate)
    ensures ApplyUpdate(ApplyUpdate(t, u), u) == ApplyUpdate(t, u)
  {
  }

  /** `GET /transactions/{id}`. */
  function GetTransaction(db: Store.Table<Transaction>, user: int, id: int): (r: Result<Transaction>)
    reads db
    ensures r.Ok? <==> id in db.rows && db.rows[id].owner == user
    ensures r.Ok? ==> db.rows[id] == Row(user, r.value)
    ensures r.Err? ==> r.error == NotFound
  {
    match db.Find(user, id)
    case Some(t) => Ok(t)
    case None => Err(NotFound)
  }

  /** Sort key of `order_by(data.desc())`. */
  function NewestFirst(e: Entry): real
  {
    -(e.1.data as real)
  }

  /** Sorting by `NewestFirst` orders by date, descending, and keeps the entries and their distinct ids. */
  lemma SortNewestFirst(owned: seq<Entry>)
    requires DistinctKeys(owned)
    ensures forall i, j :: 0 <= i < j < |SortBy(owned, NewestFirst)| ==>
      SortBy(owned, NewestFirst)[i].1.data >= SortBy(owned, NewestFirst)[j].1.data
    ensures forall e :: e in SortBy(owned, NewestFirst) <==> e in owned
    ensures DistinctKeys(SortBy(owned, NewestFirst))
  {
    var r := SortBy(owned, NewestFirst);
    SortKeepsDistinctKeys(owned, NewestFirst);
    forall e ensures e in r <==> e in owned {
      SortByMembers(owned, NewestFirst, e);
    }
    assert forall i, j :: 0 <= i < j < |r| ==> NewestFirst(r[i]) <= NewestFirst(r[j]);
  }

  /** `GET /transactions`: exactly the caller's rows, each once, most recent date first. */
  function ListTransactions(db: Store.Table<Transaction>, user: int): (r: seq<Entry>)
    reads db
    requires db.Valid()
    ensures forall i, j :: 0 <= i < j < |r| ==> r[i].1.data >= r[j].1.data
    ensures forall id, t :: (id, t) in r <==> id in db.rows && db.rows[id] == Row(user, t)
    ensures multiset(r) == multiset(db.OwnedBy(user))
    ensures DistinctKeys(r) && |r| == |db.OwnedIds(user)|
  {
    var owned := db.OwnedBy(user);
    SortNewestFirst(owned);
    SortBy(owned, NewestFirst)
  }

  /** `GET /transactions/summary`: the sums over the caller's rows by `tipo`. */
  function GetSummary(db: Store.Table<Transaction>, user: int): (r: Summary)
    reads db
    requires db.Valid()
    ensures r.receitas == SumKind(db.OwnedBy(user), "receita")
    ensures r.despesas == SumKind(db.OwnedBy(user), "despesa")
    ensures r.saldo == r.receitas - r.despesas
  {
    SummaryOf(db.OwnedBy(user))
  }

  /** Other users' rows never affect a user's summary. */
  lemma SummaryIgnoresOtherUsers(rows1: map<int, Row<Transaction>>, rows2: map<int, Row<Transaction>>, user: int, n: int)
    requires forall id :: 0 <= id < n ==>
      ((id in rows1 && rows1[id].owner == user) <==> (id in rows2 && rows2[id].owner == user))
    requires forall id :: 0 <= id < n && id in rows1 && rows1[id].owner == user ==> rows1[id] == rows2[id]
    ensures SummaryOf(Owned(rows1, user, n)) == SummaryOf(Owned(rows2, user, n))
  {
    OwnedDependsOnlyOnOwner(rows1, rows2, user, n);
  }

  /** Creating a transaction adds its value to its owner's sum of its kind and to nobody else's. */
  lemma {:induction false} SummaryAfterCreate(rows: map<int, Row<Transaction>>, n: int, owner: int, t: Transaction, user: int)
    requires n >= 0
    requires forall id :: id in rows ==> id < n
    ensures var before := SummaryOf(Owned(rows, user, n));
            var after := SummaryOf(Owned(rows[n := Row(owner, t)], user, n + 1));
            after.receitas == before.receitas + (if owner == user && t.tipo == "receita" then t.valor else 0.0) &&
            after.despesas == before.despesas + (if owner == user && t.tipo == "despesa" then t.valor else 0.0)
  {
    OwnedAfterAdd(rows, n, owner, t, user);
    var tail: seq<Entry> := if owner == user then [(n, t)] else [];
    SumKindAppend(Owned(rows, user, n), tail, "receita");
    SumKindAppend(Owned(rows, user, n), tail, "despesa");
  }

  /** `POST /transactions`: stores the payload under the caller and returns the new row. */
  method CreateTransaction(db: Store.Table<Transaction>, user: int, c: TransactionCreate) returns (id: int, t: Transaction)
    requires db.Valid()
    modifies db
    ensures db.Valid() && id !in old(db.rows)
    ensures t == FromCreate(c) && db.rows == old(db.rows)[id := Row(user, t)]
    ensures GetTransaction(db, user, id) == Ok(t)
  {
    t := FromCreate(c);
    id := db.Add(user, t);
  }

  /** `PUT /transactions/{id}`: 404 for absent or foreign ids, otherwise a partial update of that row only. */
  method UpdateTransaction(db: Store.Table<Transaction>, user: int, id: int, u: TransactionUpdate) returns (r: Result<Transaction>)
    requires db.Valid()
    modifies db
    ensures db.Valid() && db.nextId == old(db.nextId)
    ensures old(db.Find(user, id)).None? ==> r == Err(NotFound) && db.rows == old(db.rows)
    ensures old(db.Find(user, id)).Some? ==>
      var t := ApplyUpdate(old(db.Find(user, id)).value, u);
      r == Ok(t) && db.rows == old(db.rows)[id := Row(user, t)]
  {
    var found := db.Find(user, id);
    if found.None? {
      return Err(NotFound);
    }
    var t := ApplyUpdate(found.value, u);
    db.Put(id, t);
    r := Ok(t);
  }

  /** `DELETE /transactions/{id}`: 404 for absent or foreign ids, otherwise removes exactly that row. */
  method DeleteTransaction(db: Store.Table<Transaction>, user: int, id: int) returns (r: Result<string>)
    requires db.Valid()
    modifies db
    ensures db.Valid() && db.nextId == old(db.nextId)
    ensures old(db.Find(user, id)).None? ==> r == Err(NotFound) && db.rows == old(db.rows)
    ensures old(db.Find(user, id)).Some? ==>
      r == Ok("Transação excluída com sucesso") && db.rows == old(db.rows) - {id}
  {
    var found := db.Find(user, id);
    if found.None? {
      return Err(NotFound);
    }
    db.Remove(id);
    r := Ok("Transação excluída com sucesso");
  }
}
