/** The `/metas` handlers over the caller's savings goals. */
module Goals {
  import opened Basics
  import opened Store

  /** A row of `metas`; `dataLimite` is a day number or absent. */
  datatype Meta = Meta(
    nome: string, valorAlvo: real, valorAtual: real, categoria: string, cor: string,
    dataLimite: Option<int>, moeda: string)

  /** The create payload. */
  datatype MetaCreate = MetaCreate(
    nome: string, valorAlvo: real, categoria: string, cor: string, dataLimite: Option<int>, moeda: string)

  /** The update payload: `None` is a field the client did not send; `dataLimite` may also be sent as null. */
  datatype MetaUpdate = MetaUpdate(
    nome: Option<string>, valorAlvo: Option<real>, valorAtual: Option<real>, categoria: Option<string>,
    cor: Option<string>, dataLimite: Option<Option<int>>, moeda: Option<string>)

  type Entry = (int, Meta)

  const NotFound := HttpError(404, "Meta não encontrada")
  const DefaultCor := "#10b981"
  const DefaultCategoria := "Geral"
  /** The column default of `moeda`; the create handler does not copy the payload's `moeda`. */
  const DefaultMoeda := "BRL"

  /** The payload of a client that sends only the required fields. */
  function MinimalCreate(nome: string, valorAlvo: real): (c: MetaCreate)
    ensures c.categoria == DefaultCategoria && c.cor == DefaultCor && c.dataLimite.None?
    ensures c.nome == nome && c.valorAlvo == valorAlvo
  {
    MetaCreate(nome, valorAlvo, DefaultCategoria, DefaultCor, None, DefaultMoeda)
  }

  /** The row a create payload becomes: nothing saved yet, in the default currency. */
  function FromCreate(c: MetaCreate): (m: Meta)
    ensures m.valorAtual == 0.0 && m.moeda == DefaultMoeda
    ensures m.nome == c.nome && m.valorAlvo == c.valorAlvo && m.categoria == c.categoria
    ensures m.cor == c.cor && m.dataLimite == c.dataLimite
  {
    Meta(c.nome, c.valorAlvo, 0.0, c.categoria, c.cor, c.dataLimite, DefaultMoeda)
  }

  /** `GET /metas`: exactly the caller's goals. */
  function ListMetas(db: Store.Table<Meta>, user: int): (r: seq<Entry>)
    reads db
    requires db.Valid()
    ensures forall id, m :: (id, m) in r <==> id in db.rows && db.rows[id] == Row(user, m)
    ensures forall i, j :: 0 <= i < j < |r| ==> r[i].0 < r[j].0
  {
    var r := db.OwnedBy(user);
    assert r == Owned(db.rows, user, db.nextId);
    r
  }

  /** The partial update: a field the client sent replaces the stored one, any other is kept. */
  function ApplyUpdate(m: Meta, u: MetaUpdate): (r: Meta)
    ensures r.nome == u.nome.GetOr(m.nome) && r.valorAlvo == u.valorAlvo.GetOr(m.valorAlvo)
    ensures r.valorAtual == u.valorAtual.GetOr(m.valorAtual) && r.categoria == u.categoria.GetOr(m.categoria)
    ensures r.cor == u.cor.GetOr(m.cor) && r.dataLimite == u.dataLimite.GetOr(m.dataLimite)
    ensures r.moeda == u.moeda.GetOr(m.moeda)
  {
    Meta(u.nome.GetOr(m.nome), u.valorAlvo.GetOr(m.valorAlvo), u.valorAtual.GetOr(m.valorAtual),
         u.categoria.GetOr(m.categoria), u.cor.GetOr(m.cor), u.dataLimite.GetOr(m.dataLimite),
         u.moeda.GetOr(m.moeda))
  }

  /** `meta.valor_atual += valor`: only the saved amount changes. */
  function AddValue(m: Meta, valor: real): (r: Meta)
    ensures r.valorAtual - m.valorAtual == valor
    ensures r.(valorAtual := m.valorAtual) == m
  {
    m.(valorAtual := m.valorAtual + valor)
  }

  /** Two deposits amount to one of their sum. */
  lemma AddValueTwice(m: Meta, a: real, b: real)
    ensures AddValue(AddValue(m, a), b) == AddValue(m, a + b)
  {
  }

  /** A deposit is an update that sends only `valor_atual`. */
  lemma AddValueIsUpdate(m: Meta, valor: real)
    ensures AddValue(m, valor) == ApplyUpdate(m, MetaUpdate(None, None, Some(m.valorAtual + valor), None, None, None, None))
  {
  }

  /** `POST /metas`. */
  method CreateMeta(db: Store.Table<Meta>, user: int, c: MetaCreate) returns (id: int, m: Meta)
    requires db.Valid()
    modifies db
    ensures db.Valid() && id !in old(db.rows)
    ensures m == FromCreate(c) && db.rows == old(db.rows)[id := Row(user, m)]
  {
    m := FromCreate(c);
    id := db.Add(user, m);
  }

  /** `PUT /metas/{id}`. */
  method UpdateMeta(db: Store.Table<Meta>, user: int, id: int, u: MetaUpdate) returns (r: Result<Meta>)
    requires db.Valid()
    modifies db
    ensures db.Valid() && db.nextId == old(db.nextId)
    ensures old(db.Find(user, id)).None? ==> r == Err(NotFound) && db.rows == old(db.rows)
    ensures old(db.Find(user, id)).Some? ==>
      var m := ApplyUpdate(old(db.Find(user, id)).value, u);
      r == Ok(m) && db.rows == old(db.rows)[id := Row(user, m)]
  {
    var found := db.Find(user, id);
    if found.None? {
      return Err(NotFound);
    }
    var m := ApplyUpdate(found.value, u);
    db.Put(id, m);
    r := Ok(m);
  }

  /** `PATCH /metas/{id}/adicionar?valor=`. */
  method AdicionarValor(db: Store.Table<Meta>, user: int, id: int, valor: real) returns (r: Result<Meta>)
    requires db.Valid()
    modifies db
    ensures db.Valid() && db.nextId == old(db.nextId)
    ensures old(db.Find(user, id)).None? ==> r == Err(NotFound) && db.rows == old(db.rows)
    ensures old(db.Find(user, id)).Some? ==>
      var m := AddValue(old(db.Find(user, id)).value, valor);
      r == Ok(m) && db.rows == old(db.rows)[id := Row(user, m)]
  {
    var found := db.Find(user, id);
    if found.None? {
      return Err(NotFound);
    }
    var m := AddValue(found.value, valor);
    db.Put(id, m);
    r := Ok(m);
  }

  /** `DELETE /metas/{id}`. */
  method DeleteMeta(db: Store.Table<Meta>, user: int, id: int) returns (r: Result<string>)
    requires db.Valid()
    modifies db
    ensures db.Valid() && db.nextId == old(db.nextId)
    ensures old(db.Find(user, id)).None? ==> r == Err(NotFound) && db.rows == old(db.rows)
    ensures old(db.Find(user, id)).Some? ==>
      r == Ok("Meta excluída com sucesso") && db.rows == old(db.rows) - {id}
  {
    var found := db.Find(user, id);
    if found.None? {
      return Err(NotFound);
    }
    db.Remove(id);
    r := Ok("Meta excluída com sucesso");
  }
}
