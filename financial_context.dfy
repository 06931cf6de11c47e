/**
 * The financial context the assistant chat is given about a user: a summary
 * of the user's most recent transactions, their expenses grouped by
 * category, and the latest few transactions.
 */
module FinancialContext {
  import opened Basics
  import opened Sorting
  import opened Store
  import opened Transactions

  /** The whole context when the user has no transactions. */
  const NoTransactionsText := "O usuário ainda não possui transações registradas."
  /** How many of the most recent transactions are considered. */
  const WindowSize := 50
  /** How many transactions are listed one by one. */
  const LineCount := 10
  const NoDescription := "Sem descrição"

  /** One listed transaction: date, sign ("+" for income, "-" otherwise), value, category, description. */
  datatype Line = Line(data: int, sinal: string, valor: real, categoria: string, descricao: string)

  /**
   * The content of the context. `NoTransactions` stands for the sentence
   * `NoTransactionsText`; a `Report` holds the three totals, the expense
   * categories with their totals in the order they are written, and the
   * listed transactions. The text layout and the two-decimal rendering of
   * amounts are not modelled.
   */
  datatype Context =
    | NoTransactions
    | Report(receitas: real, despesas: real, saldo: real, categorias: seq<(string, real)>, ultimas: seq<Line>)

  /** The 50 most recent of the user's transactions, most recent first. */
  function RecentWindow(db: Store.Table<Transaction>, user: int): (w: seq<Entry>)
    reads db
    requires db.Valid()
    ensures |w| == Min(WindowSize, |db.OwnedBy(user)|)
    ensures w == ListTransactions(db, user)[..|w|]
    ensures forall e :: e in w ==> e.0 in db.rows && db.rows[e.0] == Row(user, e.1)
  {
    var all := ListTransactions(db, user);
    assert |all| == |db.OwnedBy(user)| by {
      assert |multiset(all)| == |multiset(db.OwnedBy(user))|;
    }
    all[..Min(WindowSize, |all|)]
  }

  /** A transaction of the user left out of the window is no more recent than any transaction in it. */
  lemma WindowIsMostRecent(db: Store.Table<Transaction>, user: int, e: Entry, id: int)
    requires db.Valid()
    requires e in RecentWindow(db, user)
    requires id in db.rows && db.rows[id].owner == user
    requires (id, db.rows[id].data) !in RecentWindow(db, user)
    ensures e.1.data >= db.rows[id].data.data
  {
    var all := ListTransactions(db, user);
    var w := RecentWindow(db, user);
    var f := (id, db.rows[id].data);
    assert f in all;
    var j :| 0 <= j < |all| && all[j] == f;
    var i :| 0 <= i < |w| && w[i] == e;
    assert all[i] == e;
  }

  /** The sum of the expense values of category `c`. */
  function CategoryTotal(s: seq<Entry>, c: string): real
  {
    if s == [] then 0.0
    else (if s[0].1.tipo == "despesa" && s[0].1.categoria == c then s[0].1.valor else 0.0) + CategoryTotal(s[1..], c)
  }

  lemma {:induction false} CategoryTotalAppend(a: seq<Entry>, b: seq<Entry>, c: string)
    ensures CategoryTotal(a + b, c) == CategoryTotal(a, c) + CategoryTotal(b, c)
  {
    if a == [] {
      assert a + b == b;
    } else {
      assert (a + b)[0] == a[0] && (a + b)[1..] == a[1..] + b;
      CategoryTotalAppend(a[1..], b, c);
    }
  }

  /** One dictionary item: a category and its total. */
  type Item = (string, real)

  predicate Distinct(s: seq<string>)
  {
    forall a, b :: 0 <= a < b < |s| ==> s[a] != s[b]
  }

  /** The items of a dictionary, in the insertion order `order`. */
  function Items(order: seq<string>, totals: map<string, real>): (r: seq<(string, real)>)
    requires forall c :: c in order ==> c in totals
    ensures |r| == |order|
    ensures forall k :: 0 <= k < |r| ==> r[k] == (order[k], totals[order[k]])
  {
    if order == [] then [] else [(order[0], totals[order[0]])] + Items(order[1..], totals)
  }

  /** The sum of the values of a list of items. */
  function ValueSum(s: seq<(string, real)>): real
  {
    if s == [] then 0.0 else s[0].1 + ValueSum(s[1..])
  }

  lemma {:induction false} ValueSumAppend(a: seq<(string, real)>, b: seq<(string, real)>)
    ensures ValueSum(a + b) == ValueSum(a) + ValueSum(b)
  {
    if a == [] {
      assert a + b == b;
    } else {
      assert (a + b)[0] == a[0] && (a + b)[1..] == a[1..] + b;
      ValueSumAppend(a[1..], b);
    }
  }

  /** Changing the value of a key that is not listed leaves the sum of the items unchanged. */
  lemma {:induction false} ItemsSumFrame(order: seq<string>, totals: map<string, real>, c: string, v: real)
    requires forall k :: k in order ==> k in totals
    requires c !in order
    ensures ValueSum(Items(order, totals[c := v])) == ValueSum(Items(order, totals))
  {
    if order != [] {
      ItemsSumFrame(order[1..], totals, c, v);
    }
  }

  /** Adding `v` to the value of a key listed once adds `v` to the sum of the items. */
  lemma {:induction false} ItemsSumBump(order: seq<string>, totals: map<string, real>, c: string, v: real)
    requires forall k :: k in order ==> k in totals
    requires Distinct(order) && c in order
    ensures ValueSum(Items(order, totals[c := totals[c] + v])) == ValueSum(Items(order, totals)) + v
  {
    if order[0] == c {
      assert c !in order[1..];
      ItemsSumFrame(order[1..], totals, c, totals[c] + v);
    } else {
      ItemsSumBump(order[1..], totals, c, v);
    }
  }

  /** Appending a key appends its item. */
  lemma {:induction false} ItemsAppend(order: seq<string>, totals: map<string, real>, c: string)
    requires forall k :: k in order ==> k in totals
    requires c in totals
    ensures Items(order + [c], totals) == Items(order, totals) + [(c, totals[c])]
  {
  }

  /** Sorting a list of items keeps the sum of its values. */
  lemma {:induction false} ValueSumInsert(x: (string, real), s: seq<(string, real)>, key: Item -> real)
    requires SortedBy(s, key)
    ensures ValueSum(Insert(x, s, key)) == x.1 + ValueSum(s)
  {
    if s != [] && key(x) > key(s[0]) {
      ValueSumInsert(x, s[1..], key);
    }
  }

  lemma {:induction false} ValueSumSort(s: seq<(string, real)>, key: Item -> real)
    ensures ValueSum(SortBy(s, key)) == ValueSum(s)
  {
    if s != [] {
      ValueSumSort(s[1..], key);
      ValueSumInsert(s[0], SortBy(s[1..], key), key);
    }
  }

  /** The categories of the expenses among `s`. */
  function ExpenseCategories(s: seq<Entry>): set<string>
  {
    if s == [] then {}
    else (if s[0].1.tipo == "despesa" then {s[0].1.categoria} else {}) + ExpenseCategories(s[1..])
  }

  /** A category is listed exactly when some expense of `s` has it. */
  lemma {:induction false} ExpenseCategoriesMembers(s: seq<Entry>, c: string)
    ensures c in ExpenseCategories(s) <==> exists k :: 0 <= k < |s| && s[k].1.tipo == "despesa" && s[k].1.categoria == c
  {
    if s != [] {
      ExpenseCategoriesMembers(s[1..], c);
      if c in ExpenseCategories(s[1..]) {
        var k :| 0 <= k < |s[1..]| && s[1..][k].1.tipo == "despesa" && s[1..][k].1.categoria == c;
        assert s[k + 1] == s[1..][k];
      }
      if exists k :: 0 <= k < |s| && s[k].1.tipo == "despesa" && s[k].1.categoria == c {
        var k :| 0 <= k < |s| && s[k].1.tipo == "despesa" && s[k].1.categoria == c;
        if k > 0 {
          assert s[1..][k - 1] == s[k];
        }
      }
    }
  }

  lemma {:induction false} ExpenseCategoriesAppend(a: seq<Entry>, b: seq<Entry>)
    ensures ExpenseCategories(a + b) == ExpenseCategories(a) + ExpenseCategories(b)
  {
    if a == [] {
      assert a + b == b;
    } else {
      assert (a + b)[0] == a[0] && (a + b)[1..] == a[1..] + b;
      ExpenseCategoriesAppend(a[1..], b);
    }
  }

  /** The dictionary `categorias_despesas` with its insertion order. */
  datatype Grouping = Grouping(totals: map<string, real>, order: seq<string>)

  /** One turn of the grouping loop: an expense creates its category at 0 if needed, then adds its value. */
  function Step(g: Grouping, e: Entry): Grouping
  {
    if e.1.tipo != "despesa" then g
    else
      var c := e.1.categoria;
      var g1 := if c !in g.totals then Grouping(g.totals[c := 0.0], g.order + [c]) else g;
      Grouping(g1.totals[c := g1.totals[c] + e.1.valor], g1.order)
  }

  /** The dictionary after the loop has visited all of `s`, in order. */
  function Group(s: seq<Entry>): Grouping
  {
    if s == [] then Grouping(map[], []) else Step(Group(s[..|s| - 1]), s[|s| - 1])
  }

  /** The dictionary's keys are its insertion order without repetition, and they are the expense categories. */
  lemma {:induction false} GroupKeys(s: seq<Entry>)
    ensures forall c :: c in Group(s).totals <==> c in Group(s).order
    ensures Distinct(Group(s).order)
    ensures Group(s).totals.Keys == ExpenseCategories(s)
  {
    if s != [] {
      var p := s[..|s| - 1];
      assert s == p + [s[|s| - 1]];
      GroupKeys(p);
      ExpenseCategoriesAppend(p, [s[|s| - 1]]);
    }
  }

  /** Each category's value is the sum of the expenses of that category. */
  lemma {:induction false} GroupTotals(s: seq<Entry>, c: string)
    ensures c in Group(s).totals ==> Group(s).totals[c] == CategoryTotal(s, c)
  {
    if s != [] {
      var p := s[..|s| - 1];
      var e := s[|s| - 1];
      assert s == p + [e];
      GroupKeys(p);
      ExpenseCategoriesAppend(p, [e]);
      GroupTotals(p, c);
      CategoryTotalAppend(p, [e], c);
      if c !in Group(p).totals {
        assert c !in ExpenseCategories(p);
        ExpenseCategoriesMembers(p, c);
        CategoryTotalZero(p, c);
      }
    }
  }

  /** No expense of category `c`: its total is 0. */
  lemma {:induction false} CategoryTotalZero(s: seq<Entry>, c: string)
    requires !exists k :: 0 <= k < |s| && s[k].1.tipo == "despesa" && s[k].1.categoria == c
    ensures CategoryTotal(s, c) == 0.0
  {
    if s != [] {
      assert forall k :: 0 <= k < |s[1..]| ==> s[1..][k] == s[k + 1];
      CategoryTotalZero(s[1..], c);
    }
  }

  /** Inserting a new key with value `v` adds `v` to the sum of the items. */
  lemma AddKeySum(order: seq<string>, totals: map<string, real>, c: string, v: real)
    requires forall k :: k in order ==> k in totals
    requires c !in order
    ensures ValueSum(Items(order + [c], totals[c := v])) == ValueSum(Items(order, totals)) + v
  {
    ItemsSumFrame(order, totals, c, v);
    ItemsAppend(order, totals[c := v], c);
    ValueSumAppend(Items(order, totals[c := v]), [(c, v)]);
  }

  /** One turn of the loop adds the expense's value, and nothing else, to the sum of the dictionary's values. */
  lemma StepSum(g: Grouping, e: Entry)
    requires forall c :: c in g.totals <==> c in g.order
    requires Distinct(g.order)
    ensures forall c :: c in Step(g, e).order ==> c in Step(g, e).totals
    ensures ValueSum(Items(Step(g, e).order, Step(g, e).totals))
         == ValueSum(Items(g.order, g.totals)) + (if e.1.tipo == "despesa" then e.1.valor else 0.0)
  {
    if e.1.tipo != "despesa" {
      assert Step(g, e) == g;
    } else if e.1.categoria !in g.totals {
      NewCategoryStep(g, e);
    } else {
      var c := e.1.categoria;
      assert Step(g, e) == Grouping(g.totals[c := g.totals[c] + e.1.valor], g.order);
      ItemsSumBump(g.order, g.totals, c, e.1.valor);
    }
  }

  lemma NewCategoryStep(g: Grouping, e: Entry)
    requires forall c :: c in g.totals <==> c in g.order
    requires e.1.tipo == "despesa" && e.1.categoria !in g.totals
    ensures Step(g, e) == Grouping(g.totals[e.1.categoria := e.1.valor], g.order + [e.1.categoria])
    ensures ValueSum(Items(Step(g, e).order, Step(g, e).totals)) == ValueSum(Items(g.order, g.totals)) + e.1.valor
  {
    var c := e.1.categoria;
    assert g.totals[c := 0.0][c := 0.0 + e.1.valor] == g.totals[c := e.1.valor];
    AddKeySum(g.order, g.totals, c, e.1.valor);
  }

  /** The category totals add up to the expense total. */
  lemma {:induction false} GroupSum(s: seq<Entry>)
    ensures forall c :: c in Group(s).order ==> c in Group(s).totals
    ensures ValueSum(Items(Group(s).order, Group(s).totals)) == SumKind(s, "despesa")
  {
    if s != [] {
      var p := s[..|s| - 1];
      var e := s[|s| - 1];
      assert s == p + [e];
      GroupSum(p);
      GroupKeys(p);
      SumKindAppend(p, [e], "despesa");
      StepSum(Group(p), e);
    }
  }

  /**
   * The loop that fills `categorias_despesas`: `totals` is the dictionary and
   * `order` its insertion order (the order Python iterates it in).
   */
  method GroupExpenses(w: seq<Entry>) returns (totals: map<string, real>, order: seq<string>)
    ensures forall c :: c in totals <==> c in order
    ensures Distinct(order)
    ensures totals.Keys == ExpenseCategories(w)
    ensures forall c :: c in totals ==> totals[c] == CategoryTotal(w, c)
    ensures ValueSum(Items(order, totals)) == SumKind(w, "despesa")
  {
    totals, order := map[], [];
    var i := 0;
    while i < |w|
      invariant 0 <= i <= |w|
      invariant Grouping(totals, order) == Group(w[..i])
    {
      var t := w[i].1;
      assert w[..i + 1][..i] == w[..i];
      if t.tipo == "despesa" {
        if t.categoria !in totals {
          totals := totals[t.categoria := 0.0];
          order := order + [t.categoria];
        }
        totals := totals[t.categoria := totals[t.categoria] + t.valor];
      }
      i := i + 1;
    }
    assert w[..i] == w;
    GroupKeys(w);
    GroupSum(w);
    forall c | c in totals ensures totals[c] == CategoryTotal(w, c) {
      GroupTotals(w, c);
    }
  }

  /** The items of a dictionary list each key once, with its value. */
  lemma ItemsMembers(order: seq<string>, totals: map<string, real>)
    requires forall c :: c in totals <==> c in order
    requires Distinct(order)
    ensures forall c, v :: (c, v) in Items(order, totals) <==> c in totals && v == totals[c]
    ensures DistinctKeys(Items(order, totals))
  {
    var items := Items(order, totals);
    forall c, v | c in totals && v == totals[c] ensures (c, v) in items {
      var k :| 0 <= k < |order| && order[k] == c;
      assert items[k] == (c, v);
    }
  }

  /** Sorting items keeps them, their distinct keys and the sum of their values. */
  lemma SortItems(items: seq<Item>)
    requires DistinctKeys(items)
    ensures forall x :: x in SortBy(items, LargestFirst) <==> x in items
    ensures DistinctKeys(SortBy(items, LargestFirst))
    ensures ValueSum(SortBy(items, LargestFirst)) == ValueSum(items)
  {
    var r := SortBy(items, LargestFirst);
    forall x ensures x in r <==> x in items {
      SortByMembers(items, LargestFirst, x);
    }
    DistinctKeysPermutation(items, r);
    ValueSumSort(items, LargestFirst);
  }

  /** The expense categories with their totals, largest total first. */
  method SortedCategoryTotals(w: seq<Entry>) returns (categorias: seq<Item>)
    ensures forall i, j :: 0 <= i < j < |categorias| ==> categorias[i].1 >= categorias[j].1
    ensures forall c, v :: (c, v) in categorias <==> c in ExpenseCategories(w) && v == CategoryTotal(w, c)
    ensures DistinctKeys(categorias)
    ensures ValueSum(categorias) == SumKind(w, "despesa")
  {
    var totals, order := GroupExpenses(w);
    var items := Items(order, totals);
    ItemsMembers(order, totals);
    categorias := SortBy(items, LargestFirst);
    SortItems(items);
    assert forall i, j :: 0 <= i < j < |categorias| ==> LargestFirst(categorias[i]) <= LargestFirst(categorias[j]);
  }

  /** Sort key of `sorted(..., key=lambda x: x[1], reverse=True)`. */
  function LargestFirst(p: (string, real)): real
  {
    -p.1
  }

  /** How one transaction is listed. */
  function LineOf(e: Entry): (l: Line)
    ensures l.sinal == (if e.1.tipo == "receita" then "+" else "-")
    ensures l.descricao == (if e.1.descricao.None? || e.1.descricao.value == "" then NoDescription else e.1.descricao.value)
    ensures l.data == e.1.data && l.valor == e.1.valor && l.categoria == e.1.categoria
  {
    var t := e.1;
    Line(t.data, if t.tipo == "receita" then "+" else "-", t.valor, t.categoria,
         if t.descricao.None? || t.descricao.value == "" then NoDescription else t.descricao.value)
  }

  /** The first `n` entries as listed lines (the loop over `transactions[:10]`). */
  method ListLines(w: seq<Entry>, n: nat) returns (lines: seq<Line>)
    ensures |lines| == Min(n, |w|)
    ensures forall k :: 0 <= k < |lines| ==> lines[k] == LineOf(w[k])
  {
    lines := [];
    var k := 0;
    while k < |w| && k < n
      invariant 0 <= k <= Min(n, |w|)
      invariant |lines| == k
      invariant forall j :: 0 <= j < k ==> lines[j] == LineOf(w[j])
    {
      lines := lines + [LineOf(w[k])];
      k := k + 1;
    }
  }

  /** `get_user_financial_context`. */
  method GetUserFinancialContext(db: Store.Table<Transaction>, user: int) returns (ctx: Context)
    requires db.Valid()
    ensures ctx.NoTransactions? <==> db.OwnedBy(user) == []
    ensures ctx.Report? ==>
      var w := RecentWindow(db, user);
      && ctx.receitas == SumKind(w, "receita")
      && ctx.despesas == SumKind(w, "despesa")
      && ctx.saldo == ctx.receitas - ctx.despesas
      && (forall i, j :: 0 <= i < j < |ctx.categorias| ==> ctx.categorias[i].1 >= ctx.categorias[j].1)
      && (forall c, v :: (c, v) in ctx.categorias <==> c in ExpenseCategories(w) && v == CategoryTotal(w, c))
      && DistinctKeys(ctx.categorias)
      && ValueSum(ctx.categorias) == ctx.despesas
      && |ctx.ultimas| == Min(LineCount, |w|)
      && (forall k :: 0 <= k < |ctx.ultimas| ==> ctx.ultimas[k] == LineOf(w[k]))
  {
    var w := RecentWindow(db, user);
    if w == [] {
      return NoTransactions;
    }
    var receitas := SumKind(w, "receita");
    var despesas := SumKind(w, "despesa");
    var saldo := receitas - despesas;
    var categorias := SortedCategoryTotals(w);
    var ultimas := ListLines(w, LineCount);
    ctx := Report(receitas, despesas, saldo, categorias, ultimas);
  }
}
