/**
 * The transaction classifier: a card-terminal amount is split into the
 * product counts that add up to it at the list prices (Rocky Road 55,
 * Dubai chocolate 35, strawberry cup 30, cookies 15 dirhams). The screen
 * keeps the classified transactions with running per-product totals, and a
 * list of candidate combinations while the cashier picks one. The totals
 * are finally booked as one sale per product type.
 */
module Classifier {
  import opened Wrappers
  import opened Records
  import opened Folds
  import opened Text
  import opened Types
  import AppStore

  // ------------------------------------------------------------------
  // Combinations of an amount
  // ------------------------------------------------------------------

  /** What a combination costs at the list prices: 55 R + 35 D + 30 S + 15 C. */
  function Worth(c: ProductCombo): int {
    55 * c.rocky + 35 * c.dubai + 30 * c.strawberry + 15 * c.cookies
  }

  predicate NonEmpty(c: ProductCombo) {
    c.rocky + c.dubai + c.strawberry + c.cookies > 0
  }

  /** The order the search produces: by Rocky Road, then Dubai, then strawberry count. */
  predicate Before(a: ProductCombo, b: ProductCombo) {
    a.rocky < b.rocky ||
    (a.rocky == b.rocky && (a.dubai < b.dubai || (a.dubai == b.dubai && a.strawberry < b.strawberry)))
  }

  predicate StrictlyOrdered(cs: seq<ProductCombo>) {
    forall i, j :: 0 <= i < j < |cs| ==> Before(cs[i], cs[j])
  }

  /** The number of iterations of `for (X = 0; X <= max; X++)`. */
  function Count(max: int): nat {
    if max >= 0 then max + 1 else 0
  }

  /** `Math.floor(amount / 55)`; for a positive divisor the floor is Dafny's division. */
  function MaxRocky(amount: int): int { amount / 55 }
  function MaxDubai(amount: int, r: int): int { (amount - 55 * r) / 35 }
  function MaxStrawberry(amount: int, r: int, d: int): int { (amount - 55 * r - 35 * d) / 30 }

  /** What the innermost iteration pushes: the cookies that make up the rest, if they can. */
  function Cell(amount: int, r: nat, d: nat, s: nat): seq<ProductCombo> {
    var rest := amount - 55 * r - 35 * d - 30 * s;
    if rest < 0 || rest % 15 != 0 then [] else [ProductCombo(r, s, d, rest / 15)]
  }

  /** What the strawberry loop pushes in its first `s` iterations. */
  function Column(amount: int, r: nat, d: nat, s: nat): seq<ProductCombo> {
    if s == 0 then [] else Column(amount, r, d, s - 1) + Cell(amount, r, d, s - 1)
  }

  /** What the Dubai loop pushes in its first `d` iterations. */
  function Row(amount: int, r: nat, d: nat): seq<ProductCombo> {
    if d == 0 then []
    else Row(amount, r, d - 1) + Column(amount, r, d - 1, Count(MaxStrawberry(amount, r, d - 1)))
  }

  /** What the Rocky Road loop pushes in its first `r` iterations. */
  function Grid(amount: int, r: nat): seq<ProductCombo> {
    if r == 0 then []
    else Grid(amount, r - 1) + Row(amount, r - 1, Count(MaxDubai(amount, r - 1)))
  }

  /** The search's result: every combination pushed, except the empty one. */
  function Combinations(amount: int): seq<ProductCombo> {
    Filter(Grid(amount, Count(MaxRocky(amount))), NonEmpty)
  }

  /** `findCombinations`: three nested loops over the Rocky Road, Dubai and strawberry counts. */
  method FindCombinations(amount: int) returns (combos: seq<ProductCombo>)
    ensures combos == Combinations(amount)
  {
    var found: seq<ProductCombo> := [];
    var maxRocky := amount / 55;
    for rocky := 0 to Count(maxRocky)
      invariant found == Grid(amount, rocky)
    {
      found := DubaiLoop(amount, rocky, found);
    }
    combos := Filter(found, NonEmpty);
  }

  /** The Dubai loop for one Rocky Road count: appends that count's row. */
  method DubaiLoop(amount: int, rocky: nat, found: seq<ProductCombo>) returns (found': seq<ProductCombo>)
    ensures found' == found + Row(amount, rocky, Count(MaxDubai(amount, rocky)))
  {
    found' := found;
    var remainingAfterR := amount - 55 * rocky;
    var maxDubai := remainingAfterR / 35;
    for dubai := 0 to Count(maxDubai)
      invariant found' == found + Row(amount, rocky, dubai)
    {
      found' := StrawberryLoop(amount, rocky, dubai, found');
    }
  }

  /** The strawberry loop for one Rocky Road and Dubai count: appends that column. */
  method StrawberryLoop(amount: int, rocky: nat, dubai: nat, found: seq<ProductCombo>) returns (found': seq<ProductCombo>)
    ensures found' == found + Column(amount, rocky, dubai, Count(MaxStrawberry(amount, rocky, dubai)))
  {
    found' := found;
    var remainingAfterD := amount - 55 * rocky - 35 * dubai;
    var maxStrawberry := remainingAfterD / 30;
    for strawberry := 0 to Count(maxStrawberry)
      invariant found' == found + Column(amount, rocky, dubai, strawberry)
    {
      ColumnStep(amount, rocky, dubai, strawberry, found);
      var remainingAfterS := remainingAfterD - 30 * strawberry;
      if remainingAfterS < 0 {
        continue;
      }
      if remainingAfterS % 15 != 0 {
        continue;
      }
      found' := found' + [ProductCombo(rocky, strawberry, dubai, remainingAfterS / 15)];
    }
  }

  /** One more iteration of the strawberry loop pushes the cell's combination, if there is one. */
  lemma ColumnStep(amount: int, r: nat, d: nat, s: nat, found: seq<ProductCombo>)
    ensures var rest := amount - 55 * r - 35 * d - 30 * s;
      (rest < 0 || rest % 15 != 0 ==> found + Column(amount, r, d, s + 1) == found + Column(amount, r, d, s)) &&
      (rest >= 0 && rest % 15 == 0 ==>
         found + Column(amount, r, d, s + 1) == (found + Column(amount, r, d, s)) + [ProductCombo(r, s, d, rest / 15)])
  {
    var rest := amount - 55 * r - 35 * d - 30 * s;
    if rest < 0 || rest % 15 != 0 {
      assert Column(amount, r, d, s + 1) == Column(amount, r, d, s) + [];
    } else {
      assert Column(amount, r, d, s + 1) == Column(amount, r, d, s) + [ProductCombo(r, s, d, rest / 15)];
    }
  }

  lemma CellMembers(amount: int, r: nat, d: nat, s: nat, c: ProductCombo)
    ensures c in Cell(amount, r, d, s) <==>
      Worth(c) == amount && c.rocky == r && c.dubai == d && c.strawberry == s
  {
  }

  lemma {:induction false} ColumnMembers(amount: int, r: nat, d: nat, s: nat, c: ProductCombo)
    ensures c in Column(amount, r, d, s) <==>
      Worth(c) == amount && c.rocky == r && c.dubai == d && c.strawberry < s
  {
    if s > 0 {
      ColumnMembers(amount, r, d, s - 1, c);
      CellMembers(amount, r, d, s - 1, c);
    }
  }

  /** A combination of the amount with the given Rocky Road and Dubai counts has few enough strawberries for the loop to reach it. */
  lemma StrawberryInRange(amount: int, c: ProductCombo)
    requires Worth(c) == amount
    ensures c.strawberry < Count(MaxStrawberry(amount, c.rocky, c.dubai))
  {
    var rest := amount - 55 * c.rocky - 35 * c.dubai;
    assert 30 * c.strawberry <= rest;
    assert c.strawberry <= rest / 30;
  }

  lemma DubaiInRange(amount: int, c: ProductCombo)
    requires Worth(c) == amount
    ensures c.dubai < Count(MaxDubai(amount, c.rocky))
  {
    var rest := amount - 55 * c.rocky;
    assert 35 * c.dubai <= rest;
    assert c.dubai <= rest / 35;
  }

  lemma RockyInRange(amount: int, c: ProductCombo)
    requires Worth(c) == amount
    ensures c.rocky < Count(MaxRocky(amount))
  {
    assert 55 * c.rocky <= amount;
    assert c.rocky <= amount / 55;
  }

  lemma {:induction false} RowMembers(amount: int, r: nat, d: nat, c: ProductCombo)
    ensures c in Row(amount, r, d) <==> Worth(c) == amount && c.rocky == r && c.dubai < d
  {
    if d > 0 {
      RowMembers(amount, r, d - 1, c);
      ColumnMembers(amount, r, d - 1, Count(MaxStrawberry(amount, r, d - 1)), c);
      if Worth(c) == amount && c.rocky == r && c.dubai == d - 1 {
        StrawberryInRange(amount, c);
      }
    }
  }

  lemma {:induction false} GridMembers(amount: int, r: nat, c: ProductCombo)
    ensures c in Grid(amount, r) <==> Worth(c) == amount && c.rocky < r
  {
    if r > 0 {
      GridMembers(amount, r - 1, c);
      RowMembers(amount, r - 1, Count(MaxDubai(amount, r - 1)), c);
      if Worth(c) == amount && c.rocky == r - 1 {
        DubaiInRange(amount, c);
      }
    }
  }

  /** Every combination of `a` comes before every combination of `b`. */
  predicate AllBefore(a: seq<ProductCombo>, b: seq<ProductCombo>) {
    forall i, j :: 0 <= i < |a| && 0 <= j < |b| ==> Before(a[i], b[j])
  }

  /** Two ordered runs, the first wholly before the second, make an ordered run. */
  lemma AppendOrdered(a: seq<ProductCombo>, b: seq<ProductCombo>)
    requires StrictlyOrdered(a) && StrictlyOrdered(b) && AllBefore(a, b)
    ensures StrictlyOrdered(a + b)
  {
    var ab := a + b;
    forall i, j | 0 <= i < j < |ab| ensures Before(ab[i], ab[j]) {
      if j < |a| {
        assert ab[i] == a[i] && ab[j] == a[j];
      } else if i >= |a| {
        assert ab[i] == b[i - |a|] && ab[j] == b[j - |a|];
      } else {
        assert ab[i] == a[i] && ab[j] == b[j - |a|];
      }
    }
  }

  /** Each combination comes before the next one. */
  predicate Chained(cs: seq<ProductCombo>) {
    |cs| <= 1 || (Chained(cs[..|cs| - 1]) && Before(cs[|cs| - 2], cs[|cs| - 1]))
  }

  lemma BeforeTransitive(a: ProductCombo, b: ProductCombo, c: ProductCombo)
    requires Before(a, b) && Before(b, c)
    ensures Before(a, c)
  {
  }

  /** In a chained run, every combination comes before the last one. */
  lemma {:induction false} ChainedLast(cs: seq<ProductCombo>, i: nat)
    requires Chained(cs) && i < |cs| - 1
    ensures Before(cs[i], cs[|cs| - 1])
  {
    var init := cs[..|cs| - 1];
    if i < |init| - 1 {
      ChainedLast(init, i);
      BeforeTransitive(cs[i], cs[|cs| - 2], cs[|cs| - 1]);
    }
  }

  /** `Before` is transitive, so a chained run is ordered pairwise. */
  lemma {:induction false} ChainedOrdered(cs: seq<ProductCombo>)
    requires Chained(cs)
    ensures StrictlyOrdered(cs)
  {
    if |cs| > 1 {
      var init := cs[..|cs| - 1];
      ChainedOrdered(init);
      forall i, j | 0 <= i < j < |cs| ensures Before(cs[i], cs[j]) {
        if j < |cs| - 1 {
          assert cs[i] == init[i] && cs[j] == init[j];
        } else {
          ChainedLast(cs, i);
        }
      }
    }
  }

  /** Two chained runs, the last of the first before the first of the second. */
  predicate Joinable(a: seq<ProductCombo>, b: seq<ProductCombo>) {
    Chained(a) && Chained(b) && (a == [] || b == [] || Before(a[|a| - 1], b[0]))
  }

  /** Two joinable runs make a chained run. */
  lemma {:induction false} AppendChained(a: seq<ProductCombo>, b: seq<ProductCombo>)
    requires Joinable(a, b)
    ensures Chained(a + b)
  {
    if b == [] {
      assert a + b == a;
    } else if |b| == 1 {
      assert (a + b)[..|a + b| - 1] == a;
    } else {
      var init := b[..|b| - 1];
      assert init[0] == b[0];
      AppendChained(a, init);
      assert (a + b)[..|a + b| - 1] == a + init;
    }
  }

  lemma GridRocky(amount: int, r: nat, i: nat)
    requires i < |Grid(amount, r)|
    ensures Grid(amount, r)[i].rocky < r
  {
    GridMembers(amount, r, Grid(amount, r)[i]);
  }

  lemma RowRocky(amount: int, r: nat, d: nat, i: nat)
    requires i < |Row(amount, r, d)|
    ensures Row(amount, r, d)[i].rocky == r && Row(amount, r, d)[i].dubai < d
  {
    RowMembers(amount, r, d, Row(amount, r, d)[i]);
  }

  lemma ColumnDubai(amount: int, r: nat, d: nat, s: nat, i: nat)
    requires i < |Column(amount, r, d, s)|
    ensures Column(amount, r, d, s)[i].rocky == r && Column(amount, r, d, s)[i].dubai == d
    ensures Column(amount, r, d, s)[i].strawberry < s
  {
    ColumnMembers(amount, r, d, s, Column(amount, r, d, s)[i]);
  }

  /** The strawberry loop's next push comes after what it pushed before. */
  lemma ColumnJoin(amount: int, r: nat, d: nat, s: nat)
    requires Chained(Column(amount, r, d, s))
    ensures Joinable(Column(amount, r, d, s), Cell(amount, r, d, s))
  {
    var init := Column(amount, r, d, s);
    if init != [] {
      ColumnDubai(amount, r, d, s, |init| - 1);
    }
  }

  lemma {:induction false} ColumnChained(amount: int, r: nat, d: nat, s: nat)
    ensures Chained(Column(amount, r, d, s))
  {
    if s > 0 {
      ColumnChained(amount, r, d, s - 1);
      ColumnJoin(amount, r, d, s - 1);
      AppendChained(Column(amount, r, d, s - 1), Cell(amount, r, d, s - 1));
    }
  }

  /** The Dubai loop's next strawberry run comes after what it pushed before. */
  lemma RowJoin(amount: int, r: nat, d: nat)
    requires Chained(Row(amount, r, d))
    ensures Joinable(Row(amount, r, d), Column(amount, r, d, Count(MaxStrawberry(amount, r, d))))
  {
    var init := Row(amount, r, d);
    var col := Column(amount, r, d, Count(MaxStrawberry(amount, r, d)));
    ColumnChained(amount, r, d, Count(MaxStrawberry(amount, r, d)));
    if init != [] && col != [] {
      RowRocky(amount, r, d, |init| - 1);
      ColumnDubai(amount, r, d, Count(MaxStrawberry(amount, r, d)), 0);
    }
  }

  lemma {:induction false} RowChained(amount: int, r: nat, d: nat)
    ensures Chained(Row(amount, r, d))
  {
    if d > 0 {
      RowChained(amount, r, d - 1);
      RowJoin(amount, r, d - 1);
      AppendChained(Row(amount, r, d - 1), Column(amount, r, d - 1, Count(MaxStrawberry(amount, r, d - 1))));
    }
  }

  /** The Rocky Road loop's next Dubai run comes after what it pushed before. */
  lemma GridJoin(amount: int, r: nat)
    requires Chained(Grid(amount, r))
    ensures Joinable(Grid(amount, r), Row(amount, r, Count(MaxDubai(amount, r))))
  {
    var init := Grid(amount, r);
    var row := Row(amount, r, Count(MaxDubai(amount, r)));
    RowChained(amount, r, Count(MaxDubai(amount, r)));
    if init != [] && row != [] {
      GridRocky(amount, r, |init| - 1);
      RowRocky(amount, r, Count(MaxDubai(amount, r)), 0);
    }
  }

  lemma {:induction false} GridChained(amount: int, r: nat)
    ensures Chained(Grid(amount, r))
  {
    if r > 0 {
      GridChained(amount, r - 1);
      GridJoin(amount, r - 1);
      AppendChained(Grid(amount, r - 1), Row(amount, r - 1, Count(MaxDubai(amount, r - 1))));
    }
  }

  /** The search pushes its combinations in `Before` order. */
  lemma GridOrdered(amount: int, r: nat)
    ensures StrictlyOrdered(Grid(amount, r))
  {
    GridChained(amount, r);
    ChainedOrdered(Grid(amount, r));
  }

  lemma {:induction false} FilterOrdered(cs: seq<ProductCombo>)
    requires StrictlyOrdered(cs)
    ensures StrictlyOrdered(Filter(cs, NonEmpty))
  {
    if cs != [] {
      var init := cs[..|cs| - 1];
      var last := cs[|cs| - 1];
      assert StrictlyOrdered(init) by {
        forall i, j | 0 <= i < j < |init| ensures Before(init[i], init[j]) {
          assert init[i] == cs[i] && init[j] == cs[j];
        }
      }
      FilterOrdered(init);
      var kept := Filter(init, NonEmpty);
      if NonEmpty(last) {
        forall i | 0 <= i < |kept| ensures Before(kept[i], last) {
          var k :| 0 <= k < |init| && init[k] == kept[i];
          assert cs[k] == kept[i];
        }
        AppendOrdered(kept, [last]);
      }
    }
  }

  /** The combination at an index of the search's result makes up the amount. */
  lemma CombinationWorth(amount: int, i: nat)
    requires i < |Combinations(amount)|
    ensures Worth(Combinations(amount)[i]) == amount
  {
    CombinationsSound(amount);
  }

  /** Every combination found adds up to the amount and holds at least one product. */
  lemma CombinationsSound(amount: int)
    ensures forall i :: 0 <= i < |Combinations(amount)| ==>
      Worth(Combinations(amount)[i]) == amount && NonEmpty(Combinations(amount)[i])
  {
    var grid := Grid(amount, Count(MaxRocky(amount)));
    forall i | 0 <= i < |Combinations(amount)|
      ensures Worth(Combinations(amount)[i]) == amount
    {
      GridMembers(amount, Count(MaxRocky(amount)), Combinations(amount)[i]);
    }
  }

  /** Every non-empty way of making up the amount at the list prices is found. */
  lemma CombinationsComplete(amount: int, c: ProductCombo)
    requires Worth(c) == amount && NonEmpty(c)
    ensures c in Combinations(amount)
  {
    RockyInRange(amount, c);
    GridMembers(amount, Count(MaxRocky(amount)), c);
    var grid := Grid(amount, Count(MaxRocky(amount)));
    var k :| 0 <= k < |grid| && grid[k] == c;
  }

  /** The combinations come ordered by (Rocky Road, Dubai, strawberry), so none is listed twice. */
  lemma CombinationsOrdered(amount: int)
    ensures StrictlyOrdered(Combinations(amount))
    ensures forall i, j :: 0 <= i < j < |Combinations(amount)| ==> Combinations(amount)[i] != Combinations(amount)[j]
  {
    GridOrdered(amount, Count(MaxRocky(amount)));
    FilterOrdered(Grid(amount, Count(MaxRocky(amount))));
  }

  /** No amount below the cheapest product has a combination. */
  lemma NoCombinationsBelowCookiePrice(amount: int)
    requires amount < 15
    ensures Combinations(amount) == []
  {
    CombinationsSound(amount);
    assert |Combinations(amount)| > 0 ==> Worth(Combinations(amount)[0]) >= 15;
  }

  // ------------------------------------------------------------------
  // Running totals
  // ------------------------------------------------------------------

  const NoProducts: ProductCombo := ProductCombo(0, 0, 0, 0)

  function Plus(a: ProductCombo, b: ProductCombo): ProductCombo {
    ProductCombo(a.rocky + b.rocky, a.strawberry + b.strawberry, a.dubai + b.dubai, a.cookies + b.cookies)
  }

  /** The componentwise sum of the transactions' combinations. */
  function TotalsOf(ts: seq<Transaction>): ProductCombo {
    if ts == [] then NoProducts else Plus(TotalsOf(ts[..|ts| - 1]), ts[|ts| - 1].combo)
  }

  lemma {:induction false} TotalsAppend(a: seq<Transaction>, b: seq<Transaction>)
    ensures TotalsOf(a + b) == Plus(TotalsOf(a), TotalsOf(b))
  {
    if b == [] {
      assert a + b == a;
      PlusZero(TotalsOf(a));
    } else {
      var init, last := b[..|b| - 1], b[|b| - 1];
      assert (a + b)[..|a + b| - 1] == a + init;
      assert (a + b)[|a + b| - 1] == last;
      TotalsAppend(a, init);
      PlusAssoc(TotalsOf(a), TotalsOf(init), last.combo);
    }
  }

  lemma PlusZero(x: ProductCombo)
    ensures Plus(x, NoProducts) == x
  {
  }

  lemma PlusAssoc(x: ProductCombo, y: ProductCombo, z: ProductCombo)
    ensures Plus(Plus(x, y), z) == Plus(x, Plus(y, z))
  {
  }

  /** Taking one transaction out of the list takes its combination off the totals. */
  lemma TotalsRemove(ts: seq<Transaction>, i: nat)
    requires i < |ts|
    ensures Plus(TotalsOf(ts[..i] + ts[i + 1..]), ts[i].combo) == TotalsOf(ts)
  {
    var pre, x, post := ts[..i], ts[i], ts[i + 1..];
    SplitAround(ts, i);
    TotalsAppend(pre + [x], post);
    TotalsAppend(pre, [x]);
    TotalsAppend(pre, post);
    TotalsSingle(x);
    PlusSwap(TotalsOf(pre), x.combo, TotalsOf(post));
  }

  lemma SplitAround(ts: seq<Transaction>, i: nat)
    requires i < |ts|
    ensures ts == ts[..i] + [ts[i]] + ts[i + 1..]
  {
  }

  lemma TotalsSingle(t: Transaction)
    ensures TotalsOf([t]) == t.combo
  {
    assert [t][..0] == [];
  }

  lemma PlusSwap(x: ProductCombo, y: ProductCombo, z: ProductCombo)
    ensures Plus(Plus(x, y), z) == Plus(Plus(x, z), y)
  {
  }

  function TxAmount(t: Transaction): int { t.amount }

  /** `transactions.reduce((sum, t) => sum + t.amount, 0)`. */
  function TotalAmount(ts: seq<Transaction>): int {
    SumInt(ts, TxAmount)
  }

  function TotalUnits(totals: ProductCombo): nat {
    totals.rocky + totals.strawberry + totals.dubai + totals.cookies
  }

  /** `products[id]?.price || listPrice`: the stored price, unless the product is missing or priced at 0. */
  function PriceOr(products: Dict<Product>, id: string, listPrice: real): (r: real)
    ensures Get(products, id).Some? && Get(products, id).value.price != 0.0 ==> r == Get(products, id).value.price
    ensures Get(products, id).None? || Get(products, id).value.price == 0.0 ==> r == listPrice
  {
    match Get(products, id)
    case Some(p) => if p.price != 0.0 then p.price else listPrice
    case None => listPrice
  }

  /** The prices the screen uses for Rocky Road, strawberry cups (`normal`), Dubai (`kunafa`) and cookies. */
  datatype Prices = Prices(rocky: real, strawberry: real, dubai: real, cookies: real)

  const ListPrices: Prices := Prices(55.0, 30.0, 35.0, 15.0)

  function CurrentPrices(products: Dict<Product>): Prices {
    Prices(PriceOr(products, "rocky", 55.0), PriceOr(products, "normal", 30.0),
           PriceOr(products, "kunafa", 35.0), PriceOr(products, "cookies", 15.0))
  }

  /** With the four products missing, or priced at 0, the screen falls back to the list prices. */
  lemma MissingProductsUseListPrices(products: Dict<Product>)
    requires forall i :: 0 <= i < |products| ==> products[i].key !in {"rocky", "normal", "kunafa", "cookies"} || products[i].value.price == 0.0
    ensures CurrentPrices(products) == ListPrices
  {
    forall k | k in {"rocky", "normal", "kunafa", "cookies"}
      ensures Get(products, k).None? || Get(products, k).value.price == 0.0
    {
      if Get(products, k).Some? {
        var i :| 0 <= i < |products| && products[i] == Entry(k, Get(products, k).value);
      }
    }
  }

  /** The totals priced at the given prices. */
  function ExpectedRevenue(totals: ProductCombo, prices: Prices): real {
    totals.rocky as real * prices.rocky + totals.strawberry as real * prices.strawberry +
    totals.dubai as real * prices.dubai + totals.cookies as real * prices.cookies
  }

  lemma ExpectedRevenueTerms(totals: ProductCombo, prices: Prices)
    ensures ExpectedRevenue(totals, prices) ==
      totals.rocky as real * prices.rocky + totals.strawberry as real * prices.strawberry +
      totals.dubai as real * prices.dubai + totals.cookies as real * prices.cookies
  {
  }

  /** What the terminal took less what the classified products are worth. */
  function Difference(ts: seq<Transaction>, totals: ProductCombo, prices: Prices): real {
    TotalAmount(ts) as real - ExpectedRevenue(totals, prices)
  }

  /** Every transaction's combination makes up its amount. */
  predicate Classified(ts: seq<Transaction>) {
    forall i :: 0 <= i < |ts| ==> Worth(ts[i].combo) == ts[i].amount
  }

  /** Deleting a transaction keeps the rest classified. */
  lemma DeleteClassified(ts: seq<Transaction>, i: nat)
    requires Classified(ts) && i < |ts|
    ensures Classified(ts[..i] + ts[i + 1..])
  {
    var rest := ts[..i] + ts[i + 1..];
    forall k | 0 <= k < |rest| ensures Worth(rest[k].combo) == rest[k].amount {
      if k < i {
        assert rest[k] == ts[k];
      } else {
        assert rest[k] == ts[k + 1];
      }
    }
  }

  lemma {:induction false} AmountIsWorthOfTotals(ts: seq<Transaction>)
    requires Classified(ts)
    ensures TotalAmount(ts) == Worth(TotalsOf(ts))
  {
    if ts != [] {
      AmountIsWorthOfTotals(ts[..|ts| - 1]);
    }
  }

  /** When every transaction was classified at list prices and the products still carry them, the difference is zero. */
  lemma BalancedAtListPrices(ts: seq<Transaction>)
    requires Classified(ts)
    ensures Difference(ts, TotalsOf(ts), ListPrices) == 0.0
  {
    AmountIsWorthOfTotals(ts);
    DifferenceOfWorth(ts, TotalsOf(ts));
  }

  lemma DifferenceOfWorth(ts: seq<Transaction>, c: ProductCombo)
    requires TotalAmount(ts) == Worth(c)
    ensures Difference(ts, c, ListPrices) == 0.0
  {
    ListPriceRevenue(c);
  }

  /** At list prices the expected revenue of a combo is its worth. */
  lemma ListPriceRevenue(c: ProductCombo)
    ensures ExpectedRevenue(c, ListPrices) == Worth(c) as real
  {
    assert c.rocky as real * 55.0 == (55 * c.rocky) as real;
    assert c.strawberry as real * 30.0 == (30 * c.strawberry) as real;
    assert c.dubai as real * 35.0 == (35 * c.dubai) as real;
    assert c.cookies as real * 15.0 == (15 * c.cookies) as real;
  }

  // ------------------------------------------------------------------
  // Booking the totals as sales
  // ------------------------------------------------------------------

  function Booking(totalQty: nat, productId: string, price: real, today: Date): seq<AppStore.SaleDraft> {
    if totalQty > 0 then [AppStore.SaleDraft(today, productId, totalQty, price, None, None)] else []
  }

  /** One sale per product type with a positive total; strawberry cups book as `normal`, Dubai as `kunafa`. */
  function SalesDrafts(totals: ProductCombo, prices: Prices, today: Date): seq<AppStore.SaleDraft> {
    Booking(totals.rocky, "rocky", prices.rocky, today) +
    Booking(totals.strawberry, "normal", prices.strawberry, today) +
    Booking(totals.dubai, "kunafa", prices.dubai, today) +
    Booking(totals.cookies, "cookies", prices.cookies, today)
  }

  /** At most four sales, each of a positive quantity, no product twice, dated today, no source or checkout id. */
  lemma SalesDraftsShape(totals: ProductCombo, prices: Prices, today: Date)
    ensures var ds := SalesDrafts(totals, prices, today);
      |ds| <= 4 &&
      (forall i :: 0 <= i < |ds| ==> ds[i].qty > 0 && ds[i].date == today && ds[i].source.None? && ds[i].transactionId.None?) &&
      (forall i, j :: 0 <= i < j < |ds| ==> ds[i].productId != ds[j].productId)
    ensures |SalesDrafts(totals, prices, today)| == 0 <==> TotalUnits(totals) == 0
  {
  }

  lemma BookingTotals(qty: nat, productId: string, price: real, today: Date)
    ensures SumInt(Booking(qty, productId, price, today), AppStore.DraftQty) == qty
    ensures Sum(Booking(qty, productId, price, today), AppStore.DraftRevenue) == qty as real * price
  {
  }

  /** The sales book every classified unit. */
  lemma SalesDraftsUnits(totals: ProductCombo, prices: Prices, today: Date)
    ensures SumInt(SalesDrafts(totals, prices, today), AppStore.DraftQty) == TotalUnits(totals)
  {
    var r := Booking(totals.rocky, "rocky", prices.rocky, today);
    var s := Booking(totals.strawberry, "normal", prices.strawberry, today);
    var d := Booking(totals.dubai, "kunafa", prices.dubai, today);
    var c := Booking(totals.cookies, "cookies", prices.cookies, today);
    SumIntAppend(r, s, AppStore.DraftQty);
    SumIntAppend(r + s, d, AppStore.DraftQty);
    SumIntAppend(r + s + d, c, AppStore.DraftQty);
    BookingTotals(totals.rocky, "rocky", prices.rocky, today);
    BookingTotals(totals.strawberry, "normal", prices.strawberry, today);
    BookingTotals(totals.dubai, "kunafa", prices.dubai, today);
    BookingTotals(totals.cookies, "cookies", prices.cookies, today);
  }

  /** The sales are worth exactly the expected revenue at the same prices. */
  lemma SalesDraftsRevenue(totals: ProductCombo, prices: Prices, today: Date)
    ensures Sum(SalesDrafts(totals, prices, today), AppStore.DraftRevenue) == ExpectedRevenue(totals, prices)
  {
    ExpectedRevenueTerms(totals, prices);
    var r := Booking(totals.rocky, "rocky", prices.rocky, today);
    var s := Booking(totals.strawberry, "normal", prices.strawberry, today);
    var d := Booking(totals.dubai, "kunafa", prices.dubai, today);
    var c := Booking(totals.cookies, "cookies", prices.cookies, today);
    BookingTotals(totals.rocky, "rocky", prices.rocky, today);
    BookingTotals(totals.strawberry, "normal", prices.strawberry, today);
    BookingTotals(totals.dubai, "kunafa", prices.dubai, today);
    BookingTotals(totals.cookies, "cookies", prices.cookies, today);
    var x, y := totals.rocky as real * prices.rocky, totals.strawberry as real * prices.strawberry;
    var z, w := totals.dubai as real * prices.dubai, totals.cookies as real * prices.cookies;
    RevenueOfFour(r, s, d, c, x, y, z, w);
    assert SalesDrafts(totals, prices, today) == r + s + d + c;
  }

  lemma RevenueOfFour(r: seq<AppStore.SaleDraft>, s: seq<AppStore.SaleDraft>, d: seq<AppStore.SaleDraft>,
                      c: seq<AppStore.SaleDraft>, x: real, y: real, z: real, w: real)
    requires Sum(r, AppStore.DraftRevenue) == x && Sum(s, AppStore.DraftRevenue) == y
    requires Sum(d, AppStore.DraftRevenue) == z && Sum(c, AppStore.DraftRevenue) == w
    ensures Sum(r + s + d + c, AppStore.DraftRevenue) == x + y + z + w
  {
    SumAppend(r, s, AppStore.DraftRevenue);
    SumAppend(r + s, d, AppStore.DraftRevenue);
    SumAppend(r + s + d, c, AppStore.DraftRevenue);
  }

  /**
   * One step of `handleAddToSales`: a positive total is booked with the
   * next fresh id. The store's sales before the step are `base` followed by
   * those booked so far.
   */
  method BookTotal(store: AppStore.Store, ids: seq<string>, addedCount: nat, ghost base: seq<Sale>,
                   ghost booked: seq<AppStore.SaleDraft>, qty: nat, productId: string, price: real, today: Date)
    returns (count: nat)
    requires addedCount == |booked| && addedCount + (if qty > 0 then 1 else 0) <= |ids|
    requires store.sales == base + AppStore.NewSales(ids, booked)
    modifies store
    ensures count == |booked + Booking(qty, productId, price, today)|
    ensures store.sales == base + AppStore.NewSales(ids, booked + Booking(qty, productId, price, today))
    ensures store.Snapshot() == old(store.Snapshot()).(sales := store.sales)
    ensures old(store.Valid()) ==> store.Valid()
  {
    count := addedCount;
    if qty > 0 {
      var d := AppStore.SaleDraft(today, productId, qty, price, None, None);
      store.AddSale(ids[addedCount], d);
      assert (booked + [d])[..|booked|] == booked;
      count := count + 1;
    } else {
      assert booked + Booking(qty, productId, price, today) == booked;
    }
  }

  /** The four bookings of `handleAddToSales`, in the order Rocky Road, strawberry, Dubai, cookies. */
  method BookTotals(store: AppStore.Store, totals: ProductCombo, prices: Prices, today: Date, ids: seq<string>)
    requires |ids| == 4
    modifies store
    ensures store.Snapshot() == old(store.Snapshot()).(sales :=
      old(store.sales) + AppStore.NewSales(ids, SalesDrafts(totals, prices, today)))
    ensures old(store.Valid()) ==> store.Valid()
  {
    ghost var base := store.sales;
    ghost var r := Booking(totals.rocky, "rocky", prices.rocky, today);
    ghost var s := Booking(totals.strawberry, "normal", prices.strawberry, today);
    ghost var d := Booking(totals.dubai, "kunafa", prices.dubai, today);
    var addedCount := 0;
    addedCount := BookTotal(store, ids, addedCount, base, [], totals.rocky, "rocky", prices.rocky, today);
    assert [] + r == r;
    addedCount := BookTotal(store, ids, addedCount, base, r, totals.strawberry, "normal", prices.strawberry, today);
    addedCount := BookTotal(store, ids, addedCount, base, r + s, totals.dubai, "kunafa", prices.dubai, today);
    addedCount := BookTotal(store, ids, addedCount, base, r + s + d, totals.cookies, "cookies", prices.cookies, today);
  }

  // ------------------------------------------------------------------
  // The screen state
  // ------------------------------------------------------------------

  const InvalidAmountError := "Please enter a valid positive amount."
  const NoCombinationError := "No valid product combination for this amount."

  datatype ScreenState = ScreenState(
    transactions: seq<Transaction>,
    totals: ProductCombo,
    amount: string,
    error: string,
    pendingAmount: Option<int>,
    pendingCombos: seq<ProductCombo>)

  class TransactionClassifier {
    var transactions: seq<Transaction>
    var totals: ProductCombo
    var amount: string
    var error: string
    var pendingAmount: Option<int>
    var pendingCombos: seq<ProductCombo>

    function State(): ScreenState
      reads this
    {
      ScreenState(transactions, totals, amount, error, pendingAmount, pendingCombos)
    }

    /**
     * The totals are the sum of the transactions' combinations, every
     * transaction's combination makes up its amount, and a pending choice
     * lists all the combinations of the pending amount (at least two).
     */
    predicate Valid()
      reads this
    {
      totals == TotalsOf(transactions) &&
      Classified(transactions) &&
      (pendingAmount.None? ==> pendingCombos == []) &&
      (pendingAmount.Some? ==> pendingCombos == Combinations(pendingAmount.value) && |pendingCombos| >= 2)
    }

    constructor()
      ensures State() == ScreenState([], NoProducts, "", "", None, [])
      ensures Valid()
    {
      transactions, totals := [], NoProducts;
      amount, error := "", "";
      pendingAmount, pendingCombos := None, [];
    }

    /** `addTransaction`: appends the transaction and adds its combination to the totals. */
    method AddTransaction(txAmount: int, combo: ProductCombo)
      modifies this
      ensures State() == old(State()).(transactions := old(transactions) + [Transaction(txAmount, combo)],
                                       totals := Plus(old(totals), combo))
      ensures old(Valid()) && Worth(combo) == txAmount ==> Valid()
    {
      if Valid() {
        TotalsAppend(transactions, [Transaction(txAmount, combo)]);
        assert TotalsOf([Transaction(txAmount, combo)]) == Plus(NoProducts, combo);
      }
      transactions := transactions + [Transaction(txAmount, combo)];
      totals := Plus(totals, combo);
    }

    /**
     * `handleAddTransaction`, given `parseInt` of the amount field (`None`
     * for NaN): a non-positive or unreadable amount and an amount with no
     * combination set an error; a single combination is booked at once and
     * clears the field; several are kept pending for the cashier to choose.
     */
    method HandleAddTransaction(parsed: Option<int>)
      modifies this
      ensures parsed.None? || parsed.value <= 0 ==>
        State() == old(State()).(error := InvalidAmountError, pendingAmount := None, pendingCombos := [])
      ensures parsed.Some? && parsed.value > 0 && |Combinations(parsed.value)| == 0 ==>
        State() == old(State()).(error := NoCombinationError, pendingAmount := None, pendingCombos := [])
      ensures parsed.Some? && parsed.value > 0 && |Combinations(parsed.value)| == 1 ==>
        var c := Combinations(parsed.value)[0];
        State() == old(State()).(transactions := old(transactions) + [Transaction(parsed.value, c)],
                                 totals := Plus(old(totals), c), amount := "", error := "",
                                 pendingAmount := None, pendingCombos := [])
      ensures parsed.Some? && parsed.value > 0 && |Combinations(parsed.value)| >= 2 ==>
        State() == old(State()).(error := "", pendingAmount := parsed, pendingCombos := Combinations(parsed.value))
      ensures old(Valid()) ==> Valid()
    {
      error := "";
      pendingAmount := None;
      pendingCombos := [];
      if parsed.None? || parsed.value <= 0 {
        error := InvalidAmountError;
        return;
      }
      var amountNum := parsed.value;
      var combos := FindCombinations(amountNum);
      if |combos| == 0 {
        error := NoCombinationError;
        return;
      } else if |combos| == 1 {
        CombinationWorth(amountNum, 0);
        AddTransaction(amountNum, combos[0]);
        amount := "";
      } else {
        pendingAmount := Some(amountNum);
        pendingCombos := combos;
      }
    }

    /** Books the pending combination at the index and leaves choosing; an out-of-range index or no pending choice changes nothing. */
    method SelectCombo(index: int)
      modifies this
      ensures old(pendingAmount).None? || !(0 <= index < |old(pendingCombos)|) ==> State() == old(State())
      ensures old(pendingAmount).Some? && 0 <= index < |old(pendingCombos)| ==>
        var c := old(pendingCombos)[index];
        State() == old(State()).(transactions := old(transactions) + [Transaction(old(pendingAmount).value, c)],
                                 totals := Plus(old(totals), c), amount := "",
                                 pendingAmount := None, pendingCombos := [])
      ensures old(Valid()) ==> Valid()
    {
      if pendingAmount.None? || !(0 <= index < |pendingCombos|) {
        return;
      }
      var txAmount, combo := pendingAmount.value, pendingCombos[index];
      if Valid() {
        CombinationWorth(txAmount, index);
      }
      AddTransaction(txAmount, combo);
      pendingAmount := None;
      pendingCombos := [];
      amount := "";
    }

    /** Removes the transaction at the index and takes its combination off the totals. */
    method HandleDeleteTransaction(index: nat)
      requires Valid() && index < |transactions|
      modifies this
      ensures State() == old(State()).(transactions := old(transactions[..index] + transactions[index + 1..]),
                                       totals := totals)
      ensures Plus(totals, old(transactions[index].combo)) == old(totals)
      ensures Valid()
    {
      var t := transactions[index];
      TotalsRemove(transactions, index);
      DeleteClassified(transactions, index);
      transactions := transactions[..index] + transactions[index + 1..];
      totals := ProductCombo(totals.rocky - t.combo.rocky, totals.strawberry - t.combo.strawberry,
                             totals.dubai - t.combo.dubai, totals.cookies - t.combo.cookies);
    }

    /** Empties the list, zeroes the totals and drops a pending choice. */
    method HandleClearAll()
      modifies this
      ensures State() == old(State()).(transactions := [], totals := NoProducts, pendingAmount := None, pendingCombos := [])
      ensures Valid()
    {
      transactions, totals := [], NoProducts;
      pendingAmount, pendingCombos := None, [];
    }

    /**
     * Books one sale per product type with a positive total, dated today and
     * priced at the product's current price (list price when missing or 0),
     * then empties the list and zeroes the totals. The k-th sale booked gets
     * `ids[k]`.
     */
    method HandleAddToSales(store: AppStore.Store, today: Date, ids: seq<string>)
      requires |ids| == 4
      modifies this, store
      ensures store.Snapshot() == old(store.Snapshot()).(sales :=
        old(store.sales) + AppStore.NewSales(ids, SalesDrafts(old(totals), CurrentPrices(old(store.products)), today)))
      ensures State() == old(State()).(transactions := [], totals := NoProducts)
      ensures old(Valid()) ==> Valid()
      ensures old(store.Valid()) ==> store.Valid()
    {
      BookTotals(store, totals, CurrentPrices(store.products), today, ids);
      transactions, totals := [], NoProducts;
    }
  }

  // ------------------------------------------------------------------
  // Display
  // ------------------------------------------------------------------

  function Part(n: nat, name: string): string {
    NatToString(n) + " × " + name
  }

  /** A part is the count's digits, then " × " and the label. */
  lemma PartShape(n: nat, a: string)
    ensures var x, p := NatToString(n), Part(n, a);
      |p| == |x| + 3 + |a| && p[|x|] == ' ' && p[..|x|] == x && p[|x| + 3..] == a &&
      forall i :: 0 <= i < |x| ==> '0' <= p[i] <= '9'
  {
  }

  /** Different counts or labels give different parts: the count's digits end where " × " starts. */
  lemma PartInjective(n: nat, a: string, m: nat, b: string)
    ensures Part(n, a) == Part(m, b) ==> n == m && a == b
  {
    PartShape(n, a);
    PartShape(m, b);
  }

  /** 1 for a count that gets a part, 0 for one that is left out. */
  function Shown(n: nat): nat { if n > 0 then 1 else 0 }

  /**
   * The non-zero counts with their labels, in the order Rocky Road,
   * Strawberry, Dubai Chocolate, Cookies: each non-zero count sits right
   * after the non-zero counts ranked before it.
   */
  function ComboParts(c: ProductCombo): (parts: seq<string>)
    ensures |parts| == Shown(c.rocky) + Shown(c.strawberry) + Shown(c.dubai) + Shown(c.cookies)
    ensures parts == [] <==> !NonEmpty(c)
    ensures c.rocky > 0 ==> parts[0] == Part(c.rocky, "Rocky Road")
    ensures c.strawberry > 0 ==> parts[Shown(c.rocky)] == Part(c.strawberry, "Strawberry")
    ensures c.dubai > 0 ==> parts[Shown(c.rocky) + Shown(c.strawberry)] == Part(c.dubai, "Dubai Chocolate")
    ensures c.cookies > 0 ==>
      parts[Shown(c.rocky) + Shown(c.strawberry) + Shown(c.dubai)] == Part(c.cookies, "Cookies")
  {
    Piece(c.rocky, "Rocky Road") + Piece(c.strawberry, "Strawberry") +
    Piece(c.dubai, "Dubai Chocolate") + Piece(c.cookies, "Cookies")
  }

  /** `if (n) parts.push(...)`: the part of a non-zero count, nothing for 0. */
  function Piece(n: nat, name: string): seq<string> {
    if n > 0 then [Part(n, name)] else []
  }

  /** A product's part is listed exactly when its count is not zero. */
  lemma ComboPartsMembers(c: ProductCombo)
    ensures Part(c.rocky, "Rocky Road") in ComboParts(c) <==> c.rocky > 0
    ensures Part(c.strawberry, "Strawberry") in ComboParts(c) <==> c.strawberry > 0
    ensures Part(c.dubai, "Dubai Chocolate") in ComboParts(c) <==> c.dubai > 0
    ensures Part(c.cookies, "Cookies") in ComboParts(c) <==> c.cookies > 0
  {
    var r, s := Piece(c.rocky, "Rocky Road"), Piece(c.strawberry, "Strawberry");
    var d, k := Piece(c.dubai, "Dubai Chocolate"), Piece(c.cookies, "Cookies");
    assert ComboParts(c) == r + s + d + k;
    // The four labels end in different letters.
    PartsDiffer(c.rocky, "Rocky Road", c.strawberry, "Strawberry");
    PartsDiffer(c.rocky, "Rocky Road", c.dubai, "Dubai Chocolate");
    PartsDiffer(c.rocky, "Rocky Road", c.cookies, "Cookies");
    PartsDiffer(c.strawberry, "Strawberry", c.dubai, "Dubai Chocolate");
    PartsDiffer(c.strawberry, "Strawberry", c.cookies, "Cookies");
    PartsDiffer(c.dubai, "Dubai Chocolate", c.cookies, "Cookies");
    InPieces(Part(c.rocky, "Rocky Road"), r, s, d, k);
    InPieces(Part(c.strawberry, "Strawberry"), r, s, d, k);
    InPieces(Part(c.dubai, "Dubai Chocolate"), r, s, d, k);
    InPieces(Part(c.cookies, "Cookies"), r, s, d, k);
  }

  lemma InPieces(x: string, r: seq<string>, s: seq<string>, d: seq<string>, k: seq<string>)
    ensures x in r + s + d + k <==> x in r || x in s || x in d || x in k
  {
  }

  /** Parts whose labels end in different letters differ. */
  lemma PartsDiffer(n: nat, a: string, m: nat, b: string)
    requires a != [] && b != [] && a[|a| - 1] != b[|b| - 1]
    ensures Part(n, a) != Part(m, b)
  {
    PartLastChar(n, a);
    PartLastChar(m, b);
  }

  lemma PartLastChar(n: nat, a: string)
    requires a != []
    ensures Part(n, a)[|Part(n, a)| - 1] == a[|a| - 1]
  {
  }

  /** `comboToText`: the parts joined by ", ", or "No products" exactly when the combination is empty. */
  function ComboToText(c: ProductCombo): (r: string)
    ensures r == "No products" <==> !NonEmpty(c)
    ensures NonEmpty(c) ==> r == Join(ComboParts(c), ", ")
  {
    var parts := ComboParts(c);
    var joined := Join(parts, ", ");
    assert parts != [] ==> |joined| > 0 && '0' <= joined[0] <= '9' by {
      if parts != [] {
        assert '0' <= parts[0][0] <= '9';
        assert joined[..|parts[0]|] == parts[0];
      }
    }
    if joined != "" then joined else "No products"
  }

  /**
   * The text of a non-empty combination has its part `i` at its place,
   * followed by ", " and the next part unless it is the last, and the text
   * ends with the last part.
   */
  lemma ComboTextLists(c: ProductCombo, i: nat)
    requires NonEmpty(c) && i < |ComboParts(c)|
    ensures var parts, t := ComboParts(c), ComboToText(c);
      InfixAt(parts[i], t, JoinOffset(parts, ", ", i))
    ensures var parts, t := ComboParts(c), ComboToText(c);
      i + 1 < |parts| ==>
        JoinOffset(parts, ", ", i + 1) == JoinOffset(parts, ", ", i) + |parts[i]| + 2 &&
        InfixAt(", ", t, JoinOffset(parts, ", ", i) + |parts[i]|)
    ensures var parts, t := ComboParts(c), ComboToText(c);
      |t| == JoinOffset(parts, ", ", |parts| - 1) + |parts[|parts| - 1]|
  {
    JoinAround(ComboParts(c), ", ", i, ComboToText(c));
  }
}
