/** Dashboard totals computed from the projection. */
module Metrics {
  import opened Domain
  import opened Store

  datatype Summary = Summary(
    currency: string, successes: int, failures: int, pending: int, attempts: int,
    requested: Money, captured: Money, successRate: real)

  /* ---------- totals as sums over payments ---------- */

  datatype Totals = Totals(successes: int, failures: int, pending: int, attempts: int, requested: int, captured: int)

  function Nothing(): Totals {
    Totals(0, 0, 0, 0, 0, 0)
  }

  function Plus(x: Totals, y: Totals): Totals {
    Totals(x.successes + y.successes, x.failures + y.failures, x.pending + y.pending, x.attempts + y.attempts,
           x.requested + y.requested, x.captured + y.captured)
  }

  /** What one payment adds; other currencies add nothing. */
  function One(p: Payment, currency: string): Totals {
    if p.amount.currency != currency then Nothing()
    else match p.status
      case Succeeded => Totals(1, 0, 0, 1, p.amount.amount, p.amount.amount)
      case Failed => Totals(0, 1, 0, 1, p.amount.amount, 0)
      case _ => Totals(0, 0, 1, 1, p.amount.amount, 0)
  }

  function Tally(ps: seq<Payment>, currency: string): Totals {
    if |ps| == 0 then Nothing() else Plus(Tally(ps[..|ps| - 1], currency), One(ps[|ps| - 1], currency))
  }

  function SummaryOf(t: Totals, currency: string): Summary {
    Summary(currency, t.successes, t.failures, t.pending, t.attempts,
            NewMoney(0, currency).(amount := t.requested), NewMoney(0, currency).(amount := t.captured),
            if t.successes + t.failures > 0 then t.successes as real / (t.successes + t.failures) as real else 0.0)
  }

  /* ---------- what the numbers mean ---------- */

  /** The payment is in the currency and has the status, if one is asked for. */
  predicate Of(p: Payment, currency: string, status: Option<Status>) {
    p.amount.currency == currency && (status.None? || p.status == status.value)
  }

  /** How many such payments the list holds. */
  function Number(ps: seq<Payment>, currency: string, status: Option<Status>): nat {
    if |ps| == 0 then 0
    else Number(ps[..|ps| - 1], currency, status) + if Of(ps[|ps| - 1], currency, status) then 1 else 0
  }

  /** What they add up to. */
  function Worth(ps: seq<Payment>, currency: string, status: Option<Status>): int {
    if |ps| == 0 then 0
    else Worth(ps[..|ps| - 1], currency, status) + if Of(ps[|ps| - 1], currency, status) then ps[|ps| - 1].amount.amount else 0
  }

  /** The columns are numbers and sums of the payments in the currency: each of them is an attempt and was
      requested, the succeeded ones were captured, and those neither succeeded nor failed are pending. */
  ghost predicate Counts(t: Totals, ps: seq<Payment>, currency: string) {
    && t.attempts == Number(ps, currency, None) && t.requested == Worth(ps, currency, None)
    && t.successes == Number(ps, currency, Some(Succeeded)) && t.captured == Worth(ps, currency, Some(Succeeded))
    && t.failures == Number(ps, currency, Some(Failed))
    && t.pending == Number(ps, currency, Some(Requested)) + Number(ps, currency, Some(Canceled))
  }

  lemma {:induction false} TallyCounts(ps: seq<Payment>, currency: string)
    ensures Counts(Tally(ps, currency), ps, currency)
  {
    if |ps| > 0 {
      TallyCounts(ps[..|ps| - 1], currency);
    }
  }

  /** What a summary shows of a list of payments: those numbers and sums, in the reporting currency, and the
      share of successes among the payments that ended, or zero if none did. */
  ghost predicate Shows(s: Summary, ps: seq<Payment>, currency: string) {
    && Counts(Totals(s.successes, s.failures, s.pending, s.attempts, s.requested.amount, s.captured.amount), ps, currency)
    && s.currency == currency && s.requested.currency == s.captured.currency == Normalise(currency)
    && Rate(s.successRate, Number(ps, currency, Some(Succeeded)), Number(ps, currency, Some(Failed)))
  }

  predicate Rate(rate: real, good: nat, bad: nat) {
    if good + bad == 0 then rate == 0.0 else rate * (good + bad) as real == good as real
  }

  lemma RateIs(good: nat, bad: nat)
    ensures Rate(if good + bad > 0 then good as real / (good + bad) as real else 0.0, good, bad)
  {
  }

  lemma SummaryShows(ps: seq<Payment>, currency: string)
    ensures Shows(SummaryOf(Tally(ps, currency), currency), ps, currency)
  {
    TallyCounts(ps, currency);
    RateIs(Number(ps, currency, Some(Succeeded)), Number(ps, currency, Some(Failed)));
  }

  method Summarize(payments: seq<Payment>, currency: string) returns (s: Summary)
    ensures s == SummaryOf(Tally(payments, currency), currency)
    ensures Shows(s, payments, currency)
  {
    SummaryShows(payments, currency);
    s := Summary(currency, 0, 0, 0, 0, NewMoney(0, currency), NewMoney(0, currency), 0.0);
    for i := 0 to |payments|
      invariant s == SummaryOf(Tally(payments[..i], currency), currency).(successRate := 0.0)
    {
      assert payments[..i + 1][..i] == payments[..i];
      var p := payments[i];
      if p.amount.currency != currency {
        continue;
      }
      s := s.(attempts := s.attempts + 1, requested := s.requested.(amount := s.requested.amount + p.amount.amount));
      match p.status {
        case Succeeded =>
          s := s.(successes := s.successes + 1, captured := s.captured.(amount := s.captured.amount + p.amount.amount));
        case Failed =>
          s := s.(failures := s.failures + 1);
        case _ =>
          s := s.(pending := s.pending + 1);
      }
    }
    assert payments[..|payments|] == payments;
    var denom := s.successes + s.failures;
    if denom > 0 {
      s := s.(successRate := s.successes as real / denom as real);
    }
  }

  function OfProduct(ps: seq<Payment>, product: string): seq<Payment> {
    if |ps| == 0 then []
    else OfProduct(ps[..|ps| - 1], product) + if ps[|ps| - 1].productID == product then [ps[|ps| - 1]] else []
  }

  function Products(ps: seq<Payment>): set<string> {
    set i | 0 <= i < |ps| :: ps[i].productID
  }

  class Aggregator {
    const store: Memory
    const currency: string

    constructor (store: Memory, currency: string)
      ensures this.store == store && this.currency == currency
    {
      this.store, this.currency := store, currency;
    }

    /** The same summary whatever order the store lists the rows in. */
    method AccountSummary(f: PaymentFilter) returns (s: Summary)
      ensures Summarises(s, store.payments, f, currency)
      ensures exists rows: seq<Payment> :: Listing(rows, store.payments, f) && Shows(s, rows, currency)
    {
      var list := store.ListPayments(f);
      s := Summarize(list, currency);
      forall rows: seq<Payment> | Listing(rows, store.payments, f) ensures Tally(rows, currency) == Tally(list, currency) {
        ListingsAgree(rows, list, store.payments, f, currency);
      }
    }

    method ByProduct(f: PaymentFilter) returns (out: map<string, Summary>)
      ensures SummarisesProducts(out, store.payments, f, currency)
      ensures exists rows: seq<Payment> :: Listing(rows, store.payments, f) && ShowsProducts(out, rows, currency)
    {
      var list := store.ListPayments(f);
      var groups := GroupByProduct(list);
      out := SummarizeGroups(groups, currency);
      ProductsShow(out, list, currency);
      forall rows: seq<Payment> | Listing(rows, store.payments, f) ensures ProductSummaries(out, rows, currency) {
        ProductsCarryOver(out, list, rows, store.payments, f, currency);
      }
    }
  }

  /** Each product that occurs has its summary, which shows exactly its payments. */
  ghost predicate ShowsProducts(out: map<string, Summary>, rows: seq<Payment>, currency: string) {
    && (forall product :: product in out <==> exists i :: 0 <= i < |rows| && rows[i].productID == product)
    && (forall product | product in out :: Shows(out[product], OfProduct(rows, product), currency))
  }

  lemma ProductsShow(out: map<string, Summary>, rows: seq<Payment>, currency: string)
    requires ProductSummaries(out, rows, currency)
    ensures ShowsProducts(out, rows, currency)
  {
    forall product | product in out ensures Shows(out[product], OfProduct(rows, product), currency) {
      SummaryShows(OfProduct(rows, product), currency);
    }
  }

  /** `s` is the summary of every listing of the matching rows, and there is one. */
  ghost predicate Summarises<K(!new)>(s: Summary, m: map<K, Payment>, f: PaymentFilter, currency: string)
  {
    && (exists rows: seq<Payment> :: Listing(rows, m, f))
    && (forall rows: seq<Payment> | Listing(rows, m, f) :: s == SummaryOf(Tally(rows, currency), currency))
  }

  /** One summary for each product that occurs among the rows, over exactly its rows. */
  ghost predicate ProductSummaries(out: map<string, Summary>, rows: seq<Payment>, currency: string) {
    && out.Keys == Products(rows)
    && (forall product | product in out :: out[product] == SummaryOf(Tally(OfProduct(rows, product), currency), currency))
  }

  ghost predicate SummarisesProducts<K(!new)>(out: map<string, Summary>, m: map<K, Payment>, f: PaymentFilter, currency: string) {
    && (exists rows: seq<Payment> :: Listing(rows, m, f))
    && (forall rows: seq<Payment> | Listing(rows, m, f) :: ProductSummaries(out, rows, currency))
  }

  /** One summary per group, the groups taken in any order. */
  method SummarizeGroups(groups: map<string, seq<Payment>>, currency: string) returns (out: map<string, Summary>)
    ensures out.Keys == groups.Keys
    ensures forall product | product in groups :: out[product] == SummaryOf(Tally(groups[product], currency), currency)
  {
    out := map[];
    var rest := groups.Keys;
    while rest != {}
      invariant rest <= groups.Keys && out.Keys == groups.Keys - rest
      invariant forall product | product in out :: out[product] == SummaryOf(Tally(groups[product], currency), currency)
      decreases |rest|
    {
      var product :| product in rest;
      rest := rest - {product};
      var s := Summarize(groups[product], currency);
      out := out[product := s];
    }
  }

  method GroupByProduct(list: seq<Payment>) returns (groups: map<string, seq<Payment>>)
    ensures groups.Keys == Products(list)
    ensures forall product | product in groups :: groups[product] == OfProduct(list, product)
  {
    groups := map[];
    for i := 0 to |list|
      invariant groups.Keys == Products(list[..i])
      invariant forall product | product in groups :: groups[product] == OfProduct(list[..i], product)
    {
      var p := list[i];
      assert list[..i] + [p] == list[..i + 1];
      assert list[..i + 1][..i] == list[..i];
      ProductsAppend(list[..i], p);
      OfProductNone(list[..i], p.productID);
      groups := groups[p.productID := (if p.productID in groups then groups[p.productID] else []) + [p]];
    }
    assert list[..|list|] == list;
  }

  lemma {:induction false} OfProductNone(ps: seq<Payment>, product: string)
    ensures product !in Products(ps) ==> OfProduct(ps, product) == []
  {
    if |ps| > 0 {
      var n := |ps| - 1;
      assert ps == ps[..n] + [ps[n]];
      ProductsAppend(ps[..n], ps[n]);
      OfProductNone(ps[..n], product);
    }
  }

  lemma ProductsAppend(ps: seq<Payment>, p: Payment)
    ensures Products(ps + [p]) == Products(ps) + {p.productID}
  {
    var all := ps + [p];
    assert all[|ps|] == p && forall i :: 0 <= i < |ps| ==> all[i] == ps[i];
  }

  /* ---------- laws ---------- */

  lemma PlusSwap(x: Totals, y: Totals, z: Totals)
    ensures Plus(Plus(x, y), z) == Plus(Plus(x, z), y)
    ensures Plus(Plus(x, y), z) == Plus(x, Plus(y, z))
  {
  }

  lemma TallySnoc(ps: seq<Payment>, p: Payment, currency: string)
    ensures Tally(ps + [p], currency) == Plus(Tally(ps, currency), One(p, currency))
  {
    assert (ps + [p])[..|ps|] == ps;
  }

  /** A payment counts the same wherever it is listed. */
  lemma {:induction false} TallyPick(a: seq<Payment>, x: Payment, b: seq<Payment>, currency: string)
    ensures Tally(a + [x] + b, currency) == Plus(Tally(a + b, currency), One(x, currency))
  {
    if |b| == 0 {
      assert a + [x] + b == a + [x] && a + b == a;
      TallySnoc(a, x, currency);
    } else {
      var n := |b| - 1;
      var c, y := b[..n], b[n];
      assert a + [x] + b == (a + [x] + c) + [y] && a + b == (a + c) + [y];
      TallyPick(a, x, c, currency);
      TallySnoc(a + [x] + c, y, currency);
      TallySnoc(a + c, y, currency);
      PlusSwap(Tally(a + c, currency), One(x, currency), One(y, currency));
    }
  }

  /** The summary depends only on which payments there are, not on the order the store lists them in. */
  lemma {:induction false} OrderIndependent(ps: seq<Payment>, qs: seq<Payment>, currency: string)
    requires multiset(ps) == multiset(qs)
    ensures Tally(ps, currency) == Tally(qs, currency)
  {
    if |ps| == 0 {
      assert |multiset(qs)| == 0;
    } else {
      var n := |ps| - 1;
      var x := ps[n];
      assert ps == ps[..n] + [x];
      assert x in multiset(qs);
      var i :| 0 <= i < |qs| && qs[i] == x;
      var rest := qs[..i] + qs[i + 1..];
      assert qs == qs[..i] + [x] + qs[i + 1..];
      assert multiset(rest) == multiset(qs) - multiset{x} == multiset(ps[..n]);
      OrderIndependent(ps[..n], rest, currency);
      TallyPick(qs[..i], x, qs[i + 1..], currency);
      TallySnoc(ps[..n], x, currency);
    }
  }

  ghost predicate RowsOf<K>(rows: seq<Payment>, ks: seq<K>, m: map<K, Payment>) {
    |rows| == |ks| && Distinct(ks) && forall i :: 0 <= i < |ks| ==> ks[i] in m && rows[i] == m[ks[i]]
  }

  function Without<T>(s: seq<T>, i: nat): seq<T>
    requires i < |s|
  {
    s[..i] + s[i + 1..]
  }

  lemma KeyDropped<K>(ks: seq<K>, i: nat, k: K)
    requires i < |ks| && Distinct(ks)
    ensures k in Without(ks, i) <==> k in ks && k != ks[i]
  {
    var rest := Without(ks, i);
    if k in rest {
      var j :| 0 <= j < |rest| && rest[j] == k;
      assert k == ks[if j < i then j else j + 1];
    }
    if k in ks && k != ks[i] {
      var j :| 0 <= j < |ks| && ks[j] == k;
      assert k == rest[if j < i then j else j - 1];
    }
  }

  lemma {:induction false} OfProductCounts(ps: seq<Payment>, product: string, p: Payment)
    ensures multiset(OfProduct(ps, product))[p] == if p.productID == product then multiset(ps)[p] else 0
  {
    if |ps| > 0 {
      var n := |ps| - 1;
      assert ps == ps[..n] + [ps[n]];
      OfProductCounts(ps[..n], product, p);
    }
  }

  lemma RowDropped<K>(rows: seq<Payment>, ks: seq<K>, m: map<K, Payment>, i: nat)
    requires RowsOf(rows, ks, m) && i < |ks|
    ensures RowsOf(Without(rows, i), Without(ks, i), m)
    ensures multiset(rows) == multiset(Without(rows, i)) + multiset{m[ks[i]]}
  {
    assert rows == rows[..i] + [rows[i]] + rows[i + 1..];
  }

  /** Rows listed by the same keys in another order are the same rows. */
  lemma {:induction false} SameKeysSameRows<K>(rows: seq<Payment>, ks: seq<K>, others: seq<Payment>, ls: seq<K>, m: map<K, Payment>)
    requires RowsOf(rows, ks, m) && RowsOf(others, ls, m)
    requires forall k :: k in ks <==> k in ls
    ensures multiset(rows) == multiset(others)
    decreases |ks|
  {
    if |ks| == 0 {
      assert forall i :: 0 <= i < |ls| ==> ls[i] in ls;
    } else {
      assert ks[0] in ls;
      var i :| 0 <= i < |ls| && ls[i] == ks[0];
      RowDropped(rows, ks, m, 0);
      RowDropped(others, ls, m, i);
      forall k ensures k in Without(ks, 0) <==> k in Without(ls, i) {
        KeyDropped(ks, 0, k);
        KeyDropped(ls, i, k);
      }
      SameKeysSameRows(Without(rows, 0), Without(ks, 0), Without(others, i), Without(ls, i), m);
    }
  }

  lemma ListingsSame<K(!new)>(rows: seq<Payment>, others: seq<Payment>, m: map<K, Payment>, f: PaymentFilter)
    requires Listing(rows, m, f) && Listing(others, m, f)
    ensures multiset(rows) == multiset(others)
  {
    var ks: seq<K> :| Lists(rows, ks, m, f);
    var ls: seq<K> :| Lists(others, ls, m, f);
    SameKeysSameRows(rows, ks, others, ls, m);
  }

  lemma SameGroup(rows: seq<Payment>, others: seq<Payment>, product: string)
    requires multiset(rows) == multiset(others)
    ensures multiset(OfProduct(rows, product)) == multiset(OfProduct(others, product))
  {
    forall p: Payment ensures multiset(OfProduct(rows, product))[p] == multiset(OfProduct(others, product))[p] {
      OfProductCounts(rows, product, p);
      OfProductCounts(others, product, p);
    }
  }

  /** Any two listings of the matching rows give the same totals. */
  lemma ListingsAgree<K(!new)>(rows: seq<Payment>, others: seq<Payment>, m: map<K, Payment>, f: PaymentFilter, currency: string)
    requires Listing(rows, m, f) && Listing(others, m, f)
    ensures Tally(rows, currency) == Tally(others, currency)
  {
    ListingsSame(rows, others, m, f);
    OrderIndependent(rows, others, currency);
  }

  /** Summaries by product of one listing are those of every listing. */
  lemma ProductsCarryOver<K(!new)>(out: map<string, Summary>, list: seq<Payment>, rows: seq<Payment>, m: map<K, Payment>,
                          f: PaymentFilter, currency: string)
    requires Listing(list, m, f) && Listing(rows, m, f) && ProductSummaries(out, list, currency)
    ensures ProductSummaries(out, rows, currency)
  {
    ListingsSame(list, rows, m, f);
    SameProducts(list, rows);
    forall product | product in out
      ensures out[product] == SummaryOf(Tally(OfProduct(rows, product), currency), currency)
    {
      SameGroup(list, rows, product);
      OrderIndependent(OfProduct(list, product), OfProduct(rows, product), currency);
    }
  }

  lemma SameProducts(rows: seq<Payment>, others: seq<Payment>)
    requires multiset(rows) == multiset(others)
    ensures Products(rows) == Products(others)
  {
    forall x ensures x in Products(rows) <==> x in Products(others) {
      if x in Products(rows) {
        var i :| 0 <= i < |rows| && rows[i].productID == x;
        assert rows[i] in multiset(others);
      }
      if x in Products(others) {
        var i :| 0 <= i < |others| && others[i].productID == x;
        assert others[i] in multiset(rows);
      }
    }
  }

  /** Every attempt is exactly one of succeeded, failed, pending; nothing captured was not requested. */
  lemma {:induction false} Partition(ps: seq<Payment>, currency: string)
    ensures var t := Tally(ps, currency);
      && t.successes >= 0 && t.failures >= 0 && t.pending >= 0
      && t.attempts == t.successes + t.failures + t.pending
      && ((forall p | p in ps :: p.amount.amount >= 0) ==> 0 <= t.captured <= t.requested)
  {
    if |ps| > 0 {
      var n := |ps| - 1;
      assert ps == ps[..n] + [ps[n]];
      Partition(ps[..n], currency);
    }
  }

  /** The product summaries added up over a list of product ids. */
  function SumProducts(ps: seq<Payment>, products: seq<string>, currency: string): Totals {
    if |products| == 0 then Nothing()
    else
      var n := |products| - 1;
      Plus(SumProducts(ps, products[..n], currency), Tally(OfProduct(ps, products[n]), currency))
  }

  lemma SumProductsSnoc(ps: seq<Payment>, products: seq<string>, last: string, currency: string)
    ensures SumProducts(ps, products + [last], currency) ==
            Plus(SumProducts(ps, products, currency), Tally(OfProduct(ps, last), currency))
  {
    assert (products + [last])[..|products|] == products;
  }

  lemma {:induction false} SumProductsAppend(ps: seq<Payment>, p: Payment, products: seq<string>, currency: string)
    requires Distinct(products)
    ensures SumProducts(ps + [p], products, currency) ==
            Plus(SumProducts(ps, products, currency), if p.productID in products then One(p, currency) else Nothing())
  {
    if |products| > 0 {
      var n := |products| - 1;
      var init, last := products[..n], products[n];
      assert products == init + [last];
      assert last !in init by {
        assert forall i :: 0 <= i < n ==> init[i] == products[i] != products[n];
      }
      assert p.productID in products <==> p.productID in init || p.productID == last;
      assert Distinct(init);
      SumProductsAppend(ps, p, init, currency);
      SumProductsSnoc(ps, init, last, currency);
      SumProductsSnoc(ps + [p], init, last, currency);
      GroupAppend(ps, p, last, currency);
      AddOnce(SumProducts(ps, init, currency), Tally(OfProduct(ps, last), currency), One(p, currency),
              p.productID in init, p.productID == last);
    } else {
      PlusNothing(SumProducts(ps, products, currency));
    }
  }

  lemma PlusNothing(x: Totals)
    ensures Plus(x, Nothing()) == x
  {
  }

  lemma AddOnce(head: Totals, mine: Totals, x: Totals, inHead: bool, isMine: bool)
    requires !(inHead && isMine)
    ensures Plus(Plus(head, if inHead then x else Nothing()), Plus(mine, if isMine then x else Nothing())) ==
            Plus(Plus(head, mine), if inHead || isMine then x else Nothing())
  {
  }

  lemma GroupAppend(ps: seq<Payment>, p: Payment, product: string, currency: string)
    ensures Tally(OfProduct(ps + [p], product), currency) ==
            Plus(Tally(OfProduct(ps, product), currency), if p.productID == product then One(p, currency) else Nothing())
  {
    assert (ps + [p])[..|ps|] == ps;
    var group := OfProduct(ps, product);
    assert (group + [p])[..|group|] == group;
    assert group + [] == group;
  }

  /** The per-product summaries add up, field by field, to the account summary. */
  lemma {:induction false} ProductsAddUp(ps: seq<Payment>, products: seq<string>, currency: string)
    requires Distinct(products) && forall p | p in ps :: p.productID in products
    ensures SumProducts(ps, products, currency) == Tally(ps, currency)
  {
    if |ps| == 0 {
      NoPayments(ps, products, currency);
    } else {
      var n := |ps| - 1;
      assert ps == ps[..n] + [ps[n]];
      ProductsAddUp(ps[..n], products, currency);
      SumProductsAppend(ps[..n], ps[n], products, currency);
    }
  }

  lemma {:induction false} NoPayments(ps: seq<Payment>, products: seq<string>, currency: string)
    requires |ps| == 0
    ensures SumProducts(ps, products, currency) == Nothing()
  {
    if |products| > 0 {
      var n := |products| - 1;
      NoPayments(ps, products[..n], currency);
      var group := OfProduct(ps, products[n]);
      assert |group| == 0;
    }
  }

  /* ---------- sums over sets of ids ---------- */

  ghost function SumOver(s: set<string>, c: string -> int): int {
    if s == {} then 0 else var x :| x in s; c(x) + SumOver(s - {x}, c)
  }

  lemma {:induction false} SumPick(s: set<string>, c: string -> int, x: string)
    requires x in s
    ensures SumOver(s, c) == c(x) + SumOver(s - {x}, c)
    decreases |s|
  {
    var y :| y in s && SumOver(s, c) == c(y) + SumOver(s - {y}, c);
    if y != x {
      SumPick(s - {y}, c, x);
      SumPick(s - {x}, c, y);
      assert s - {y} - {x} == s - {x} - {y};
    }
  }

  /** Terms that are zero may be left out, and equal terms exchanged. */
  lemma {:induction false} SumAgree(s: set<string>, t: set<string>, c: string -> int, e: string -> int)
    requires s <= t && (forall x | x in s :: c(x) == e(x)) && (forall x | x in t - s :: e(x) == 0)
    ensures SumOver(s, c) == SumOver(t, e)
    decreases |t|
  {
    if t != {} {
      var x :| x in t;
      SumPick(t, e, x);
      if x in s {
        SumPick(s, c, x);
        SumAgree(s - {x}, t - {x}, c, e);
      } else {
        SumAgree(s, t - {x}, c, e);
      }
    }
  }

  function IDSet(ps: seq<Payment>): set<string> {
    if |ps| == 0 then {} else IDSet(ps[..|ps| - 1]) + {ps[|ps| - 1].intentID}
  }

  ghost predicate DistinctIDs(ps: seq<Payment>) {
    forall i, j :: 0 <= i < j < |ps| ==> ps[i].intentID != ps[j].intentID
  }

  lemma {:induction false} IDSetHas(ps: seq<Payment>, id: string)
    ensures id in IDSet(ps) <==> exists i :: 0 <= i < |ps| && ps[i].intentID == id
  {
    if |ps| > 0 {
      var n := |ps| - 1;
      IDSetHas(ps[..n], id);
      if exists i :: 0 <= i < n && ps[..n][i].intentID == id {
        var i :| 0 <= i < n && ps[..n][i].intentID == id;
        assert ps[i].intentID == id;
      }
      if i :| 0 <= i < |ps| && ps[i].intentID == id {
        if i < n {
          assert ps[..n][i].intentID == id;
        }
      }
    }
  }

  /** With distinct ids, a column of the totals is the sum over the ids of what each one's payment adds. */
  lemma {:induction false} ColumnAsSum(ps: seq<Payment>, currency: string, f: Totals -> int, c: string -> int)
    requires DistinctIDs(ps) && Additive(f) && forall p | p in ps :: c(p.intentID) == f(One(p, currency))
    ensures f(Tally(ps, currency)) == SumOver(IDSet(ps), c)
  {
    if |ps| > 0 {
      var n := |ps| - 1;
      var id := ps[n].intentID;
      assert ps == ps[..n] + [ps[n]];
      ColumnAsSum(ps[..n], currency, f, c);
      IDSetHas(ps[..n], id);
      assert IDSet(ps) - {id} == IDSet(ps[..n]);
      SumPick(IDSet(ps), c, id);
    }
  }

  /* ---------- the product map against the account summary ---------- */

  lemma {:induction false} Enumerate(s: set<string>) returns (xs: seq<string>)
    ensures Distinct(xs) && forall x :: x in xs <==> x in s
    decreases |s|
  {
    if s == {} {
      xs := [];
    } else {
      var x :| x in s;
      var rest := Enumerate(s - {x});
      xs := rest + [x];
    }
  }

  ghost function SeqSum(xs: seq<string>, c: string -> int): int {
    if |xs| == 0 then 0 else SeqSum(xs[..|xs| - 1], c) + c(xs[|xs| - 1])
  }

  lemma {:induction false} SetSum(s: set<string>, xs: seq<string>, c: string -> int)
    requires Distinct(xs) && forall x :: x in xs <==> x in s
    ensures SumOver(s, c) == SeqSum(xs, c)
  {
    if |xs| > 0 {
      var n := |xs| - 1;
      var x := xs[n];
      assert x in s;
      forall y ensures y in xs[..n] <==> y in s - {x} {
        assert xs == xs[..n] + [x];
      }
      SetSum(s - {x}, xs[..n], c);
      SumPick(s, c, x);
    } else {
      assert s == {};
    }
  }

  /** A column of the totals. */
  ghost predicate Additive(f: Totals -> int) {
    f(Nothing()) == 0 && forall x, y :: f(Plus(x, y)) == f(x) + f(y)
  }

  ghost function Column(ps: seq<Payment>, currency: string, f: Totals -> int): string -> int {
    product => f(Tally(OfProduct(ps, product), currency))
  }

  lemma {:induction false} ColumnSums(ps: seq<Payment>, products: seq<string>, currency: string, f: Totals -> int)
    requires Additive(f)
    ensures SeqSum(products, Column(ps, currency, f)) == f(SumProducts(ps, products, currency))
  {
    if |products| > 0 {
      var n := |products| - 1;
      ColumnSums(ps, products[..n], currency, f);
      assert f(Plus(SumProducts(ps, products[..n], currency), Tally(OfProduct(ps, products[n]), currency))) ==
             f(SumProducts(ps, products[..n], currency)) + f(Tally(OfProduct(ps, products[n]), currency));
    }
  }

  lemma ColumnAddsUp(ps: seq<Payment>, currency: string, f: Totals -> int)
    requires Additive(f)
    ensures SumOver(Products(ps), Column(ps, currency, f)) == f(Tally(ps, currency))
  {
    var products := Enumerate(Products(ps));
    SetSum(Products(ps), products, Column(ps, currency, f));
    ColumnSums(ps, products, currency, f);
    forall p | p in ps ensures p.productID in products {
      var i :| 0 <= i < |ps| && ps[i] == p;
      assert p.productID in Products(ps);
    }
    ProductsAddUp(ps, products, currency);
  }

  /** A column of the map of product summaries. */
  ghost function Part(out: map<string, Summary>, g: Summary -> int): string -> int {
    product => if product in out then g(out[product]) else 0
  }

  lemma PartAddsUp(out: map<string, Summary>, s: Summary, rows: seq<Payment>, currency: string, g: Summary -> int, f: Totals -> int)
    requires ProductSummaries(out, rows, currency) && s == SummaryOf(Tally(rows, currency), currency)
    requires Additive(f) && forall t :: g(SummaryOf(t, currency)) == f(t)
    ensures SumOver(out.Keys, Part(out, g)) == g(s)
  {
    ColumnAddsUp(rows, currency, f);
    forall product | product in out ensures Part(out, g)(product) == Column(rows, currency, f)(product) {
      assert out[product] == SummaryOf(Tally(OfProduct(rows, product), currency), currency);
    }
    SumAgree(out.Keys, Products(rows), Part(out, g), Column(rows, currency, f));
  }

  /** What `ByProduct` returns adds up, column by column, to what `AccountSummary` returns for the same filter. */
  lemma ByProductAddsUp<K(!new)>(out: map<string, Summary>, s: Summary, m: map<K, Payment>, f: PaymentFilter, currency: string)
    requires Summarises(s, m, f, currency) && SummarisesProducts(out, m, f, currency)
    ensures SumOver(out.Keys, Part(out, (x: Summary) => x.successes)) == s.successes
    ensures SumOver(out.Keys, Part(out, (x: Summary) => x.failures)) == s.failures
    ensures SumOver(out.Keys, Part(out, (x: Summary) => x.pending)) == s.pending
    ensures SumOver(out.Keys, Part(out, (x: Summary) => x.attempts)) == s.attempts
    ensures SumOver(out.Keys, Part(out, (x: Summary) => x.requested.amount)) == s.requested.amount
    ensures SumOver(out.Keys, Part(out, (x: Summary) => x.captured.amount)) == s.captured.amount
  {
    var rows: seq<Payment> :| Listing(rows, m, f);
    PartAddsUp(out, s, rows, currency, (x: Summary) => x.successes, (t: Totals) => t.successes);
    PartAddsUp(out, s, rows, currency, (x: Summary) => x.failures, (t: Totals) => t.failures);
    PartAddsUp(out, s, rows, currency, (x: Summary) => x.pending, (t: Totals) => t.pending);
    PartAddsUp(out, s, rows, currency, (x: Summary) => x.attempts, (t: Totals) => t.attempts);
    PartAddsUp(out, s, rows, currency, (x: Summary) => x.requested.amount, (t: Totals) => t.requested);
    PartAddsUp(out, s, rows, currency, (x: Summary) => x.captured.amount, (t: Totals) => t.captured);
  }
}
