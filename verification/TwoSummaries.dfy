/** Listings and summaries: what the dashboard shows over the in-memory store and over the relational one. */
module TwoSummaries {
  import opened Domain
  import opened Store
  import opened StorePairs
  import opened Metrics
  import opened TwoStores
  import P = Postgres
  import W = Webhook

  /** The rows as the relational store returns them. */
  function Normed(rows: seq<Payment>): (r: seq<Payment>)
    ensures |r| == |rows| && forall i :: 0 <= i < |rows| ==> r[i] == P.Norm(rows[i])
  {
    seq(|rows|, i requires 0 <= i < |rows| => P.Norm(rows[i]))
  }

  /* ---------- listings ---------- */

  /** For one account the two tables hold the same rows. */
  lemma SameTable(d: Data, t: P.Tables, p: Payment)
    requires Alike(d, t) && Plain(p.accountID) && RowKey(p.accountID, p.intentID) in d.payments
    requires d.payments[RowKey(p.accountID, p.intentID)] == p
    ensures PairOf(p) in P.Scanned(t) && P.Scanned(t)[PairOf(p)] == P.Norm(p)
  {
    assert P.Select(t, p.accountID, p.intentID) == NormOption(FindPayment(d, p.accountID, p.intentID));
  }

  lemma ScannedHas(d: Data, t: P.Tables, x: (string, string))
    requires Alike(d, t) && Plain(x.0) && x in P.Scanned(t)
    ensures var found := FindPayment(d, x.0, x.1);
      found.Some? && PairOf(found.value) == x && P.Norm(found.value) == P.Scanned(t)[x]
  {
    assert P.Select(t, x.0, x.1) == NormOption(FindPayment(d, x.0, x.1));
    FoundUnderKey(d, x.0, x.1);
  }

  lemma MatchesNorm(f: PaymentFilter, p: Payment)
    ensures Matches(f, P.Norm(p)) == Matches(f, p)
  {
  }

  lemma DistinctPairs(d: Data, rows: seq<Payment>, ks: seq<string>, f: PaymentFilter)
    requires Keyed(d) && Lists(rows, ks, d.payments, f)
    ensures Distinct(PairsOf(rows))
  {
    var xs := PairsOf(rows);
    forall i, j | 0 <= i < j < |xs| ensures xs[i] != xs[j] {
      assert ks[i] == RowKey(xs[i].0, xs[i].1) && ks[j] == RowKey(xs[j].0, xs[j].1);
    }
  }

  lemma ListedRow(d: Data, t: P.Tables, rows: seq<Payment>, ks: seq<string>, f: PaymentFilter, i: nat)
    requires Alike(d, t) && Plain(f.accountID) && Lists(rows, ks, d.payments, f) && i < |rows|
    ensures var x := PairsOf(rows)[i];
      x in P.Scanned(t) && Normed(rows)[i] == P.Scanned(t)[x] && Matches(f, Normed(rows)[i])
  {
    assert ks[i] == RowKey(rows[i].accountID, rows[i].intentID);
    SameTable(d, t, rows[i]);
    MatchesNorm(f, rows[i]);
  }

  lemma ListedPair(d: Data, t: P.Tables, rows: seq<Payment>, ks: seq<string>, f: PaymentFilter, x: (string, string))
    requires Alike(d, t) && Plain(f.accountID) && Lists(rows, ks, d.payments, f)
    requires x in P.Scanned(t) && Matches(f, P.Scanned(t)[x])
    ensures x in PairsOf(rows)
  {
    assert P.Scanned(t)[x].accountID == x.0;
    ScannedHas(d, t, x);
    var p := FindPayment(d, x.0, x.1).value;
    MatchesNorm(f, p);
    var k := RowKey(x.0, x.1);
    assert k in ks;
    var i :| 0 <= i < |ks| && ks[i] == k;
    assert PairsOf(rows)[i] == x;
  }

  /** The rows one store lists for an account are the rows the other lists, up to what the relational store
      cannot keep. */
  lemma SameListing(d: Data, t: P.Tables, rows: seq<Payment>, f: PaymentFilter)
    requires Alike(d, t) && Plain(f.accountID) && Listing(rows, d.payments, f)
    ensures Listing(Normed(rows), P.Scanned(t), f)
  {
    var ks: seq<string> :| Lists(rows, ks, d.payments, f);
    var xs := PairsOf(rows);
    DistinctPairs(d, rows, ks, f);
    forall i | 0 <= i < |xs|
      ensures xs[i] in P.Scanned(t) && Normed(rows)[i] == P.Scanned(t)[xs[i]] && Matches(f, Normed(rows)[i])
    {
      ListedRow(d, t, rows, ks, f, i);
    }
    forall x | x in P.Scanned(t) && Matches(f, P.Scanned(t)[x]) ensures x in xs {
      ListedPair(d, t, rows, ks, f, x);
    }
    assert Lists(Normed(rows), xs, P.Scanned(t), f);
  }

  /* ---------- totals ---------- */

  /** Both stores count the row in the reporting currency, or neither does. */
  predicate CountedAlike(p: Payment, currency: string) {
    p.amount.currency == currency <==> Normalise(p.amount.currency) == currency
  }

  ghost predicate AllCountedAlike(rows: seq<Payment>, currency: string) {
    forall i :: 0 <= i < |rows| ==> CountedAlike(rows[i], currency)
  }

  /** The two totals are equal or differ in the number of attempts, always in the same direction. */
  predicate Apart(x: Totals, y: Totals, same: bool, more: bool) {
    && (x == y <==> same)
    && (!same ==> x.attempts != y.attempts)
    && (if more then x.attempts <= y.attempts else y.attempts <= x.attempts)
  }

  lemma ApartAdds(x: Totals, y: Totals, same: bool, u: Totals, v: Totals, alike: bool, more: bool)
    requires Apart(x, y, same, more) && Apart(u, v, alike, more)
    ensures Apart(Plus(x, u), Plus(y, v), same && alike, more)
  {
  }

  /** The relational store counts more rows in a normalised currency, and none in another. */
  lemma OneNormed(p: Payment, currency: string)
    ensures Apart(One(p, currency), One(P.Norm(p), currency), CountedAlike(p, currency), Normalise(currency) == currency)
  {
    NormaliseIdempotent(p.amount.currency);
  }

  /** A row that only one store counts shows in the number of attempts, and no other row hides it. */
  lemma {:induction false} TallyNormed(rows: seq<Payment>, currency: string)
    ensures Apart(Tally(rows, currency), Tally(Normed(rows), currency), AllCountedAlike(rows, currency), Normalise(currency) == currency)
  {
    if |rows| > 0 {
      var n := |rows| - 1;
      assert Normed(rows)[..n] == Normed(rows[..n]);
      TallyNormed(rows[..n], currency);
      OneNormed(rows[n], currency);
      ApartAdds(Tally(rows[..n], currency), Tally(Normed(rows[..n]), currency), AllCountedAlike(rows[..n], currency),
                One(rows[n], currency), One(P.Norm(rows[n]), currency), CountedAlike(rows[n], currency), Normalise(currency) == currency);
      assert AllCountedAlike(rows, currency) <==> AllCountedAlike(rows[..n], currency) && CountedAlike(rows[n], currency);
    }
  }

  /** Over alike stores an account's summary is the same if and only if every matching row counts in the
      reporting currency exactly when its normalised currency does. */
  lemma SameSummaryIff(d: Data, t: P.Tables, f: PaymentFilter, currency: string, s: Summary, r: Summary)
    requires Alike(d, t) && Plain(f.accountID)
    requires Summarises(s, d.payments, f, currency) && Summarises(r, P.Scanned(t), f, currency)
    ensures s == r <==> forall k | k in d.payments && Matches(f, d.payments[k]) :: CountedAlike(d.payments[k], currency)
  {
    var rows: seq<Payment> :| Listing(rows, d.payments, f);
    SameListing(d, t, rows, f);
    TallyNormed(rows, currency);
    ListedCounted(d, rows, f, currency);
  }

  lemma ListedCounted(d: Data, rows: seq<Payment>, f: PaymentFilter, currency: string)
    requires Listing(rows, d.payments, f)
    ensures AllCountedAlike(rows, currency) <==>
            forall k | k in d.payments && Matches(f, d.payments[k]) :: CountedAlike(d.payments[k], currency)
  {
    var ks: seq<string> :| Lists(rows, ks, d.payments, f);
    if AllCountedAlike(rows, currency) {
      forall k | k in d.payments && Matches(f, d.payments[k]) ensures CountedAlike(d.payments[k], currency) {
        var i :| 0 <= i < |ks| && ks[i] == k;
        assert CountedAlike(rows[i], currency);
      }
    }
  }

  /** Then every listing of the relational store gives the summary of the in-memory store. */
  lemma SameSummary(d: Data, t: P.Tables, f: PaymentFilter, currency: string, s: Summary)
    requires Alike(d, t) && Plain(f.accountID) && Summarises(s, d.payments, f, currency)
    requires forall k | k in d.payments && Matches(f, d.payments[k]) :: CountedAlike(d.payments[k], currency)
    ensures Summarises(s, P.Scanned(t), f, currency)
  {
    var rows: seq<Payment> :| Listing(rows, d.payments, f);
    SameListing(d, t, rows, f);
    ListedCounted(d, rows, f, currency);
    TallyNormed(rows, currency);
    forall others: seq<Payment> | Listing(others, P.Scanned(t), f)
      ensures s == SummaryOf(Tally(others, currency), currency)
    {
      ListingsAgree(Normed(rows), others, P.Scanned(t), f, currency);
    }
  }

  /* ---------- by product ---------- */

  lemma {:induction false} NormedOfProduct(rows: seq<Payment>, product: string)
    ensures OfProduct(Normed(rows), product) == Normed(OfProduct(rows, product))
  {
    if |rows| > 0 {
      var n := |rows| - 1;
      assert Normed(rows)[..n] == Normed(rows[..n]);
      NormedOfProduct(rows[..n], product);
    }
  }

  lemma NormedProducts(rows: seq<Payment>)
    ensures Products(Normed(rows)) == Products(rows)
  {
    assert forall i :: 0 <= i < |rows| ==> Normed(rows)[i].productID == rows[i].productID;
  }

  lemma {:induction false} OfProductAlike(rows: seq<Payment>, product: string, currency: string)
    requires AllCountedAlike(rows, currency)
    ensures AllCountedAlike(OfProduct(rows, product), currency)
  {
    if |rows| > 0 {
      OfProductAlike(rows[..|rows| - 1], product, currency);
    }
  }

  /** So is every product's summary. */
  lemma SameProducts(d: Data, t: P.Tables, f: PaymentFilter, currency: string, out: map<string, Summary>)
    requires Alike(d, t) && Plain(f.accountID) && SummarisesProducts(out, d.payments, f, currency)
    requires forall k | k in d.payments && Matches(f, d.payments[k]) :: CountedAlike(d.payments[k], currency)
    ensures SummarisesProducts(out, P.Scanned(t), f, currency)
  {
    var rows: seq<Payment> :| Listing(rows, d.payments, f);
    SameListing(d, t, rows, f);
    ListedCounted(d, rows, f, currency);
    NormedProducts(rows);
    forall product | product in out
      ensures out[product] == SummaryOf(Tally(OfProduct(Normed(rows), product), currency), currency)
    {
      NormedOfProduct(rows, product);
      OfProductAlike(rows, product, currency);
      TallyNormed(OfProduct(rows, product), currency);
    }
    assert ProductSummaries(out, Normed(rows), currency);
    forall others: seq<Payment> | Listing(others, P.Scanned(t), f) ensures ProductSummaries(out, others, currency) {
      ProductsCarryOver(out, Normed(rows), others, P.Scanned(t), f, currency);
    }
  }

  /* ---------- after a run ---------- */

  /** After any permitted run both stores give an account the same summary, and the same summaries by product,
      provided the currencies of its payments are normalised. */
  lemma SameDashboards(s: Mem, r: Rel, bps: int, c: W.Config, ops: seq<Op>, wall: nat -> int, f: PaymentFilter, currency: string,
                       x: Summary, out: map<string, Summary>)
    requires s.gw == r.gw && WorldsAlike(s.world, r.world) && RunOk(s, bps, c, ops) && Plain(f.accountID)
    requires var d := MemoryRun(s, bps, c, ops).0.world.data;
             && Summarises(x, d.payments, f, currency) && SummarisesProducts(out, d.payments, f, currency)
             && (forall k | k in d.payments && Matches(f, d.payments[k]) ::
                   Normalise(d.payments[k].amount.currency) == d.payments[k].amount.currency)
    ensures var t := PostgresRun(r, bps, c, ops, wall).0.world.tables;
            Summarises(x, P.Scanned(t), f, currency) && SummarisesProducts(out, P.Scanned(t), f, currency)
  {
    SameBehaviour(s, r, bps, c, ops, wall);
    var d, t := MemoryRun(s, bps, c, ops).0.world.data, PostgresRun(r, bps, c, ops, wall).0.world.tables;
    SameSummary(d, t, f, currency, x);
    SameProducts(d, t, f, currency, out);
  }
}
