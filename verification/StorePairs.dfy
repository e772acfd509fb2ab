/** The joined string keys of `Memory` against a table keyed by (account, id). */
module StorePairs {
  import opened Domain
  import opened Store
  import opened Gateway
  import opened Recon
  import opened ReconResult

  /** Every row belongs to an account whose id has no separator. */
  ghost predicate PlainRows(d: Data) {
    && (forall k | k in d.payments :: Plain(d.payments[k].accountID))
    && (forall k | k in d.donors :: Plain(d.donors[k].accountID))
  }

  ghost function PairPayments(d: Data): map<(string, string), Payment>
    requires Keyed(d)
  {
    map k | k in d.payments :: (d.payments[k].accountID, d.payments[k].intentID) := d.payments[k]
  }

  ghost function PairDonors(d: Data): map<(string, string), Donor>
    requires Keyed(d)
  {
    map k | k in d.donors :: (d.donors[k].accountID, d.donors[k].id) := d.donors[k]
  }

  /** Reading by joined key is reading by pair. */
  lemma FindIsPairLookup(d: Data, a: string, id: string)
    requires Keyed(d) && PlainRows(d) && Plain(a)
    ensures FindPayment(d, a, id) == if (a, id) in PairPayments(d) then Some(PairPayments(d)[(a, id)]) else None
    ensures FindDonor(d, a, id) == if (a, id) in PairDonors(d) then Some(PairDonors(d)[(a, id)]) else None
  {
    var k := RowKey(a, id);
    PairPaymentsHas(d, (a, id));
    PairDonorsHas(d, (a, id));
    if k in d.payments {
      RowKeyInjective(d.payments[k].accountID, d.payments[k].intentID, a, id);
    }
    if k in d.donors {
      RowKeyInjective(d.donors[k].accountID, d.donors[k].id, a, id);
    }
  }

  lemma PairPaymentsHas(d: Data, x: (string, string))
    requires Keyed(d)
    ensures var k := RowKey(x.0, x.1);
      && (x in PairPayments(d) <==> k in d.payments && (d.payments[k].accountID, d.payments[k].intentID) == x)
      && (x in PairPayments(d) ==> PairPayments(d)[x] == d.payments[k])
  {
    if x in PairPayments(d) {
      var j :| j in d.payments && x == (d.payments[j].accountID, d.payments[j].intentID) && PairPayments(d)[x] == d.payments[j];
      assert j == RowKey(x.0, x.1);
    }
  }

  lemma PutPaymentAtPair(d: Data, p: Payment, x: (string, string))
    requires Keyed(d) && PlainRows(d) && Plain(p.accountID) && Keyed(PutPayment(d, p))
    ensures var before, after := PairPayments(d), PairPayments(PutPayment(d, p));
      && (x in after <==> x in before || x == (p.accountID, p.intentID))
      && (x in after ==> after[x] == if x == (p.accountID, p.intentID) then p else before[x])
  {
    PairPaymentsHas(d, x);
    PairPaymentsHas(PutPayment(d, p), x);
    var k := RowKey(p.accountID, p.intentID);
    if RowKey(x.0, x.1) == k && k in d.payments {
      RowKeyInjective(d.payments[k].accountID, d.payments[k].intentID, p.accountID, p.intentID);
    }
  }

  lemma PairDonorsHas(d: Data, x: (string, string))
    requires Keyed(d)
    ensures var k := RowKey(x.0, x.1);
      && (x in PairDonors(d) <==> k in d.donors && (d.donors[k].accountID, d.donors[k].id) == x)
      && (x in PairDonors(d) ==> PairDonors(d)[x] == d.donors[k])
  {
    if x in PairDonors(d) {
      var j :| j in d.donors && x == (d.donors[j].accountID, d.donors[j].id) && PairDonors(d)[x] == d.donors[j];
      assert j == RowKey(x.0, x.1);
    }
  }

  lemma PutDonorAtPair(d: Data, p: Donor, x: (string, string))
    requires Keyed(d) && PlainRows(d) && Plain(p.accountID) && Keyed(PutDonor(d, p))
    ensures var before, after := PairDonors(d), PairDonors(PutDonor(d, p));
      && (x in after <==> x in before || x == (p.accountID, p.id))
      && (x in after ==> after[x] == if x == (p.accountID, p.id) then p else before[x])
  {
    PairDonorsHas(d, x);
    PairDonorsHas(PutDonor(d, p), x);
    var k := RowKey(p.accountID, p.id);
    if RowKey(x.0, x.1) == k && k in d.donors {
      RowKeyInjective(d.donors[k].accountID, d.donors[k].id, p.accountID, p.id);
    }
  }

  /** `n` is `m` with `x` set to `v`, checked at key `y`. */
  ghost predicate UpdatedAt<K, V>(m: map<K, V>, n: map<K, V>, x: K, v: V, y: K) {
    && (y in n <==> y in m || y == x)
    && (y in n ==> n[y] == if y == x then v else m[y])
  }

  lemma UpdatedEverywhere<K(!new), V>(m: map<K, V>, n: map<K, V>, x: K, v: V)
    requires forall y :: UpdatedAt(m, n, x, v, y)
    ensures n == m[x := v]
  {
    forall y ensures y in n <==> y in m[x := v] {
      assert UpdatedAt(m, n, x, v, y);
    }
    forall y | y in n ensures n[y] == m[x := v][y] {
      assert UpdatedAt(m, n, x, v, y);
    }
  }

  lemma PutKeeps(d: Data, p: Payment, r: Donor)
    requires Keyed(d) && PlainRows(d) && Plain(p.accountID) && Plain(r.accountID)
    ensures Keyed(PutPayment(d, p)) && PlainRows(PutPayment(d, p))
    ensures Keyed(PutDonor(d, r)) && PlainRows(PutDonor(d, r))
  {
  }

  /** Writing by joined key is writing by pair. */
  lemma PutIsPairUpdate(d: Data, p: Payment)
    requires Keyed(d) && PlainRows(d) && Plain(p.accountID) && Keyed(PutPayment(d, p))
    ensures PairPayments(PutPayment(d, p)) == PairPayments(d)[(p.accountID, p.intentID) := p]
  {
    var x := (p.accountID, p.intentID);
    var before, after := PairPayments(d), PairPayments(PutPayment(d, p));
    forall y ensures UpdatedAt(before, after, x, p, y) {
      PutPaymentAtPair(d, p, y);
    }
    UpdatedEverywhere(before, after, x, p);
  }

  lemma PutDonorIsPairUpdate(d: Data, r: Donor)
    requires Keyed(d) && PlainRows(d) && Plain(r.accountID) && Keyed(PutDonor(d, r))
    ensures PairDonors(PutDonor(d, r)) == PairDonors(d)[(r.accountID, r.id) := r]
  {
    var x := (r.accountID, r.id);
    var before, after := PairDonors(d), PairDonors(PutDonor(d, r));
    forall y ensures UpdatedAt(before, after, x, r, y) {
      PutDonorAtPair(d, r, y);
    }
    UpdatedEverywhere(before, after, x, r);
  }

  /** Both tables hold the same payments. */
  lemma SameValues(d: Data)
    requires Keyed(d)
    ensures PairPayments(d).Values == d.payments.Values
  {
    forall p: Payment ensures p in PairPayments(d).Values <==> p in d.payments.Values {
      if p in d.payments.Values {
        var k :| k in d.payments && d.payments[k] == p;
        PairPaymentsHas(d, (p.accountID, p.intentID));
        assert PairPayments(d)[(p.accountID, p.intentID)] == p;
      }
    }
  }

  /** A search by email finds a donor in one table if and only if it does in the other. */
  lemma SameSearch(d: Data, accountID: string, email: string)
    requires Keyed(d)
    ensures (exists k :: k in d.donors && d.donors[k].accountID == accountID && d.donors[k].email == email) <==>
            (exists x :: x in PairDonors(d) && PairDonors(d)[x].accountID == accountID && PairDonors(d)[x].email == email)
  {
    if k: string :| k in d.donors && d.donors[k].accountID == accountID && d.donors[k].email == email {
      var x := (d.donors[k].accountID, d.donors[k].id);
      PairDonorsHas(d, x);
      assert PairDonors(d)[x] == d.donors[k];
    }
    if x: (string, string) :| x in PairDonors(d) && PairDonors(d)[x].accountID == accountID && PairDonors(d)[x].email == email {
      PairDonorsHas(d, x);
    }
  }

  /** The pair a row is filed under. */
  function PairOf(p: Payment): (string, string) {
    (p.accountID, p.intentID)
  }

  function PairsOf(rows: seq<Payment>): (xs: seq<(string, string)>)
    ensures |xs| == |rows| && forall i :: 0 <= i < |rows| ==> xs[i] == PairOf(rows[i])
  {
    seq(|rows|, i requires 0 <= i < |rows| => PairOf(rows[i]))
  }

  function KeysOf(rows: seq<Payment>): (ks: seq<string>)
    ensures |ks| == |rows| && forall i :: 0 <= i < |rows| ==> ks[i] == RowKey(rows[i].accountID, rows[i].intentID)
  {
    seq(|rows|, i requires 0 <= i < |rows| => RowKey(rows[i].accountID, rows[i].intentID))
  }

  lemma PairsList(rows: seq<Payment>, ks: seq<string>, d: Data, f: PaymentFilter)
    requires Keyed(d) && Lists(rows, ks, d.payments, f)
    ensures Lists(rows, PairsOf(rows), PairPayments(d), f)
  {
    var xs := PairsOf(rows);
    forall i, j | 0 <= i < j < |xs| ensures xs[i] != xs[j] {
      assert ks[i] == RowKey(xs[i].0, xs[i].1) && ks[j] == RowKey(xs[j].0, xs[j].1);
    }
    forall i | 0 <= i < |xs| ensures xs[i] in PairPayments(d) && rows[i] == PairPayments(d)[xs[i]] {
      PairPaymentsHas(d, xs[i]);
    }
    forall x | x in PairPayments(d) && Matches(f, PairPayments(d)[x]) ensures x in xs {
      PairPaymentsHas(d, x);
      var k := RowKey(x.0, x.1);
      assert k in ks;
      var i :| 0 <= i < |ks| && ks[i] == k;
      assert xs[i] == x;
    }
  }

  lemma KeysList(rows: seq<Payment>, xs: seq<(string, string)>, d: Data, f: PaymentFilter)
    requires Keyed(d) && Lists(rows, xs, PairPayments(d), f)
    ensures Lists(rows, KeysOf(rows), d.payments, f)
  {
    var ks := KeysOf(rows);
    forall i | 0 <= i < |ks| ensures ks[i] in d.payments && rows[i] == d.payments[ks[i]] && xs[i] == PairOf(rows[i]) {
      PairPaymentsHas(d, xs[i]);
    }
    forall i, j | 0 <= i < j < |ks| ensures ks[i] != ks[j] {
      assert xs[i] != xs[j] && rows[i] == d.payments[ks[i]] && rows[j] == d.payments[ks[j]];
    }
    forall k | k in d.payments && Matches(f, d.payments[k]) ensures k in ks {
      var x := PairOf(d.payments[k]);
      PairPaymentsHas(d, x);
      assert x in xs;
      var i :| 0 <= i < |xs| && xs[i] == x;
      assert ks[i] == k;
    }
  }

  /** Listing by filter gives the same rows from both tables. */
  lemma ListingIsPairListing(rows: seq<Payment>, d: Data, f: PaymentFilter)
    requires Keyed(d)
    ensures Listing(rows, d.payments, f) <==> Listing(rows, PairPayments(d), f)
  {
    if Listing(rows, d.payments, f) {
      var ks: seq<string> :| Lists(rows, ks, d.payments, f);
      PairsList(rows, ks, d, f);
    }
    if Listing(rows, PairPayments(d), f) {
      var xs: seq<(string, string)> :| Lists(rows, xs, PairPayments(d), f);
      KeysList(rows, xs, d, f);
    }
  }

  /** A reconciliation pass for one account leaves every row of every other account exactly as it was. */
  lemma {:induction false} OtherAccountsUntouched(d: Data, a: string, items: seq<Item>, clock: nat -> int, b: string, id: string)
    requires Keyed(d) && Plain(a) && Plain(b) && a != b
    ensures var e := Run(Start(d, a), a, items, clock).data;
            Keyed(e) && FindPayment(e, b, id) == FindPayment(d, b, id) && e.donors == d.donors
  {
    if |items| > 0 {
      var n := |items| - 1;
      OtherAccountsUntouched(d, a, items[..n], clock, b, id);
      var c := Run(Start(d, a), a, items[..n], clock);
      ItemSettles(c, a, items[n], clock(n), RowKey(b, id));
      match items[n] {
        case Txn(tx) => DifferentAccounts(a, tx.sourceID, b, id);
        case Intent(pi) => DifferentAccounts(a, pi.id, b, id);
      }
    }
  }

  lemma DifferentAccounts(a: string, i: string, b: string, j: string)
    requires Plain(a) && Plain(b) && a != b
    ensures RowKey(a, i) != RowKey(b, j)
  {
    if RowKey(a, i) == RowKey(b, j) {
      RowKeyInjective(a, i, b, j);
    }
  }

  /** With a separator in an account id the separation is lost: these two accounts share a row. */
  lemma SharedRow(d: Data, p: Payment)
    requires p.accountID == "acme|eu" && p.intentID == "pi_1"
    ensures FindPayment(PutPayment(d, p), "acme", "eu|pi_1") == Some(p)
  {
    assert RowKey("acme|eu", "pi_1") == "acme|eu|pi_1" == RowKey("acme", "eu|pi_1");
  }
}
