/** The persistence port and its in-memory implementation. */
module Store {
  import opened Domain

  /* ---------- composite keys ---------- */

  /** The parts joined by '|'. */
  function Joined(parts: seq<string>): string {
    if |parts| == 0 then ""
    else if |parts| == 1 then parts[0]
    else Joined(parts[..|parts| - 1]) + "|" + parts[|parts| - 1]
  }

  method JoinKey(parts: seq<string>) returns (s: string)
    ensures s == Joined(parts)
  {
    s := "";
    for i := 0 to |parts|
      invariant s == Joined(parts[..i])
    {
      assert parts[..i + 1][..i] == parts[..i];
      if i > 0 {
        s := s + "|";
      }
      s := s + parts[i];
    }
    assert parts[..|parts|] == parts;
  }

  /** The key of a donor or payment row. */
  function RowKey(accountID: string, id: string): string {
    accountID + "|" + id
  }

  lemma JoinedPair(a: string, b: string)
    ensures Joined([a, b]) == RowKey(a, b)
  {
    assert [a, b][..1] == [a];
  }

  /** `longer` is `shorter` with a separator and more text, and the ids make up for it. */
  ghost predicate Collides(longer: string, id: string, shorter: string, otherID: string) {
    exists m: string :: longer == shorter + "|" + m && otherID == m + "|" + id
  }

  /** Exactly when two (account, id) pairs share one row of `Memory`. */
  lemma RowKeyCollision(a: string, i: string, b: string, j: string)
    ensures RowKey(a, i) == RowKey(b, j) <==>
            (a == b && i == j) || Collides(a, i, b, j) || Collides(b, j, a, i)
  {
    if RowKey(a, i) == RowKey(b, j) {
      KeySplit(a, i, b, j);
    }
    if Collides(a, i, b, j) {
      CollidingKeys(a, i, b, j);
    }
    if Collides(b, j, a, i) {
      CollidingKeys(b, j, a, i);
    }
  }

  lemma CollidingKeys(a: string, i: string, b: string, j: string)
    requires Collides(a, i, b, j)
    ensures RowKey(a, i) == RowKey(b, j)
  {
    var m :| a == b + "|" + m && j == m + "|" + i;
    assert (b + "|" + m) + "|" + i == b + "|" + (m + "|" + i);
  }

  lemma KeySplit(a: string, i: string, b: string, j: string)
    requires RowKey(a, i) == RowKey(b, j)
    ensures (a == b && i == j) || Collides(a, i, b, j) || Collides(b, j, a, i)
  {
    var k := RowKey(a, i);
    if |a| == |b| {
      assert a == k[..|a|] == b;
      assert i == k[|a| + 1..] == j;
    } else if |a| > |b| {
      LongerSplit(a, i, b, j);
    } else {
      LongerSplit(b, j, a, i);
    }
  }

  lemma LongerSplit(a: string, i: string, b: string, j: string)
    requires RowKey(a, i) == RowKey(b, j) && |a| > |b|
    ensures Collides(a, i, b, j)
  {
    var k := RowKey(a, i);
    var m := a[|b| + 1..];
    assert k[|b|] == '|' == a[|b|];
    assert b == k[..|b|] == a[..|b|];
    assert a == b + "|" + m;
    assert j == k[|b| + 1..];
    assert j == m + "|" + i;
  }

  /** Separator-free accounts, or separator-free ids, never collide. */
  lemma RowKeyInjective(a: string, i: string, b: string, j: string)
    requires RowKey(a, i) == RowKey(b, j)
    requires a == b || (Plain(a) && Plain(b)) || (Plain(i) && Plain(j))
    ensures a == b && i == j
  {
    KeySplit(a, i, b, j);
    CollisionNeedsBars(a, i, b, j);
    CollisionNeedsBars(b, j, a, i);
  }

  lemma CollisionNeedsBars(a: string, i: string, b: string, j: string)
    ensures Collides(a, i, b, j) ==> !Plain(a) && !Plain(j)
  {
    if Collides(a, i, b, j) {
      var m :| a == b + "|" + m && j == m + "|" + i;
      assert a[|b|] == '|' && j[|m|] == '|';
    }
  }

  /* ---------- the tables as values ---------- */

  datatype Data = Data(
    accounts: map<string, Account>,
    donors: map<string, Donor>,
    payments: map<string, Payment>,
    ledger: map<string, LedgerEntry>,
    events: set<string>,
    idempotency: map<string, string>)

  const EmptyData := Data(map[], map[], map[], map[], {}, map[])

  /** Every row sits at the key built from its own columns. */
  ghost predicate Keyed(d: Data) {
    && (forall k | k in d.payments :: k == RowKey(d.payments[k].accountID, d.payments[k].intentID))
    && (forall k | k in d.donors :: k == RowKey(d.donors[k].accountID, d.donors[k].id))
    && (forall k | k in d.ledger :: d.ledger[k].txnID == k)
  }

  /** The row at key `k`. */
  function Cell(d: Data, k: string): Option<Payment> {
    if k in d.payments then Some(d.payments[k]) else None
  }

  function FindPayment(d: Data, accountID: string, id: string): Option<Payment> {
    var k := RowKey(accountID, id);
    if k in d.payments then Some(d.payments[k]) else None
  }

  function PutPayment(d: Data, p: Payment): Data {
    d.(payments := d.payments[RowKey(p.accountID, p.intentID) := p])
  }

  function FindDonor(d: Data, accountID: string, id: string): Option<Donor> {
    var k := RowKey(accountID, id);
    if k in d.donors then Some(d.donors[k]) else None
  }

  function PutDonor(d: Data, donor: Donor): Data {
    d.(donors := d.donors[RowKey(donor.accountID, donor.id) := donor])
  }

  /** One atomic check-and-insert. */
  function PutLedger(d: Data, e: LedgerEntry): Data {
    if e.txnID in d.ledger then d else d.(ledger := d.ledger[e.txnID := e])
  }

  function MarkEvent(d: Data, id: string): Data {
    d.(events := d.events + {id})
  }

  function FindKey(d: Data, key: string): Option<string> {
    if key in d.idempotency then Some(d.idempotency[key]) else None
  }

  function PutKey(d: Data, key: string, id: string): Data {
    d.(idempotency := d.idempotency[key := id])
  }

  /* ---------- queries ---------- */

  /** A zero bound or an empty product leaves that dimension open. */
  datatype PaymentFilter = PaymentFilter(accountID: string, productID: string, from: int, to: int)

  predicate Matches(f: PaymentFilter, p: Payment) {
    && p.accountID == f.accountID
    && (f.productID != "" ==> p.productID == f.productID)
    && (f.from != 0 ==> f.from <= p.createdAt)
    && (f.to != 0 ==> p.createdAt <= f.to)
  }

  ghost predicate Distinct<T>(s: seq<T>) {
    forall i, j :: 0 <= i < j < |s| ==> s[i] != s[j]
  }

  /** `rows` are the matching rows of `m`, one for each key of `ks`, in some order. */
  ghost predicate Lists<K>(rows: seq<Payment>, ks: seq<K>, m: map<K, Payment>, f: PaymentFilter) {
    && |rows| == |ks|
    && Distinct(ks)
    && (forall i :: 0 <= i < |ks| ==> ks[i] in m && rows[i] == m[ks[i]] && Matches(f, rows[i]))
    && (forall k | k in m && Matches(f, m[k]) :: k in ks)
  }

  /** The rows are a listing of the matches, whatever the order. */
  ghost predicate Listing<K(!new)>(rows: seq<Payment>, m: map<K, Payment>, f: PaymentFilter) {
    exists ks: seq<K> :: Lists(rows, ks, m, f)
  }

  /** A listing shows a row of the table exactly if it is the account's, of the product if one is named, and
      created between the bounds that are set, both included; and it shows nothing else. */
  lemma ListedIff<K(!new)>(rows: seq<Payment>, m: map<K, Payment>, f: PaymentFilter, k: K)
    requires Listing(rows, m, f) && k in m
    ensures var p := m[k];
      p in rows <==> p.accountID == f.accountID && (f.productID == "" || p.productID == f.productID)
                     && (f.from == 0 || f.from <= p.createdAt) && (f.to == 0 || p.createdAt <= f.to)
    ensures forall p | p in rows :: p in m.Values
  {
    var ks: seq<K> :| Lists(rows, ks, m, f);
    if Matches(f, m[k]) {
      var i :| 0 <= i < |ks| && ks[i] == k;
      assert rows[i] == m[k];
    }
    forall p | p in rows ensures p in m.Values && Matches(f, p) {
      var i :| 0 <= i < |rows| && rows[i] == p;
      assert ks[i] in m.Keys && m[ks[i]] == p;
    }
  }

  /** `list` holds every account of the table, each once. */
  ghost predicate AccountList(list: seq<Account>, ks: seq<string>, m: map<string, Account>) {
    && |list| == |ks| == |m|
    && Distinct(ks)
    && (forall i :: 0 <= i < |ks| ==> ks[i] in m && list[i] == m[ks[i]])
    && (forall k | k in m :: k in ks)
  }

  /** Every account sits at its own id. */
  ghost predicate AccountsKeyed(m: map<string, Account>) {
    forall k | k in m :: m[k].id == k
  }

  lemma AllListed(list: seq<Account>, m: map<string, Account>)
    requires AccountsKeyed(m) && exists ks: seq<string> :: AccountList(list, ks, m)
    ensures |list| == |m| && forall k | k in m :: m[k] in list
    ensures forall i, j :: 0 <= i < j < |list| ==> list[i].id != list[j].id
  {
    var ks: seq<string> :| AccountList(list, ks, m);
    forall k | k in m ensures m[k] in list {
      var i :| 0 <= i < |ks| && ks[i] == k;
      assert list[i] == m[k];
    }
  }

  /* ---------- the in-memory store ---------- */

  class Memory {
    var accounts: map<string, Account>
    var donors: map<string, Donor>
    var payments: map<string, Payment>
    var ledger: map<string, LedgerEntry>
    var events: set<string>
    var idempotency: map<string, string>

    ghost function View(): Data
      reads this
    {
      Data(accounts, donors, payments, ledger, events, idempotency)
    }

    ghost predicate Valid()
      reads this
    {
      Keyed(View()) && AccountsKeyed(accounts)
    }

    constructor ()
      ensures Valid() && View() == EmptyData
    {
      accounts, donors, payments := map[], map[], map[];
      ledger, events, idempotency := map[], {}, map[];
    }

    method SaveAccount(a: Account)
      requires Valid()
      modifies this
      ensures Valid() && View() == old(View()).(accounts := old(accounts)[a.id := a])
    {
      accounts := accounts[a.id := a];
    }

    method ListAccounts() returns (out: seq<Account>)
      ensures exists ks: seq<string> :: AccountList(out, ks, accounts)
    {
      out := [];
      ghost var ks: seq<string> := [];
      var rest := accounts.Keys;
      while rest != {}
        invariant |out| == |ks| && rest <= accounts.Keys && |ks| + |rest| == |accounts.Keys|
        invariant Distinct(ks)
        invariant forall i :: 0 <= i < |ks| ==> ks[i] in accounts && ks[i] !in rest && out[i] == accounts[ks[i]]
        invariant forall k | k in accounts :: k in rest || k in ks
        decreases |rest|
      {
        var k :| k in rest;
        rest := rest - {k};
        out, ks := out + [accounts[k]], ks + [k];
      }
      assert AccountList(out, ks, accounts);
    }

    method SaveDonor(d: Donor)
      requires Valid()
      modifies this
      ensures Valid() && View() == PutDonor(old(View()), d)
    {
      var k := JoinKey([d.accountID, d.id]);
      JoinedPair(d.accountID, d.id);
      donors := donors[k := d];
    }

    method GetDonor(accountID: string, donorID: string) returns (d: Option<Donor>)
      ensures d == FindDonor(View(), accountID, donorID)
    {
      var k := JoinKey([accountID, donorID]);
      JoinedPair(accountID, donorID);
      d := if k in donors then Some(donors[k]) else None;
    }

    /** The map is searched in arbitrary order. */
    method FindDonorByEmail(accountID: string, email: string) returns (d: Option<Donor>)
      ensures d.Some? ==> d.value in donors.Values && d.value.accountID == accountID && d.value.email == email
      ensures d.None? ==> forall k | k in donors :: donors[k].accountID != accountID || donors[k].email != email
    {
      var rest := donors.Keys;
      while rest != {}
        invariant rest <= donors.Keys
        invariant forall k | k in donors && k !in rest :: donors[k].accountID != accountID || donors[k].email != email
        decreases |rest|
      {
        var k :| k in rest;
        if donors[k].accountID == accountID && donors[k].email == email {
          return Some(donors[k]);
        }
        rest := rest - {k};
      }
      d := None;
    }

    method UpsertPayment(p: Payment)
      requires Valid()
      modifies this
      ensures Valid() && View() == PutPayment(old(View()), p)
    {
      var k := JoinKey([p.accountID, p.intentID]);
      JoinedPair(p.accountID, p.intentID);
      payments := payments[k := p];
    }

    method GetPayment(accountID: string, id: string) returns (p: Option<Payment>)
      ensures p == FindPayment(View(), accountID, id)
    {
      var k := JoinKey([accountID, id]);
      JoinedPair(accountID, id);
      p := if k in payments then Some(payments[k]) else None;
    }

    method ListPayments(f: PaymentFilter) returns (out: seq<Payment>)
      ensures Listing(out, payments, f)
    {
      out := [];
      ghost var ks: seq<string> := [];
      var rest := payments.Keys;
      while rest != {}
        invariant |out| == |ks| && rest <= payments.Keys && Distinct(ks)
        invariant forall i :: 0 <= i < |ks| ==>
          ks[i] in payments && ks[i] !in rest && out[i] == payments[ks[i]] && Matches(f, out[i])
        invariant forall k | k in payments && Matches(f, payments[k]) :: k in rest || k in ks
        decreases |rest|
      {
        var k :| k in rest;
        rest := rest - {k};
        var p := payments[k];
        if p.accountID != f.accountID { continue; }
        if f.productID != "" && p.productID != f.productID { continue; }
        if f.from != 0 && p.createdAt < f.from { continue; }
        if f.to != 0 && p.createdAt > f.to { continue; }
        out, ks := out + [p], ks + [k];
      }
      assert Lists(out, ks, payments, f);
    }

    method UpsertLedgerEntry(e: LedgerEntry) returns (inserted: bool)
      requires Valid()
      modifies this
      ensures Valid() && View() == PutLedger(old(View()), e)
      ensures inserted == (e.txnID !in old(ledger))
    {
      if e.txnID in ledger {
        return false;
      }
      ledger := ledger[e.txnID := e];
      inserted := true;
    }

    method MarkEventProcessed(id: string) returns (first: bool)
      requires Valid()
      modifies this
      ensures Valid() && View() == MarkEvent(old(View()), id)
      ensures first == (id !in old(events))
    {
      if id in events {
        assert events + {id} == events;
        return false;
      }
      events := events + {id};
      first := true;
    }

    method GetIdempotent(key: string) returns (id: Option<string>)
      ensures id == FindKey(View(), key)
    {
      id := if key in idempotency then Some(idempotency[key]) else None;
    }

    method SaveIdempotent(key: string, id: string)
      requires Valid()
      modifies this
      ensures Valid() && View() == PutKey(old(View()), key, id)
    {
      idempotency := idempotency[key := id];
    }
  }
}
