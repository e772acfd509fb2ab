/** The parts of the Stripe adapter that loop: cursor pagination and the signature header. */
module Stripe {
  import opened Domain

  /* ---------- the server side of pagination ---------- */

  datatype Page<T> = Page(data: seq<T>, more: bool)

  /** A list endpoint: how many items it serves from each position, what it says about more,
      and whether the request gets through at all. */
  datatype Server<!T> = Server(list: seq<T>, id: T -> string, size: nat -> nat, more: nat -> bool, up: nat -> bool)

  ghost predicate UniqueIds<T>(srv: Server<T>) {
    forall i, j :: 0 <= i < j < |srv.list| ==> srv.id(srv.list[i]) != srv.id(srv.list[j])
  }

  /** The position after the item named by the cursor. */
  function After<T>(srv: Server<T>, cursor: string, n: nat): (r: nat)
    requires n <= |srv.list|
    ensures r <= |srv.list|
    decreases |srv.list| - n
  {
    if n == |srv.list| then n
    else if srv.id(srv.list[n]) == cursor then n + 1
    else After(srv, cursor, n + 1)
  }

  function Position<T>(srv: Server<T>, cursor: Option<string>): (r: nat)
    ensures r <= |srv.list|
  {
    match cursor
    case None => 0
    case Some(c) => After(srv, c, 0)
  }

  function PageAt<T>(srv: Server<T>, n: nat): (p: Page<T>)
    requires n <= |srv.list|
    ensures n + |p.data| <= |srv.list|
  {
    var k := if n + srv.size(n) <= |srv.list| then srv.size(n) else |srv.list| - n;
    Page(srv.list[n..n + k], srv.more(n))
  }

  function Request<T>(srv: Server<T>, cursor: Option<string>): Result<Page<T>> {
    var n := Position(srv, cursor);
    if srv.up(n) then Ok(PageAt(srv, n)) else Err(GatewayDown)
  }

  /** A cursor naming an item leads to the position after it. */
  lemma {:induction false} AfterItem<T>(srv: Server<T>, i: nat, n: nat)
    requires UniqueIds(srv) && n <= i < |srv.list|
    ensures After(srv, srv.id(srv.list[i]), n) == i + 1
    decreases i - n
  {
    if n < i {
      AfterItem(srv, i, n + 1);
    }
  }

  /* ---------- what a client gathers ---------- */

  /** The position after the page served at `n`. */
  function PageEnd<T>(srv: Server<T>, n: nat): (r: nat)
    requires n <= |srv.list|
    ensures n <= r <= |srv.list|
  {
    n + |PageAt(srv, n).data|
  }

  /** The client asks again only after a non-empty page with more to come. */
  predicate GoesOn<T>(srv: Server<T>, n: nat)
    requires n <= |srv.list|
  {
    srv.up(n) && srv.more(n) && PageEnd(srv, n) > n
  }

  /** Where the last page ends; `None` when a request fails on the way. */
  function Reached<T>(srv: Server<T>, n: nat): (r: Option<nat>)
    requires n <= |srv.list|
    ensures r.Some? ==> n <= r.value <= |srv.list|
    decreases |srv.list| - n
  {
    if !srv.up(n) then None
    else if GoesOn(srv, n) then Reached(srv, PageEnd(srv, n))
    else Some(PageEnd(srv, n))
  }

  /** The positions requested from `n` on. */
  ghost function Visits<T>(srv: Server<T>, n: nat): (r: set<nat>)
    requires n <= |srv.list|
    ensures n in r && forall k | k in r :: k <= |srv.list|
    decreases |srv.list| - n
  {
    {n} + if GoesOn(srv, n) then Visits(srv, PageEnd(srv, n)) else {}
  }

  /** A page stops short when items remain and it is empty or says it is the last. */
  predicate Short<T>(srv: Server<T>, n: nat)
    requires n <= |srv.list|
  {
    PageEnd(srv, n) < |srv.list| && (!srv.more(n) || PageEnd(srv, n) == n)
  }

  /** The client ends with the whole list exactly when every request gets through and no requested page
      stops short: page sizes and a stray `has_more` on the last page do not matter. */
  lemma {:induction false} CompleteIff<T>(srv: Server<T>, n: nat)
    requires n <= |srv.list|
    ensures Reached(srv, n).Some? <==> forall k | k in Visits(srv, n) :: srv.up(k)
    ensures Reached(srv, n) == Some(|srv.list|) <==> forall k | k in Visits(srv, n) :: srv.up(k) && !Short(srv, k)
    decreases |srv.list| - n
  {
    if GoesOn(srv, n) {
      CompleteIff(srv, PageEnd(srv, n));
      assert Visits(srv, n) == {n} + Visits(srv, PageEnd(srv, n));
    } else {
      assert Visits(srv, n) == {n};
    }
  }

  /** A server that is never empty early and never denies what remains is listed completely. */
  lemma TruthfulIsComplete<T>(srv: Server<T>)
    requires forall n: nat :: srv.up(n)
    requires forall n: nat | n < |srv.list| :: srv.size(n) > 0
    requires forall n: nat | n + srv.size(n) < |srv.list| :: srv.more(n)
    ensures Reached(srv, 0) == Some(|srv.list|)
  {
    CompleteIff(srv, 0);
    forall k | k in Visits(srv, 0) ensures srv.up(k) && !Short(srv, k) {
      if PageEnd(srv, k) < |srv.list| {
        assert PageEnd(srv, k) == k + srv.size(k);
      }
    }
  }

  /** The last item of a page is the cursor to the position after it. */
  lemma CursorMoves<T>(srv: Server<T>, n: nat)
    requires UniqueIds(srv) && n <= |srv.list| && PageEnd(srv, n) > n
    ensures var p := PageAt(srv, n);
            Position(srv, Some(srv.id(p.data[|p.data| - 1]))) == PageEnd(srv, n)
  {
    AfterItem(srv, PageEnd(srv, n) - 1, 0);
  }

  /* ---------- the two listings ---------- */

  datatype RawTxn = RawTxn(id: string, kind: string, amount: int, fee: int, currency: string, source: string, created: int)

  function ToTxn(d: RawTxn): BalanceTxn {
    BalanceTxn(d.id, d.kind, NewMoney(d.amount, d.currency), NewMoney(d.fee, d.currency), d.source, d.created)
  }

  datatype RawIntent = RawIntent(id: string, status: string, amount: int, currency: string, customer: string, created: int,
                                 metadata: Metadata, lastError: Option<string>)

  function MapStatus(s: string): Status {
    if s == "succeeded" then Succeeded else if s == "canceled" then Canceled else Requested
  }

  /** An error makes the intent failed only while it waits for another payment method. */
  function ToIntent(o: RawIntent): PaymentIntent {
    var failed := o.lastError.Some? && o.status == "requires_payment_method";
    PaymentIntent(o.id, if failed then Failed else MapStatus(o.status), NewMoney(o.amount, o.currency), o.customer,
                  if o.lastError.Some? then o.lastError.value else "", o.metadata, o.created)
  }

  function ToTxns(ds: seq<RawTxn>): (r: seq<BalanceTxn>)
    ensures |r| == |ds|
  {
    seq(|ds|, i requires 0 <= i < |ds| => ToTxn(ds[i]))
  }

  function ToIntents(ds: seq<RawIntent>): (r: seq<PaymentIntent>)
    ensures |r| == |ds|
  {
    seq(|ds|, i requires 0 <= i < |ds| => ToIntent(ds[i]))
  }

  /** The transaction says what the item says, its amount and its fee in the item's currency, normalised. */
  predicate ReadsTxn(t: BalanceTxn, d: RawTxn) {
    && t.id == d.id && t.kind == d.kind && t.sourceID == d.source && t.created == d.created
    && t.amount.amount == d.amount && t.amount.currency == Normalise(d.currency)
    && t.fee.amount == d.fee && t.fee.currency == Normalise(d.currency)
  }

  /** The item was declined: it waits for another payment method after an error. */
  predicate Declined(o: RawIntent) {
    o.status == "requires_payment_method" && o.lastError.Some?
  }

  /** The intent says what the item says: failed exactly if it was declined, succeeded and canceled exactly if it
      says so, and requested otherwise; the reason is the error's text, whatever the status. */
  predicate ReadsIntent(pi: PaymentIntent, o: RawIntent) {
    && pi.id == o.id && pi.customerID == o.customer && pi.metadata == o.metadata && pi.created == o.created
    && pi.amount.amount == o.amount && pi.amount.currency == Normalise(o.currency)
    && (pi.status == Failed <==> Declined(o))
    && (pi.status == Succeeded <==> o.status == "succeeded")
    && (pi.status == Canceled <==> o.status == "canceled")
    && (if o.lastError.Some? then pi.failureReason == o.lastError.value else pi.failureReason == "")
  }

  ghost predicate ReadAll<R, T>(ts: seq<T>, ds: seq<R>, says: (T, R) -> bool) {
    |ts| == |ds| && forall i :: 0 <= i < |ds| ==> says(ts[i], ds[i])
  }

  /** Every transaction of a listing reads its own item. */
  lemma TxnsRead(ds: seq<RawTxn>)
    ensures ReadAll(ToTxns(ds), ds, ReadsTxn)
  {
  }

  /** Every intent of a listing reads its own item. */
  lemma IntentsRead(ds: seq<RawIntent>)
    ensures ReadAll(ToIntents(ds), ds, ReadsIntent)
  {
  }

  lemma TxnsConcat(list: seq<RawTxn>, n: nat, m: nat)
    requires n <= m <= |list|
    ensures ToTxns(list[..n]) + ToTxns(list[n..m]) == ToTxns(list[..m])
  {
  }

  /** The loop over one page. */
  method AppendTxns(txns: seq<BalanceTxn>, data: seq<RawTxn>) returns (out: seq<BalanceTxn>)
    ensures out == txns + ToTxns(data)
  {
    out := txns;
    for i := 0 to |data|
      invariant out == txns + ToTxns(data[..i])
    {
      out := out + [ToTxn(data[i])];
    }
    assert data[..|data|] == data;
  }

  lemma IntentsConcat(list: seq<RawIntent>, n: nat, m: nat)
    requires n <= m <= |list|
    ensures ToIntents(list[..n]) + ToIntents(list[n..m]) == ToIntents(list[..m])
  {
  }

  /** The loop over one page. */
  method AppendIntents(pis: seq<PaymentIntent>, data: seq<RawIntent>) returns (out: seq<PaymentIntent>)
    ensures out == pis + ToIntents(data)
  {
    out := pis;
    for i := 0 to |data|
      invariant out == pis + ToIntents(data[..i])
    {
      out := out + [ToIntent(data[i])];
    }
    assert data[..|data|] == data;
  }

  /** Each item once and in order, up to where the pages stop; an error when a request fails. */
  method ListBalanceTransactions(srv: Server<RawTxn>) returns (r: Result<seq<BalanceTxn>>)
    requires UniqueIds(srv)
    ensures r == match Reached(srv, 0) case None => Err(GatewayDown) case Some(n) => Ok(ToTxns(srv.list[..n]))
  {
    var txns, cursor := [], None;
    ghost var n: nat := 0;
    ghost var goal := Reached(srv, 0);
    while true
      invariant n <= |srv.list| && Position(srv, cursor) == n
      invariant txns == ToTxns(srv.list[..n])
      invariant Reached(srv, n) == goal
      decreases |srv.list| - n
    {
      var answer := Request(srv, cursor);
      if answer.Err? {
        return Err(answer.error);
      }
      var out := answer.value;
      assert out == PageAt(srv, n) && out.data == srv.list[n..PageEnd(srv, n)];
      txns := AppendTxns(txns, out.data);
      TxnsConcat(srv.list, n, PageEnd(srv, n));
      if !out.more || |out.data| == 0 {
        return Ok(txns);
      }
      CursorMoves(srv, n);
      cursor := Some(srv.id(out.data[|out.data| - 1]));
      n := n + |out.data|;
    }
  }

  method ListPaymentIntents(srv: Server<RawIntent>) returns (r: Result<seq<PaymentIntent>>)
    requires UniqueIds(srv)
    ensures r == match Reached(srv, 0) case None => Err(GatewayDown) case Some(n) => Ok(ToIntents(srv.list[..n]))
  {
    var pis, cursor := [], None;
    ghost var n: nat := 0;
    ghost var goal := Reached(srv, 0);
    while true
      invariant n <= |srv.list| && Position(srv, cursor) == n
      invariant pis == ToIntents(srv.list[..n])
      invariant Reached(srv, n) == goal
      decreases |srv.list| - n
    {
      var answer := Request(srv, cursor);
      if answer.Err? {
        return Err(answer.error);
      }
      var out := answer.value;
      assert out == PageAt(srv, n) && out.data == srv.list[n..PageEnd(srv, n)];
      pis := AppendIntents(pis, out.data);
      IntentsConcat(srv.list, n, PageEnd(srv, n));
      if !out.more || |out.data| == 0 {
        return Ok(pis);
      }
      CursorMoves(srv, n);
      cursor := Some(srv.id(out.data[|out.data| - 1]));
      n := n + |out.data|;
    }
  }
}
