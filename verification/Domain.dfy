/** The persisted entities, the gateway's objects and money in integer minor units. */
module Domain {
  datatype Option<+T> = None | Some(value: T)

  datatype Result<+T> = Ok(value: T) | Err(error: Failure)

  datatype Failure = Invalid | NotFound | MissingIntent | NotifyFailed | ForwardFailed | GatewayDown

  /** Amount in the smallest unit of the currency. */
  datatype Money = Money(amount: int, currency: string)

  /** Go's `strings.ToUpper` on one ASCII character. */
  function UpperChar(c: char): char {
    if 'a' <= c <= 'z' then (c as int - 32) as char else c
  }

  function Upper(s: string): (u: string)
    ensures |u| == |s|
    ensures forall i :: 0 <= i < |s| ==> u[i] == UpperChar(s[i])
  {
    seq(|s|, i requires 0 <= i < |s| => UpperChar(s[i]))
  }

  predicate IsSpace(c: char) {
    c == ' ' || c == '\t' || c == '\n' || c == '\r' || c as int == 11 || c as int == 12
  }

  function TrimLeft(s: string): string {
    if |s| > 0 && IsSpace(s[0]) then TrimLeft(s[1..]) else s
  }

  function TrimRight(s: string): string {
    if |s| > 0 && IsSpace(s[|s| - 1]) then TrimRight(s[..|s| - 1]) else s
  }

  function Trim(s: string): string {
    TrimRight(TrimLeft(s))
  }

  /** No whitespace at either end. */
  predicate Trimmed(s: string) {
    |s| > 0 ==> !IsSpace(s[0]) && !IsSpace(s[|s| - 1])
  }

  function Normalise(currency: string): string {
    Upper(Trim(currency))
  }

  /** `money.New`: the currency code is trimmed and upper-cased. */
  function NewMoney(amount: int, currency: string): Money {
    Money(amount, Normalise(currency))
  }

  /** `Money.Validate`. */
  predicate ValidAmount(m: Money) {
    |m.currency| == 3 && m.amount > 0
  }

  datatype Status = Requested | Succeeded | Failed | Canceled

  /** A status that a webhook or a reconciliation pass can report. */
  predicate Terminal(s: Status) {
    s == Succeeded || s == Failed
  }

  datatype Source = NoSource | Api | Webhook | Reconciliation

  type Metadata = map<string, string>

  /** A Go map read: an absent key reads as the empty string. */
  function Lookup(m: Metadata, k: string): string {
    if k in m then m[k] else ""
  }

  datatype Account = Account(id: string, name: string, stripeAccountID: string)

  datatype Donor = Donor(id: string, accountID: string, email: string, name: string, stripeCustomerID: string)

  datatype Payment = Payment(
    accountID: string,
    donorID: string,
    productID: string,
    intentID: string,
    amount: Money,
    status: Status,
    applicationFee: Money,
    source: Source,
    failureReason: string,
    createdAt: int,
    updatedAt: int,
    metadata: Metadata)

  datatype LedgerEntry = LedgerEntry(accountID: string, txnID: string, kind: string, amount: Money, fee: Money, createdAt: int)

  datatype Customer = Customer(id: string, email: string, name: string)

  datatype PaymentIntent = PaymentIntent(
    id: string,
    status: Status,
    amount: Money,
    customerID: string,
    failureReason: string,
    metadata: Metadata,
    created: int)

  datatype BalanceTxn = BalanceTxn(id: string, kind: string, amount: Money, fee: Money, sourceID: string, created: int)

  datatype EventType = PaymentSucceeded | PaymentFailed | OtherEvent(name: string)

  datatype Event = Event(id: string, kind: EventType, account: string, intent: Option<PaymentIntent>)

  /** The id holds no key separator. */
  predicate Plain(s: string) {
    '|' !in s
  }

  lemma {:induction false} TrimmedFixed(s: string)
    requires Trimmed(s)
    ensures Trim(s) == s
  {
  }

  lemma {:induction false} TrimRightTrimmed(s: string)
    requires |s| > 0 ==> !IsSpace(s[0])
    ensures Trimmed(TrimRight(s))
  {
    if |s| > 0 && IsSpace(s[|s| - 1]) {
      TrimRightTrimmed(s[..|s| - 1]);
    }
  }

  lemma {:induction false} TrimLeftHead(s: string)
    ensures var t := TrimLeft(s); |t| > 0 ==> !IsSpace(t[0])
  {
    if |s| > 0 && IsSpace(s[0]) {
      TrimLeftHead(s[1..]);
    }
  }

  /** Normalising twice is normalising once: upper-casing introduces no whitespace. */
  lemma NormaliseIdempotent(c: string)
    ensures Normalise(Normalise(c)) == Normalise(c)
  {
    var t := Trim(c);
    TrimLeftHead(c);
    TrimRightTrimmed(TrimLeft(c));
    assert Trimmed(Upper(t));
    TrimmedFixed(Upper(t));
    assert Upper(Upper(t)) == Upper(t);
  }

  /** The blanks that are trimmed: space, tab, line feed, carriage return, vertical tab and form feed. */
  const Blanks := [' ', '\t', '\n', '\r', 11 as char, 12 as char]

  ghost predicate AllBlank(s: string) {
    forall k :: 0 <= k < |s| ==> s[k] in Blanks
  }

  /** `u` is `s[i..j]` with the letters a to z made capital: everything before and after it is blank, and it
      neither begins nor ends with a blank. */
  ghost predicate Capitals(s: string, i: nat, j: nat, u: string) {
    && i <= j <= |s| && |u| == j - i
    && AllBlank(s[..i]) && AllBlank(s[j..])
    && (i < j ==> s[i] !in Blanks && s[j - 1] !in Blanks)
    && (forall k :: 0 <= k < |u| ==>
          if 'a' <= s[i + k] <= 'z' then u[k] as int - 'A' as int == s[i + k] as int - 'a' as int else u[k] == s[i + k])
  }

  lemma {:induction false} TrimLeftCuts(s: string) returns (i: nat)
    ensures i <= |s| && TrimLeft(s) == s[i..] && AllBlank(s[..i])
  {
    i := 0;
    if |s| > 0 && IsSpace(s[0]) {
      var k := TrimLeftCuts(s[1..]);
      i := k + 1;
      assert s[..i] == [s[0]] + s[1..][..k];
    }
  }

  lemma {:induction false} TrimRightCuts(s: string) returns (j: nat)
    ensures j <= |s| && TrimRight(s) == s[..j] && AllBlank(s[j..])
  {
    j := |s|;
    if |s| > 0 && IsSpace(s[|s| - 1]) {
      j := TrimRightCuts(s[..|s| - 1]);
      assert s[j..] == s[..|s| - 1][j..] + [s[|s| - 1]];
    }
  }

  /** Normalising cuts the blanks off both ends and makes every letter capital, and does nothing else. */
  lemma NormaliseIs(s: string)
    ensures exists i: nat, j: nat :: Capitals(s, i, j, Normalise(s))
  {
    var i := TrimLeftCuts(s);
    var j := TrimRightCuts(s[i..]);
    TrimLeftHead(s);
    TrimRightTrimmed(TrimLeft(s));
    assert s[i..][..j] == s[i..i + j] == Trim(s) && s[i..][j..] == s[i + j..];
    assert Trimmed(s[i..i + j]);
    assert forall c: char :: c in Blanks <==> IsSpace(c);
    assert Capitals(s, i, i + j, Normalise(s));
  }
}
