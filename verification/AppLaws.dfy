/** Idempotency keys, unique donors and fee rounding over whole runs. */
module AppLaws {
  import opened Domain
  import opened Store
  import opened Gateway
  import opened Webhook
  import opened App

  /* ---------- idempotency keys ---------- */

  /** One donation call, or anything else that happens in between. */
  datatype Step = Donate(input: Input, draw: Draw, now: int) | Meanwhile(gw: Gw, data: Data)

  datatype At = At(gw: Gw, data: Data)

  function Do(s: At, bps: int, step: Step): At {
    match step
    case Donate(input, x, now) => var r := StartDonation(s.gw, s.data, bps, input, x, now); At(r.gw, r.data)
    case Meanwhile(g, d) => At(g, d)
  }

  /** The gateway files each intent under its own id. */
  ghost predicate Ids(s: At) {
    forall a, id | id in Acct(s.gw, a).intents :: Acct(s.gw, a).intents[id].id == id
  }

  /** Stored keys and existing intents are still there. */
  ghost predicate Kept(s: At, t: At) {
    && (forall k | k in s.data.idempotency :: k in t.data.idempotency && t.data.idempotency[k] == s.data.idempotency[k])
    && (forall a, id | id in Acct(s.gw, a).intents :: id in Acct(t.gw, a).intents)
  }

  /** Webhooks, reconciliation and the gateway itself never touch the keys or drop an intent. */
  ghost predicate Harmless(s: At, t: At) {
    t.data.idempotency == s.data.idempotency && Kept(s, t) && Ids(t)
  }

  /** Fresh draws. Any key may come from any account. */
  ghost predicate Permitted(s: At, step: Step) {
    match step
    case Donate(input, x, _) => x.id !in Acct(s.gw, input.accountID).intents
    case Meanwhile(g, d) => Harmless(s, At(g, d))
  }

  /** `ss` are the states of a permitted run: before the first step and after each. */
  ghost predicate Run(ss: seq<At>, bps: int, steps: seq<Step>) {
    |ss| == |steps| + 1 && forall i :: 0 <= i < |steps| ==> Permitted(ss[i], steps[i]) && ss[i + 1] == Do(ss[i], bps, steps[i])
  }

  /** The stored key points at an existing intent. */
  ghost predicate Points(s: At, k: string) {
    k in s.data.idempotency && exists a :: s.data.idempotency[k] in Acct(s.gw, a).intents
  }

  ghost predicate Sound(s: At) {
    Ids(s) && forall k | k in s.data.idempotency :: Points(s, k)
  }

  function ResultOf(s: At, bps: int, step: Step): Result<PaymentIntent>
    requires step.Donate?
  {
    StartDonation(s.gw, s.data, bps, step.input, step.draw, step.now).result
  }

  /** The gateway intents a step creates for `key`: 0 or 1, read off the gateway itself. */
  ghost predicate CreatesFor(s: At, bps: int, step: Step, key: string) {
    && step.Donate? && step.input.key == key
    && step.draw.id !in Acct(s.gw, step.input.accountID).intents
    && step.draw.id in Acct(Do(s, bps, step).gw, step.input.accountID).intents
  }

  /** A call that is not turned away before the keys are looked at. */
  predicate Answered(d: Data, input: Input) {
    ValidAmount(input.amount) && FindDonor(d, input.accountID, input.donorID).Some?
  }

  /** What a creating call changes, as far as keys and intents go. */
  lemma CreateEffect(s: At, bps: int, step: Step)
    requires step.Donate? && Creates(s.data, step.input)
    ensures var t, r := Do(s, bps, step), ResultOf(s, bps, step);
      && r.Ok? && r.value.id == step.draw.id
      && (forall b :: Acct(t.gw, b).intents ==
            if b == step.input.accountID then Acct(s.gw, b).intents[step.draw.id := r.value] else Acct(s.gw, b).intents)
      && t.data.idempotency == if step.input.key != "" then s.data.idempotency[step.input.key := r.value.id] else s.data.idempotency
  {
  }

  /** What any other call does: nothing. It is turned away, or answered from the stored key. */
  lemma IdleEffect(s: At, bps: int, step: Step)
    requires step.Donate? && !Creates(s.data, step.input)
    ensures var t, r := Do(s, bps, step), ResultOf(s, bps, step);
      && t.data == s.data && (forall b :: Acct(t.gw, b) == Acct(s.gw, b))
      && (!Answered(s.data, step.input) ==> r.Err?)
      && (Answered(s.data, step.input) ==>
            step.input.key in s.data.idempotency
            && r == GetIntent(s.gw, step.input.accountID, s.data.idempotency[step.input.key]))
  {
  }

  /** A call that finds its key changes no table. If it is valid it is answered with the key's intent exactly
      when that intent is in the call's own account, and is "not found" otherwise. */
  lemma FoundKey(s: At, bps: int, step: Step)
    requires step.Donate? && step.input.key != "" && step.input.key in s.data.idempotency && Ids(s)
    ensures var t, r := Do(s, bps, step), ResultOf(s, bps, step);
            var id := s.data.idempotency[step.input.key];
      && t.data == s.data
      && (r.Ok? <==> Answered(s.data, step.input) && id in Acct(s.gw, step.input.accountID).intents)
      && (r.Ok? ==> r.value.id == id)
      && (Answered(s.data, step.input) && r.Err? ==> r == Err(NotFound))
  {
    IdleEffect(s, bps, step);
  }

  /** One donation call against the keys. */
  lemma DonateKeys(s: At, bps: int, step: Step)
    requires step.Donate? && Permitted(s, step) && Ids(s)
    ensures var t := Do(s, bps, step);
            var key := step.input.key;
            var r := ResultOf(s, bps, step);
      && Kept(s, t) && Ids(t)
      && (key != "" && r.Ok? ==>
            key in t.data.idempotency && r.value.id == t.data.idempotency[key] && r.value.id in Acct(t.gw, step.input.accountID).intents)
      && (forall k | k != "" && CreatesFor(s, bps, step, k) :: k !in s.data.idempotency && k in t.data.idempotency)
  {
    if Creates(s.data, step.input) {
      CreateEffect(s, bps, step);
    } else {
      IdleEffect(s, bps, step);
    }
  }

  lemma DonateSound(s: At, bps: int, step: Step)
    requires step.Donate? && Permitted(s, step) && Sound(s)
    ensures Sound(Do(s, bps, step))
  {
    var t := Do(s, bps, step);
    DonateKeys(s, bps, step);
    if Creates(s.data, step.input) {
      CreateEffect(s, bps, step);
    } else {
      IdleEffect(s, bps, step);
    }
    forall k | k in t.data.idempotency ensures Points(t, k) {
      if k in s.data.idempotency {
        assert Points(s, k);
      }
    }
  }

  lemma HarmlessSound(s: At, t: At)
    requires Harmless(s, t) && Sound(s)
    ensures Sound(t)
  {
    forall k | k in t.data.idempotency ensures Points(t, k) {
      assert Points(s, k);
    }
  }

  lemma StepSound(s: At, t: At, bps: int, step: Step)
    requires Permitted(s, step) && t == Do(s, bps, step) && Sound(s)
    ensures Sound(t) && Kept(s, t)
  {
    if step.Donate? {
      DonateKeys(s, bps, step);
      DonateSound(s, bps, step);
    } else {
      HarmlessSound(s, t);
    }
  }

  /** At every point of a run each stored key points at an existing intent, whoever stored it. */
  lemma {:induction false} KeysPersist(ss: seq<At>, bps: int, steps: seq<Step>, n: nat)
    requires Run(ss, bps, steps) && Sound(ss[0]) && n <= |steps|
    ensures Sound(ss[n])
  {
    if n > 0 {
      KeysPersist(ss, bps, steps, n - 1);
      StepSound(ss[n - 1], ss[n - 1 + 1], bps, steps[n - 1]);
    }
  }

  lemma OneStepKept(ss: seq<At>, bps: int, steps: seq<Step>, n: nat)
    requires Run(ss, bps, steps) && Sound(ss[0]) && n < |steps|
    ensures Kept(ss[n], ss[n + 1])
  {
    KeysPersist(ss, bps, steps, n);
    StepSound(ss[n], ss[n + 1], bps, steps[n]);
  }

  lemma KeptTwice(s: At, m: At, t: At)
    requires Kept(s, m) && Kept(m, t)
    ensures Kept(s, t)
  {
  }

  ghost predicate EachKept(ss: seq<At>) {
    forall n :: 0 <= n < |ss| - 1 ==> Kept(ss[n], ss[n + 1])
  }

  lemma {:induction false} ChainKept(ss: seq<At>, i: nat, j: nat)
    requires EachKept(ss) && i <= j < |ss|
    ensures Kept(ss[i], ss[j])
  {
    if i < j {
      ChainKept(ss, i, j - 1);
      assert Kept(ss[j - 1], ss[j - 1 + 1]);
      KeptTwice(ss[i], ss[j - 1], ss[j]);
    }
  }

  /** Between any two points of a run, keys stay as they are and no intent is lost. */
  lemma KeysStay(ss: seq<At>, bps: int, steps: seq<Step>, i: nat, j: nat)
    requires Run(ss, bps, steps) && Sound(ss[0]) && i <= j <= |steps|
    ensures Kept(ss[i], ss[j])
  {
    forall n | 0 <= n < |ss| - 1 ensures Kept(ss[n], ss[n + 1]) {
      OneStepKept(ss, bps, steps, n);
    }
    ChainKept(ss, i, j);
  }

  /** A successful call with a key leaves the key stored, with an intent of its own account. */
  lemma AfterCall(ss: seq<At>, bps: int, steps: seq<Step>, i: nat)
    requires Run(ss, bps, steps) && Sound(ss[0]) && i < |steps| && steps[i].Donate? && steps[i].input.key != ""
    ensures var key, r := steps[i].input.key, ResultOf(ss[i], bps, steps[i]);
      && (r.Ok? ==> key in ss[i + 1].data.idempotency && ss[i + 1].data.idempotency[key] == r.value.id
                    && r.value.id in Acct(ss[i + 1].gw, steps[i].input.accountID).intents)
      && (CreatesFor(ss[i], bps, steps[i], key) ==> key !in ss[i].data.idempotency && key in ss[i + 1].data.idempotency)
  {
    KeysPersist(ss, bps, steps, i);
    DonateKeys(ss[i], bps, steps[i]);
  }

  /** After a successful call with a key, every later call with it changes no table. Unless it is invalid it
      returns the same intent if its account has it, as the account of the first call always does, and else
      "not found", whatever happened in between. */
  lemma OneIntentPerKey(ss: seq<At>, bps: int, steps: seq<Step>, i: nat, j: nat, key: string)
    requires Run(ss, bps, steps) && Sound(ss[0]) && key != ""
    requires i < j < |steps| && steps[i].Donate? && steps[j].Donate? && steps[i].input.key == key == steps[j].input.key
    requires ResultOf(ss[i], bps, steps[i]).Ok?
    ensures var first, second := ResultOf(ss[i], bps, steps[i]), ResultOf(ss[j], bps, steps[j]);
      && ss[j + 1].data == ss[j].data
      && (second.Ok? <==> Answered(ss[j].data, steps[j].input) && first.value.id in Acct(ss[j].gw, steps[j].input.accountID).intents)
      && (second.Ok? ==> second.value.id == first.value.id)
      && (Answered(ss[j].data, steps[j].input) && second.Err? ==> second == Err(NotFound))
      && first.value.id in Acct(ss[j].gw, steps[i].input.accountID).intents
  {
    AfterCall(ss, bps, steps, i);
    KeysStay(ss, bps, steps, i + 1, j);
    KeysPersist(ss, bps, steps, j);
    FoundKey(ss[j], bps, steps[j]);
  }

  /** Over any run, whoever calls, at most one call creates an intent for a key. */
  lemma CreatesOnce(ss: seq<At>, bps: int, steps: seq<Step>, i: nat, j: nat, key: string)
    requires Run(ss, bps, steps) && Sound(ss[0]) && key != "" && i < j < |steps|
    requires CreatesFor(ss[i], bps, steps[i], key)
    ensures !CreatesFor(ss[j], bps, steps[j], key)
  {
    AfterCall(ss, bps, steps, i);
    KeysStay(ss, bps, steps, i + 1, j);
    if steps[j].Donate? && steps[j].input.key == key {
      AfterCall(ss, bps, steps, j);
    }
  }

  /* ---------- unique donors ---------- */

  /** At most one donor per account and email; ids come from the gateway, which never repeats one. */
  ghost predicate DonorInv(d: Data, issued: set<string>) {
    && Keyed(d)
    && (forall k | k in d.donors :: Plain(d.donors[k].id) && d.donors[k].id in issued)
    && (forall k, l | k in d.donors && l in d.donors ::
          MatchesDonor(d.donors[k], d.donors[l].accountID, d.donors[l].email) ==> k == l)
  }

  ghost predicate KnownDonor(d: Data, r: Donor) {
    RowKey(r.accountID, r.id) in d.donors && d.donors[RowKey(r.accountID, r.id)] == r
  }

  lemma EnsureKeepsUnique(d: Data, e: Data, accountID: string, email: string, name: string, freshID: string, r: Donor, issued: set<string>)
    requires DonorInv(d, issued) && freshID !in issued && Plain(freshID)
    requires EnsureStep(d, e, accountID, email, name, freshID, r)
    ensures DonorInv(e, issued + {freshID})
    ensures KnownDonor(e, r) && MatchesDonor(r, accountID, email)
    ensures forall x: Donor | KnownDonor(d, x) :: KnownDonor(e, x)
    ensures forall x: Donor | KnownDonor(d, x) && MatchesDonor(x, accountID, email) :: r == x && e == d
  {
    forall k | k in d.donors ensures k != RowKey(accountID, freshID) {
      if k == RowKey(accountID, freshID) {
        RowKeyInjective(d.donors[k].accountID, d.donors[k].id, accountID, freshID);
      }
    }
  }

  /** One `EnsureDonor` call of a run, with the state after it and the donor it returned. */
  datatype DonorCall = DonorCall(accountID: string, email: string, name: string, freshID: string, after: Data, result: Donor)

  function Before(d: Data, calls: seq<DonorCall>, i: nat): Data
    requires i <= |calls|
  {
    if i == 0 then d else calls[i - 1].after
  }

  ghost predicate CallOk(d: Data, calls: seq<DonorCall>, issued: set<string>, i: nat)
    requires i < |calls|
  {
    var c := calls[i];
    && EnsureStep(Before(d, calls, i), c.after, c.accountID, c.email, c.name, c.freshID, c.result)
    && Plain(c.freshID)
    && c.freshID !in issued + FreshIDs(calls, i)
  }

  /** Any run of calls, each drawing a customer id the gateway never issued before. */
  ghost predicate DonorRun(d: Data, calls: seq<DonorCall>, issued: set<string>) {
    forall i :: 0 <= i < |calls| ==> CallOk(d, calls, issued, i)
  }

  function FreshIDs(calls: seq<DonorCall>, n: nat): set<string>
    requires n <= |calls|
  {
    if n == 0 then {} else FreshIDs(calls, n - 1) + {calls[n - 1].freshID}
  }

  /** Every reachable store has one donor per account and email. */
  lemma {:induction false} DonorsUnique(d: Data, calls: seq<DonorCall>, issued: set<string>, n: nat)
    requires DonorInv(d, issued) && DonorRun(d, calls, issued) && n <= |calls|
    ensures DonorInv(Before(d, calls, n), issued + FreshIDs(calls, n))
  {
    if n > 0 {
      DonorsUnique(d, calls, issued, n - 1);
      CallKeeps(d, calls, issued, n - 1);
    } else {
      assert issued + FreshIDs(calls, 0) == issued;
    }
  }

  lemma CallKeeps(d: Data, calls: seq<DonorCall>, issued: set<string>, n: nat)
    requires DonorRun(d, calls, issued) && n < |calls|
    requires DonorInv(Before(d, calls, n), issued + FreshIDs(calls, n))
    ensures DonorInv(Before(d, calls, n + 1), issued + FreshIDs(calls, n + 1))
    ensures KnownDonor(calls[n].after, calls[n].result) && MatchesDonor(calls[n].result, calls[n].accountID, calls[n].email)
    ensures forall x: Donor | KnownDonor(Before(d, calls, n), x) :: KnownDonor(Before(d, calls, n + 1), x)
    ensures forall x: Donor | KnownDonor(Before(d, calls, n), x) && MatchesDonor(x, calls[n].accountID, calls[n].email) ::
              calls[n].result == x && calls[n].after == Before(d, calls, n)
  {
    var c := calls[n];
    assert CallOk(d, calls, issued, n);
    var seen := issued + FreshIDs(calls, n);
    EnsureKeepsUnique(Before(d, calls, n), c.after, c.accountID, c.email, c.name, c.freshID, c.result, seen);
    assert seen + {c.freshID} == issued + FreshIDs(calls, n + 1);
  }

  /** Donors stay as they are. */
  lemma {:induction false} DonorStays(d: Data, calls: seq<DonorCall>, issued: set<string>, i: nat, n: nat, x: Donor)
    requires DonorInv(d, issued) && DonorRun(d, calls, issued) && i <= n <= |calls|
    requires KnownDonor(Before(d, calls, i), x)
    ensures KnownDonor(Before(d, calls, n), x)
  {
    if i < n {
      DonorStays(d, calls, issued, i, n - 1, x);
      DonorsUnique(d, calls, issued, n - 1);
      CallKeeps(d, calls, issued, n - 1);
    }
  }

  /** Once an account's email has a donor, every later call returns that donor and creates nothing. */
  lemma SameDonorForever(d: Data, calls: seq<DonorCall>, issued: set<string>, i: nat, j: nat)
    requires DonorInv(d, issued) && DonorRun(d, calls, issued) && i < j < |calls|
    requires calls[i].accountID == calls[j].accountID && calls[i].email == calls[j].email
    ensures calls[j].result == calls[i].result && calls[j].after == Before(d, calls, j)
  {
    DonorsUnique(d, calls, issued, i);
    CallKeeps(d, calls, issued, i);
    DonorStays(d, calls, issued, i + 1, j, calls[i].result);
    DonorsUnique(d, calls, issued, j);
    CallKeeps(d, calls, issued, j);
  }

  /* ---------- the fee ---------- */

  /** The fee is the rounded-down share exactly when the product fits in 64 bits. */
  lemma FeeExactIffFits(amount: nat, bps: nat)
    ensures FeeAmount(amount, bps) == amount * bps / 10000 <==> amount * bps < TwoTo63
  {
    var p := amount * bps;
    var w := Wrap64(p);
    if p >= TwoTo63 {
      assert p - w >= TwoTo64 by {
        WrapGap(p);
      }
      assert w < TwoTo63;
      if w >= 0 {
        assert w / 10000 <= (p - TwoTo64) / 10000 < p / 10000;
      }
    }
  }

  lemma WrapGap(p: nat)
    requires p >= TwoTo63
    ensures p - Wrap64(p) >= TwoTo64
  {
    var q := (p + TwoTo63) / TwoTo64;
    assert p + TwoTo63 == q * TwoTo64 + (p + TwoTo63) % TwoTo64;
    assert q >= 1;
  }

  /** For a rate of at most 100 percent the fee lies between nothing and the amount, and grows with it. */
  lemma FeeWithinAmount(amount: nat, more: nat, bps: nat)
    requires bps <= 10000 && amount <= more && more * bps < TwoTo63
    ensures 0 <= FeeAmount(amount, bps) <= amount
    ensures FeeAmount(amount, bps) <= FeeAmount(more, bps)
  {
    TimesMonotone(bps, 10000, amount);
    TimesMonotone(amount, more, bps);
    FeeExactIffFits(amount, bps);
    FeeExactIffFits(more, bps);
    DivMonotone(amount * bps, more * bps);
    DivMonotone(amount * bps, amount * 10000);
    assert amount * 10000 / 10000 == amount;
  }

  lemma TimesMonotone(x: nat, y: nat, z: nat)
    requires x <= y
    ensures 0 <= x * z <= y * z && x * z == z * x
  {
  }

  lemma DivMonotone(x: nat, y: nat)
    requires x <= y
    ensures x / 10000 <= y / 10000
  {
  }

  function Total(parts: seq<nat>): nat {
    if |parts| == 0 then 0 else Total(parts[..|parts| - 1]) + parts[|parts| - 1]
  }

  function FeeTotal(parts: seq<nat>, bps: nat): int {
    if |parts| == 0 then 0 else FeeTotal(parts[..|parts| - 1], bps) + FeeAmount(parts[|parts| - 1], bps)
  }

  lemma DivAdds(x: nat, y: nat)
    ensures x / 10000 + y / 10000 <= (x + y) / 10000 <= x / 10000 + y / 10000 + 1
  {
  }

  /** Splitting a donation into n parts never raises the fee, and lowers it by at most n - 1 minor units. */
  lemma {:induction false} SplittingLosesLittle(parts: seq<nat>, bps: nat)
    requires |parts| >= 1 && Total(parts) * bps < TwoTo63
    ensures FeeTotal(parts, bps) <= FeeAmount(Total(parts), bps) <= FeeTotal(parts, bps) + |parts| - 1
  {
    var n := |parts| - 1;
    var head, last := parts[..n], parts[n];
    if n == 0 {
      assert Total(head) == 0 && FeeTotal(head, bps) == 0;
    } else {
      assert Total(parts) * bps == Total(head) * bps + last * bps;
      assert Total(head) * bps >= 0 && last * bps >= 0;
      SplittingLosesLittle(head, bps);
      FeeExactIffFits(Total(parts), bps);
      FeeExactIffFits(Total(head), bps);
      FeeExactIffFits(last, bps);
      DivAdds(Total(head) * bps, last * bps);
    }
  }
}
