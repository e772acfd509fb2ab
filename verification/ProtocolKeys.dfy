/** Idempotency keys over runs of whole operations: who stored a key decides whom it answers. */
module ProtocolKeys {
  import opened Domain
  import opened Store
  import opened Gateway
  import R = Recon
  import S = ReconResult
  import W = Webhook
  import L = WebhookLaws
  import App
  import K = AppLaws
  import opened Protocol

  function AtOf(s: St): K.At {
    K.At(s.gw, s.world.data)
  }

  /* ---------- what touches keys and intents ---------- */

  /** Every operation but a donation leaves the keys as they are and keeps every intent. */
  lemma StepHarmless(s: St, c: W.Config, bps: int, step: Step)
    requires Inv(s) && (!step.Donate? || !Enabled(s, step))
    ensures K.Harmless(AtOf(s), AtOf(Apply(s, c, bps, step)))
  {
    var t := Apply(s, c, bps, step);
    StepKeeps(s, c, bps, step);
    forall a, id | id in Acct(t.gw, a).intents ensures Acct(t.gw, a).intents[id].id == id {
      assert IntentKnown(t.gw, t.world.data, a, id);
    }
    if Enabled(s, step) {
      match step {
        case Deliver(v) => L.HandleData(s.world, c, v);
        case Sweep(a, item, now) => S.ItemSettles(R.Start(s.world.data, a), a, item, now, "");
        case _ =>
      }
    }
  }

  /** Finding or creating a donor is harmless as well. */
  lemma EnsureHarmless(s: K.At, h: Gw, e: Data, accountID: string, email: string, name: string, freshID: string, r: Donor)
    requires App.EnsureStep(s.data, e, accountID, email, name, freshID, r)
    requires K.Ids(s) && forall a :: Acct(h, a).intents == Acct(s.gw, a).intents
    ensures K.Harmless(s, K.At(h, e))
  {
  }

  /** The step is a donation that creates an intent. */
  ghost predicate CreatesIn(s: St, step: Step) {
    step.Donate? && Enabled(s, step) && App.Creates(s.world.data, step.input)
  }

  /** Only a creating donation adds an intent, its own. */
  lemma IntentsStep(s: St, c: W.Config, bps: int, step: Step, a: string, id: string)
    ensures id in Acct(Apply(s, c, bps, step).gw, a).intents <==>
            id in Acct(s.gw, a).intents || (CreatesIn(s, step) && a == step.input.accountID && id == step.draw.id)
  {
    if CreatesIn(s, step) {
      K.CreateEffect(AtOf(s), bps, K.Donate(step.input, step.draw, step.now));
    } else if step.Donate? && Enabled(s, step) {
      K.IdleEffect(AtOf(s), bps, K.Donate(step.input, step.draw, step.now));
    }
  }

  /* ---------- a run of the protocol as a run of calls ---------- */

  /** The state before step `n` of a run of the protocol. */
  ghost function Before(c: W.Config, bps: int, steps: seq<Step>, n: nat): St
    requires n <= |steps|
  {
    Exec(Initial, c, bps, steps[..n])
  }

  lemma BeforeNext(c: W.Config, bps: int, steps: seq<Step>, n: nat)
    requires n < |steps|
    ensures Before(c, bps, steps, n + 1) == Apply(Before(c, bps, steps, n), c, bps, steps[n])
    ensures Inv(Before(c, bps, steps, n))
  {
    assert steps[..n + 1][..n] == steps[..n];
    InitialInv();
    RunKeeps(Initial, c, bps, steps[..n]);
  }

  /** The step as a call, or as something in between. */
  ghost function Seen(s: St, c: W.Config, bps: int, step: Step): K.Step {
    if step.Donate? && Enabled(s, step) then K.Donate(step.input, step.draw, step.now)
    else K.Meanwhile(Apply(s, c, bps, step).gw, Apply(s, c, bps, step).world.data)
  }

  lemma SeenDoes(s: St, c: W.Config, bps: int, step: Step)
    requires Inv(s)
    ensures K.Do(AtOf(s), bps, Seen(s, c, bps, step)) == AtOf(Apply(s, c, bps, step))
    ensures K.Permitted(AtOf(s), Seen(s, c, bps, step))
  {
    if !(step.Donate? && Enabled(s, step)) {
      StepHarmless(s, c, bps, step);
    }
  }

  ghost function Trace(c: W.Config, bps: int, steps: seq<Step>): (r: seq<K.Step>)
    ensures |r| == |steps| && forall n :: 0 <= n < |steps| ==> r[n] == Seen(Before(c, bps, steps, n), c, bps, steps[n])
  {
    seq(|steps|, n requires 0 <= n < |steps| => Seen(Before(c, bps, steps, n), c, bps, steps[n]))
  }

  ghost function States(c: W.Config, bps: int, steps: seq<Step>): (r: seq<K.At>)
    ensures |r| == |steps| + 1 && forall n :: 0 <= n <= |steps| ==> r[n] == AtOf(Before(c, bps, steps, n))
  {
    seq(|steps| + 1, n requires 0 <= n <= |steps| => AtOf(Before(c, bps, steps, n)))
  }

  lemma TraceRuns(c: W.Config, bps: int, steps: seq<Step>)
    ensures K.Run(States(c, bps, steps), bps, Trace(c, bps, steps)) && K.Sound(States(c, bps, steps)[0])
  {
    forall n | 0 <= n < |steps|
      ensures K.Permitted(AtOf(Before(c, bps, steps, n)), Seen(Before(c, bps, steps, n), c, bps, steps[n]))
      ensures AtOf(Before(c, bps, steps, n + 1)) == K.Do(AtOf(Before(c, bps, steps, n)), bps, Seen(Before(c, bps, steps, n), c, bps, steps[n]))
    {
      BeforeNext(c, bps, steps, n);
      SeenDoes(Before(c, bps, steps, n), c, bps, steps[n]);
    }
    assert steps[..0] == [];
  }

  /** What the donation of step `n` answers. */
  ghost function Answer(c: W.Config, bps: int, steps: seq<Step>, n: nat): Result<PaymentIntent>
    requires n < |steps| && steps[n].Donate?
  {
    var s := Before(c, bps, steps, n);
    App.StartDonation(s.gw, s.world.data, bps, steps[n].input, steps[n].draw, steps[n].now).result
  }

  lemma DonateSends(s: St, c: W.Config, bps: int, step: Step)
    requires step.Donate?
    ensures Apply(s, c, bps, step).world == s.world.(data := Apply(s, c, bps, step).world.data)
  {
  }

  /** In any run of donations, deliveries, reconciliation steps and moves of the gateway: once a call with a key
      has succeeded, a later call with it from the same account succeeds if and only if it is valid, returns
      the same intent, and changes nothing. */
  lemma KeyedCalls(c: W.Config, bps: int, steps: seq<Step>, i: nat, j: nat)
    requires i < j < |steps| && steps[i].Donate? && steps[j].Donate?
    requires steps[i].input.key == steps[j].input.key != "" && steps[i].input.accountID == steps[j].input.accountID
    requires Enabled(Before(c, bps, steps, i), steps[i]) && Enabled(Before(c, bps, steps, j), steps[j])
    requires Answer(c, bps, steps, i).Ok?
    ensures Answer(c, bps, steps, j).Ok? <==> K.Answered(Before(c, bps, steps, j).world.data, steps[j].input)
    ensures Answer(c, bps, steps, j).Ok? ==> Answer(c, bps, steps, j).value.id == Answer(c, bps, steps, i).value.id
    ensures Apply(Before(c, bps, steps, j), c, bps, steps[j]).world == Before(c, bps, steps, j).world
  {
    TraceRuns(c, bps, steps);
    var ss, trace := States(c, bps, steps), Trace(c, bps, steps);
    assert trace[i] == K.Donate(steps[i].input, steps[i].draw, steps[i].now);
    assert trace[j] == K.Donate(steps[j].input, steps[j].draw, steps[j].now);
    K.OneIntentPerKey(ss, bps, trace, i, j, steps[i].input.key);
    BeforeNext(c, bps, steps, j);
    DonateSends(Before(c, bps, steps, j), c, bps, steps[j]);
  }

  /* ---------- keys across accounts ---------- */

  /** The gateway draws each intent id once, whatever the account. */
  ghost predicate NewIds(c: W.Config, bps: int, steps: seq<Step>) {
    forall n, a :: 0 <= n < |steps| && steps[n].Donate? ==> steps[n].draw.id !in Acct(Before(c, bps, steps, n).gw, a).intents
  }

  lemma {:induction false} AlwaysOneHome(c: W.Config, bps: int, steps: seq<Step>, n: nat)
    requires NewIds(c, bps, steps) && n <= |steps|
    ensures OneHome(Before(c, bps, steps, n).gw)
  {
    if n > 0 {
      AlwaysOneHome(c, bps, steps, n - 1);
      BeforeNext(c, bps, steps, n - 1);
      var s, t := Before(c, bps, steps, n - 1), Before(c, bps, steps, n);
      forall a, b, id | id in Acct(t.gw, a).intents && id in Acct(t.gw, b).intents ensures a == b {
        IntentsStep(s, c, bps, steps[n - 1], a, id);
        IntentsStep(s, c, bps, steps[n - 1], b, id);
      }
    } else {
      assert steps[..0] == [];
    }
  }

  /** Step `i` is the call that stored key `k`. */
  ghost predicate Stores(c: W.Config, bps: int, steps: seq<Step>, i: nat, k: string) {
    i < |steps| && CreatesIn(Before(c, bps, steps, i), steps[i]) && steps[i].input.key == k
  }

  /** A key that is there was stored by a call of the run. */
  lemma {:induction false} SomeoneStored(c: W.Config, bps: int, steps: seq<Step>, n: nat, k: string)
    requires n <= |steps| && k != "" && k in Before(c, bps, steps, n).world.data.idempotency
    ensures exists i: nat :: i < n && Stores(c, bps, steps, i, k)
  {
    if n > 0 {
      var s := Before(c, bps, steps, n - 1);
      BeforeNext(c, bps, steps, n - 1);
      if k in s.world.data.idempotency {
        SomeoneStored(c, bps, steps, n - 1, k);
      } else {
        KeyAppears(s, c, bps, steps[n - 1], k);
        assert Stores(c, bps, steps, n - 1, k);
      }
    }
  }

  lemma KeyAppears(s: St, c: W.Config, bps: int, step: Step, k: string)
    requires Inv(s) && k !in s.world.data.idempotency && k in Apply(s, c, bps, step).world.data.idempotency
    ensures CreatesIn(s, step) && step.input.key == k
  {
    if step.Donate? && Enabled(s, step) {
      if CreatesIn(s, step) {
        K.CreateEffect(AtOf(s), bps, K.Donate(step.input, step.draw, step.now));
      } else {
        K.IdleEffect(AtOf(s), bps, K.Donate(step.input, step.draw, step.now));
      }
    } else {
      StepHarmless(s, c, bps, step);
    }
  }

  /** The call that stored a key stored its own intent, in its own account, and both are still there. */
  lemma StoredStays(c: W.Config, bps: int, steps: seq<Step>, i: nat, j: nat, k: string)
    requires i < j <= |steps| && k != "" && Stores(c, bps, steps, i, k)
    ensures var t := Before(c, bps, steps, j);
      && k in t.world.data.idempotency && t.world.data.idempotency[k] == steps[i].draw.id
      && steps[i].draw.id in Acct(t.gw, steps[i].input.accountID).intents
  {
    TraceRuns(c, bps, steps);
    BeforeNext(c, bps, steps, i);
    K.CreateEffect(AtOf(Before(c, bps, steps, i)), bps, K.Donate(steps[i].input, steps[i].draw, steps[i].now));
    K.KeysStay(States(c, bps, steps), bps, Trace(c, bps, steps), i + 1, j);
  }

  /** A valid donation that finds its key is answered with an intent if and only if the call that stored the
      key was for the same account, and then with that call's intent; otherwise it is "not found". Either way
      it changes nothing. */
  lemma FoundKeyIff(c: W.Config, bps: int, steps: seq<Step>, i: nat, j: nat, k: string)
    requires NewIds(c, bps, steps) && k != "" && i < j < |steps| && Stores(c, bps, steps, i, k)
    requires steps[j].Donate? && steps[j].input.key == k && K.Answered(Before(c, bps, steps, j).world.data, steps[j].input)
    ensures Answer(c, bps, steps, j).Ok? <==> steps[j].input.accountID == steps[i].input.accountID
    ensures Answer(c, bps, steps, j).Ok? ==> Answer(c, bps, steps, j).value.id == steps[i].draw.id
    ensures Answer(c, bps, steps, j).Err? ==> Answer(c, bps, steps, j) == Err(NotFound)
    ensures Apply(Before(c, bps, steps, j), c, bps, steps[j]).world == Before(c, bps, steps, j).world
  {
    var s := Before(c, bps, steps, j);
    TraceRuns(c, bps, steps);
    K.KeysPersist(States(c, bps, steps), bps, Trace(c, bps, steps), j);
    StoredStays(c, bps, steps, i, j, k);
    AlwaysOneHome(c, bps, steps, j);
    K.FoundKey(AtOf(s), bps, K.Donate(steps[j].input, steps[j].draw, steps[j].now));
    DonateSends(s, c, bps, steps[j]);
  }

  /* ---------- a key of one account blocks another ---------- */

  const GiverA := Donor("cus_a", "a", "x@y.z", "A", "cus_a")
  const GiverB := Donor("cus_b", "b", "x@y.z", "B", "cus_b")
  const GiftA := App.Input("a", "", "cus_a", "prod", Money(500, "USD"), "", "k", "", map[])
  const GiftB := GiftA.(accountID := "b", donorID := "cus_b")
  const DrawA := Draw("pi_a", "txn_a", 5, 5)
  const DrawB := Draw("pi_b", "txn_b", 5, 5)

  lemma ExecSnoc(c: W.Config, bps: int, steps: seq<Step>, step: Step)
    ensures Exec(Initial, c, bps, steps + [step]) == Apply(Exec(Initial, c, bps, steps), c, bps, step)
  {
    assert (steps + [step])[..|steps|] == steps;
  }

  /** Both donors are known, and nothing else has happened. */
  lemma BothKnown(c: W.Config, bps: int) returns (s: St, steps: seq<Step>)
    ensures steps == [SaveDonor(GiverA), SaveDonor(GiverB)] && s == Exec(Initial, c, bps, steps)
    ensures s.gw == EmptyGw && s.world.data.idempotency == map[]
    ensures FindDonor(s.world.data, "a", "cus_a") == Some(GiverA) && FindDonor(s.world.data, "b", "cus_b") == Some(GiverB)
  {
    steps := [] + [SaveDonor(GiverA)] + [SaveDonor(GiverB)];
    ExecSnoc(c, bps, [], SaveDonor(GiverA));
    ExecSnoc(c, bps, [] + [SaveDonor(GiverA)], SaveDonor(GiverB));
    s := Exec(Initial, c, bps, steps);
    assert RowKey("a", "cus_a")[0] != RowKey("b", "cus_b")[0];
  }

  /** Two accounts without a separator in their ids use the same key. The second call succeeds by itself, and
      is "not found" after the first. */
  lemma KeyOfAnotherAccount(c: W.Config, bps: int) returns (alone: St, after: St, steps: seq<Step>)
    ensures alone == Exec(Initial, c, bps, steps) && after == Exec(Initial, c, bps, steps + [Donate(GiftA, DrawA, 6)])
    ensures App.StartDonation(alone.gw, alone.world.data, bps, GiftB, DrawB, 7).result.Ok?
    ensures App.StartDonation(after.gw, after.world.data, bps, GiftB, DrawB, 7).result == Err(NotFound)
    ensures App.StartDonation(after.gw, after.world.data, bps, GiftB, DrawB, 7).data == after.world.data
  {
    alone, steps := BothKnown(c, bps);
    ExecSnoc(c, bps, steps, Donate(GiftA, DrawA, 6));
    after := Exec(Initial, c, bps, steps + [Donate(GiftA, DrawA, 6)]);
    assert '|' !in "pi_a";
    K.CreateEffect(AtOf(alone), bps, K.Donate(GiftA, DrawA, 6));
    K.CreateEffect(AtOf(alone), bps, K.Donate(GiftB, DrawB, 7));
    assert after.world.data.donors == alone.world.data.donors;
    K.IdleEffect(AtOf(after), bps, K.Donate(GiftB, DrawB, 7));
  }
}
