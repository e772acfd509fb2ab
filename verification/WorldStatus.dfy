/** Which operation can take a terminal row back, and a run in which it does. */
module WorldStatus {
  import opened Domain
  import opened Store
  import opened Gateway
  import opened Recon
  import opened ReconResult
  import R = ReconRace
  import opened World
  import W = Webhook
  import App

  ghost predicate TerminalRow(s: Sys, k: string) {
    Cell(s.data, k).Some? && Terminal(Cell(s.data, k).value.status)
  }

  /** The late upsert of a donation whose webhook or reconciliation was faster. */
  ghost predicate LateStart(s: Sys, act: Act, k: string) {
    && act.Advance? && act.i < |s.tasks| && s.tasks[act.i].StartWrite?
    && var row := s.tasks[act.i].row;
       RowKey(row.accountID, row.intentID) == k && !Terminal(row.status)
  }

  /** The row a task is about to write, if its next operation is a write. */
  function Pending(t: Task): Option<Payment> {
    match t
    case StartWrite(row, _) => Some(row)
    case HandleWrite(_, row) => Some(row)
    case Sweep(_, _, _, _, w) => if !R.Done(w) && w.stage.Writing? then Some(w.stage.row) else None
    case _ => None
  }

  lemma AdvanceCell(s: Sys, bps: int, t: Task, x: Draw, now: int, pis: seq<PaymentIntent>, k: string)
    ensures var p := Pending(t);
      Cell(AdvanceTask(s, bps, t, x, now, pis).0.data, k) ==
      if p.Some? && RowKey(p.value.accountID, p.value.intentID) == k then p else Cell(s.data, k)
  {
    match t
    case Sweep(a, _, _, _, w) =>
      if !R.Done(w) {
        assert AdvanceTask(s, bps, t, x, now, pis).0.data == R.StepWorker(s.data, a, w, now).0;
      }
    case _ =>
  }

  lemma OtherActsCell(s: Sys, bps: int, act: Act, k: string)
    requires !act.Advance?
    ensures Cell(Apply(s, bps, act).data, k) == Cell(s.data, k)
  {
  }

  /** "Terminal is final" fails in exactly one way: no handler, pass, crash or gateway move takes a
      terminal row back, and a donation's unconditional upsert does so whenever it comes late. */
  lemma OnlyLateStartReopens(s: Sys, bps: int, act: Act, k: string)
    requires Inv(s) && TerminalRow(s, k)
    ensures !TerminalRow(Apply(s, bps, act), k) <==> LateStart(s, act, k)
  {
    if !act.Advance? {
      OtherActsCell(s, bps, act, k);
    } else if Enabled(s, act) {
      var t := s.tasks[act.i];
      assert TaskOk(s.gw, t);
      AdvanceCell(s, bps, t, act.draw, act.now, act.pis, k);
      assert Apply(s, bps, act).data == AdvanceTask(s, bps, t, act.draw, act.now, act.pis).0.data;
    }
  }

  /* ---------- a run that does it ---------- */

  const Giver := Donor("cus_1", "acct", "a@b.c", "A", "cus_1")
  const Gift := App.Input("acct", "", "cus_1", "prod", Money(500, "USD"), "", "", "", map[])
  const AnyDraw := Draw("pi_1", "txn_1", 5, 5)

  /** Task `i` does one operation at time 6. */
  function Step(i: nat, x: Draw): Act {
    Advance(i, x, 6, [], [])
  }

  lemma ExecSnoc(bps: int, acts: seq<Act>, act: Act)
    ensures Exec(Initial, bps, acts + [act]) == Apply(Exec(Initial, bps, acts), bps, act)
  {
    assert (acts + [act])[..|acts|] == acts;
  }

  /** One more step of a run. */
  lemma Then(bps: int, s: Sys, acts: seq<Act>, act: Act) returns (t: Sys, more: seq<Act>)
    requires s == Exec(Initial, bps, acts)
    ensures t == Apply(s, bps, act) && more == acts + [act] && t == Exec(Initial, bps, more)
  {
    t, more := Apply(s, bps, act), acts + [act];
    ExecSnoc(bps, acts, act);
  }

  function GiftIntent(): PaymentIntent {
    NewIntent(App.ParamsFor(Gift, Giver), AnyDraw)
  }

  function GiftRow(bps: int): Payment {
    App.DonationRow(Gift, Giver, GiftIntent(), bps, 6)
  }

  /** The intent is created; its row is not written yet. */
  lemma GiftCreated(bps: int) returns (s: Sys, acts: seq<Act>)
    ensures s == Exec(Initial, bps, acts)
    ensures s.data.payments == map[] && s.data.events == {} && s.tasks == [StartWrite(GiftRow(bps), "")]
    ensures "pi_1" in Acct(s.gw, "acct").intents && Acct(s.gw, "acct").intents["pi_1"] == GiftIntent()
  {
    acts := [];
    assert Exec(Initial, bps, acts) == Initial;
    s, acts := Then(bps, Initial, acts, SaveDonor(Giver));
    assert FindDonor(s.data, "acct", "cus_1") == Some(Giver);
    s, acts := Then(bps, s, acts, BeginStart(Gift));
    assert s.tasks == [StartCreate(Gift, Giver)];
    assert '|' !in "pi_1";
    s, acts := Then(bps, s, acts, Step(0, AnyDraw));
  }

  /** The event of a payment of the gift. */
  function PaidEvent(id: string): Event {
    Event(id, PaymentSucceeded, "acct", Some(GiftIntent().(status := Succeeded)))
  }

  lemma PayStep(s: Sys, bps: int, txnID: string, eventID: string)
    requires "pi_1" in Acct(s.gw, "acct").intents
    requires Acct(s.gw, "acct").intents["pi_1"].(status := Succeeded) == GiftIntent().(status := Succeeded)
    ensures var t := Apply(s, bps, GwSucceed("acct", "pi_1", txnID, eventID, 7));
      && t.data == s.data && t.tasks == s.tasks && t.emitted == s.emitted + {PaidEvent(eventID)}
      && "pi_1" in Acct(t.gw, "acct").intents && Acct(t.gw, "acct").intents["pi_1"] == GiftIntent().(status := Succeeded)
  {
  }

  lemma BeginHandleStep(s: Sys, bps: int, e: Event)
    requires e in s.emitted && e.id !in s.data.events
    ensures Apply(s, bps, BeginHandle(e)) == s.(data := MarkEvent(s.data, e.id), tasks := s.tasks + [HandleRead(e)])
  {
  }

  lemma GiftRouted()
    ensures Lookup(GiftIntent().metadata, "account_id") == "acct"
  {
    App.MetadataRoutes(Gift, Giver);
  }

  /** A handler reads the gift's row. */
  lemma ReadStep(s: Sys, bps: int, i: nat, id: string)
    requires i < |s.tasks| && s.tasks[i] == HandleRead(PaidEvent(id))
    ensures var found := FindPayment(s.data, "acct", "pi_1");
            Apply(s, bps, Step(i, AnyDraw)) ==
            s.(tasks := s.tasks[i := HandleWrite(found, W.EventRow(found, PaidEvent(id).intent.value, Succeeded, 6))])
  {
    GiftRouted();
  }

  /** A row is written. */
  lemma WriteStep(s: Sys, bps: int, i: nat)
    requires i < |s.tasks| && (s.tasks[i].HandleWrite? || (s.tasks[i].StartWrite? && s.tasks[i].key == ""))
    ensures Apply(s, bps, Step(i, AnyDraw)) == s.(data := PutPayment(s.data, s.tasks[i].row), tasks := s.tasks[i := Gone])
  {
  }

  /** The gift is paid and its event is being handled, before the donation's own write. */
  lemma PaidEarly(bps: int) returns (s: Sys, acts: seq<Act>)
    ensures s == Exec(Initial, bps, acts)
    ensures s.data.payments == map[] && s.data.events == {"evt_1"}
    ensures s.tasks == [StartWrite(GiftRow(bps), ""), HandleRead(PaidEvent("evt_1"))]
    ensures "pi_1" in Acct(s.gw, "acct").intents && Acct(s.gw, "acct").intents["pi_1"] == GiftIntent().(status := Succeeded)
  {
    s, acts := GiftCreated(bps);
    PayStep(s, bps, "txn_2", "evt_1");
    s, acts := Then(bps, s, acts, GwSucceed("acct", "pi_1", "txn_2", "evt_1", 7));
    BeginHandleStep(s, bps, PaidEvent("evt_1"));
    s, acts := Then(bps, s, acts, BeginHandle(PaidEvent("evt_1")));
  }

  /** The payment succeeds and its webhook is handled before the donation's own write lands. */
  lemma LateStartHappens(bps: int) returns (s: Sys, acts: seq<Act>)
    ensures s == Exec(Initial, bps, acts)
    ensures TerminalRow(s, RowKey("acct", "pi_1")) && LateStart(s, Step(0, AnyDraw), RowKey("acct", "pi_1"))
    ensures "pi_1" in Acct(s.gw, "acct").intents && Acct(s.gw, "acct").intents["pi_1"].status == Succeeded
  {
    s, acts := PaidEarly(bps);
    GiftRouted();
    ReadStep(s, bps, 1, "evt_1");
    s, acts := Then(bps, s, acts, Step(1, AnyDraw));
    WriteStep(s, bps, 1);
    s, acts := Then(bps, s, acts, Step(1, AnyDraw));
  }
}
