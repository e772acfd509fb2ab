/** What a row records besides its status: exactly which operations change it, step by step and over runs. */
module WorldRecords {
  import opened Domain
  import opened Store
  import opened Gateway
  import opened Recon
  import R = ReconRace
  import opened World
  import S = WorldStatus
  import W = Webhook
  import App

  /** The donor, product, amount, fee, source, creation time and metadata of a row. */
  function Record(p: Payment): Payment {
    p.(status := Requested, failureReason := "", updatedAt := 0)
  }

  /** A step gives the existing row at `k` another record. */
  ghost predicate Changes(s: Sys, bps: int, act: Act, k: string) {
    var after := Cell(Apply(s, bps, act).data, k);
    Cell(s.data, k).Some? && after.Some? && Record(after.value) != Record(Cell(s.data, k).value)
  }

  /** The step lands `row` at `k`. */
  ghost predicate Lands(s: Sys, act: Act, k: string, row: Payment) {
    && act.Advance? && act.i < |s.tasks| && S.Pending(s.tasks[act.i]) == Some(row)
    && RowKey(row.accountID, row.intentID) == k
  }

  /** The row a handler or a pass found before it decided what to write; a donation does not look. */
  function Found(t: Task): Option<Payment> {
    match t
    case HandleWrite(found, _) => found
    case Sweep(_, _, _, _, w) => if w.stage.Writing? then w.stage.found else None
    case _ => None
  }

  /* ---------- step by step ---------- */

  /** Rows have a source, and a decision made on a row that was found keeps that row's record. */
  ghost predicate Faithful(t: Task) {
    && (S.Pending(t).Some? ==> S.Pending(t).value.source != NoSource)
    && (S.Pending(t).Some? && Found(t).Some? ==>
          && Found(t).value.source != NoSource
          && Record(S.Pending(t).value) == Record(Found(t).value))
    && (t.Sweep? && R.Done(t.worker) ==> t.worker.stage.Fresh?)
  }

  ghost predicate RecInv(s: Sys) {
    && Keyed(s.data)
    && (forall k | k in s.data.payments :: s.data.payments[k].source != NoSource)
    && (forall i | 0 <= i < |s.tasks| :: Faithful(s.tasks[i]))
  }

  lemma DecideFaithful(d: Data, a: string, w: R.Worker, now: int)
    requires Keyed(d) && (forall k | k in d.payments :: d.payments[k].source != NoSource)
    requires !R.Done(w) && !w.stage.Writing?
    ensures var v := R.StepWorker(d, a, w, now).1;
      && (R.Done(v) ==> v.stage.Fresh?)
      && (v.stage.Writing? ==>
            && v.stage.row.source != NoSource
            && (v.stage.found.Some? ==> v.stage.found.value.source != NoSource && Record(v.stage.row) == Record(v.stage.found.value)))
  {
    match w.items[w.idx]
    case Txn(tx) =>
    case Intent(pi) =>
  }

  lemma TaskFaithful(s: Sys, bps: int, t: Task, x: Draw, now: int, pis: seq<PaymentIntent>)
    requires Faithful(t) && Keyed(s.data) && forall k | k in s.data.payments :: s.data.payments[k].source != NoSource
    ensures var (n, u) := AdvanceTask(s, bps, t, x, now, pis);
      Faithful(u) && (forall k | k in n.data.payments :: n.data.payments[k].source != NoSource) && Keyed(n.data)
  {
    if t.Sweep? && !R.Done(t.worker) && !t.worker.stage.Writing? {
      DecideFaithful(s.data, t.a, t.worker, now);
    }
  }

  lemma StepFaithful(s: Sys, bps: int, act: Act)
    requires RecInv(s)
    ensures RecInv(Apply(s, bps, act))
  {
    if act.Advance? && Enabled(s, act) {
      TaskFaithful(s, bps, s.tasks[act.i], act.draw, act.now, act.pis);
    }
  }

  lemma {:induction false} AlwaysFaithful(bps: int, acts: seq<Act>)
    ensures RecInv(Exec(Initial, bps, acts))
  {
    if |acts| > 0 {
      AlwaysFaithful(bps, acts[..|acts| - 1]);
      StepFaithful(Exec(Initial, bps, acts[..|acts| - 1]), bps, acts[|acts| - 1]);
    }
  }

  lemma LandsEnabled(s: Sys, act: Act, k: string, row: Payment)
    requires Lands(s, act, k, row)
    ensures Enabled(s, act)
  {
  }

  /** A step changes the record of an existing row if and only if it lands a pending write for that row with
      another record; and then it is a donation's write, or one decided on a missing row, or one decided on a
      row whose record has been changed since. */
  lemma RecordChangesIff(s: Sys, bps: int, act: Act, k: string)
    requires RecInv(s) && Cell(s.data, k).Some?
    ensures Changes(s, bps, act, k) <==>
            exists row :: Lands(s, act, k, row) && Record(row) != Record(Cell(s.data, k).value)
    ensures Changes(s, bps, act, k) ==>
            var t := s.tasks[act.i];
            t.StartWrite? || Found(t).None? || Record(Found(t).value) != Record(Cell(s.data, k).value)
  {
    if act.Advance? && Enabled(s, act) {
      var t := s.tasks[act.i];
      S.AdvanceCell(s, bps, t, act.draw, act.now, act.pis, k);
      assert Apply(s, bps, act).data == AdvanceTask(s, bps, t, act.draw, act.now, act.pis).0.data;
      assert Faithful(t);
    } else if !act.Advance? {
      S.OtherActsCell(s, bps, act, k);
    }
    if row :| Lands(s, act, k, row) && Record(row) != Record(Cell(s.data, k).value) {
      LandsEnabled(s, act, k, row);
    }
  }

  /** A write decided on a row that was found changes the record if and only if the row now has another
      record than the one found. */
  lemma StaleIff(s: Sys, bps: int, act: Act, k: string, row: Payment)
    requires RecInv(s) && Cell(s.data, k).Some? && Lands(s, act, k, row) && Found(s.tasks[act.i]).Some?
    ensures Changes(s, bps, act, k) <==> Record(Found(s.tasks[act.i]).value) != Record(Cell(s.data, k).value)
  {
    LandsEnabled(s, act, k, row);
    var t := s.tasks[act.i];
    S.AdvanceCell(s, bps, t, act.draw, act.now, act.pis, k);
    assert Apply(s, bps, act).data == AdvanceTask(s, bps, t, act.draw, act.now, act.pis).0.data;
    assert Faithful(t);
  }

  /* ---------- over runs ---------- */

  /** A donation's write, or a write decided on a missing row, lands on an existing row with another record. */
  ghost predicate Clashes(s: Sys, act: Act, k: string) {
    && Cell(s.data, k).Some?
    && exists row ::
         && Lands(s, act, k, row) && Record(row) != Record(Cell(s.data, k).value)
         && (s.tasks[act.i].StartWrite? || Found(s.tasks[act.i]).None?)
  }

  /** Whoever found the row at `k` found the record it has now. */
  ghost predicate UpToDate(d: Data, k: string, t: Task) {
    S.Pending(t).Some? && Found(t).Some? && RowKey(S.Pending(t).value.accountID, S.Pending(t).value.intentID) == k ==>
      Cell(d, k).Some? && Record(Found(t).value) == Record(Cell(d, k).value)
  }

  ghost predicate AllUpToDate(s: Sys, k: string) {
    forall i | 0 <= i < |s.tasks| :: UpToDate(s.data, k, s.tasks[i])
  }

  lemma WorkerUpToDate(d: Data, a: string, w: R.Worker, now: int, k: string)
    requires Keyed(d) && !R.Done(w) && !w.stage.Writing?
    ensures var v := R.StepWorker(d, a, w, now).1;
      v.stage.Writing? && v.stage.found.Some? && RowKey(v.stage.row.accountID, v.stage.row.intentID) == k ==>
        Cell(d, k) == v.stage.found
  {
    match w.items[w.idx]
    case Txn(tx) =>
    case Intent(pi) =>
  }

  /** What a task decides next is decided on the row as it is. */
  lemma DecidesUpToDate(s: Sys, bps: int, t: Task, x: Draw, now: int, pis: seq<PaymentIntent>, k: string)
    requires Keyed(s.data) && S.Pending(t).None? && Faithful(t)
    ensures var (n, u) := AdvanceTask(s, bps, t, x, now, pis);
            UpToDate(s.data, k, u) && n.data.payments == s.data.payments
  {
    match t
    case Sweep(a, _, _, _, w) =>
      if !R.Done(w) {
        if !w.stage.Writing? {
          WorkerUpToDate(s.data, a, w, now, k);
        }
      }
    case _ =>
  }

  lemma WritesUpToDate(s: Sys, bps: int, t: Task, x: Draw, now: int, pis: seq<PaymentIntent>, k: string)
    requires S.Pending(t).Some?
    ensures S.Pending(AdvanceTask(s, bps, t, x, now, pis).1).None?
  {
  }

  lemma RecordKept(d: Data, e: Data, k: string, t: Task)
    requires UpToDate(d, k, t)
    requires Cell(d, k).Some? ==> Cell(e, k).Some? && Record(Cell(e, k).value) == Record(Cell(d, k).value)
    ensures UpToDate(e, k, t)
  {
  }

  lemma MovedUpToDate(s: Sys, bps: int, act: Act, k: string)
    requires RecInv(s) && act.Advance? && Enabled(s, act)
    ensures act.i < |Apply(s, bps, act).tasks| && UpToDate(Apply(s, bps, act).data, k, Apply(s, bps, act).tasks[act.i])
  {
    assert Faithful(s.tasks[act.i]);
    if S.Pending(s.tasks[act.i]).None? {
      DecidesUpToDate(s, bps, s.tasks[act.i], act.draw, act.now, act.pis, k);
    } else {
      WritesUpToDate(s, bps, s.tasks[act.i], act.draw, act.now, act.pis, k);
    }
  }

  /** Unless the step clashes, it keeps the record of the row and what others have found. */
  lemma StepUpToDate(s: Sys, bps: int, act: Act, k: string)
    requires RecInv(s) && AllUpToDate(s, k) && !Clashes(s, act, k)
    ensures AllUpToDate(Apply(s, bps, act), k) && !Changes(s, bps, act, k)
  {
    var t := Apply(s, bps, act);
    NoClashKeeps(s, bps, act, k);
    forall i | 0 <= i < |t.tasks| ensures UpToDate(t.data, k, t.tasks[i]) {
      if act.Advance? && Enabled(s, act) && act.i == i {
        MovedUpToDate(s, bps, act, k);
      } else {
        OthersUpToDate(s, bps, act, k, i);
      }
    }
  }

  lemma OthersUpToDate(s: Sys, bps: int, act: Act, k: string, i: nat)
    requires AllUpToDate(s, k) && !Changes(s, bps, act, k) && i < |Apply(s, bps, act).tasks|
    requires Cell(s.data, k).Some? ==> Cell(Apply(s, bps, act).data, k).Some?
    requires !(act.Advance? && Enabled(s, act) && act.i == i)
    ensures UpToDate(Apply(s, bps, act).data, k, Apply(s, bps, act).tasks[i])
  {
    var t := Apply(s, bps, act);
    if i < |s.tasks| && t.tasks[i] == s.tasks[i] {
      assert UpToDate(s.data, k, s.tasks[i]);
      RecordKept(s.data, t.data, k, s.tasks[i]);
    }
  }

  lemma NoClashKeeps(s: Sys, bps: int, act: Act, k: string)
    requires RecInv(s) && AllUpToDate(s, k) && !Clashes(s, act, k)
    ensures Cell(s.data, k).Some? ==>
            var after := Cell(Apply(s, bps, act).data, k); after.Some? && Record(after.value) == Record(Cell(s.data, k).value)
  {
    if act.Advance? && Enabled(s, act) {
      var t := s.tasks[act.i];
      S.AdvanceCell(s, bps, t, act.draw, act.now, act.pis, k);
      assert Apply(s, bps, act).data == AdvanceTask(s, bps, t, act.draw, act.now, act.pis).0.data;
      assert UpToDate(s.data, k, t) && Faithful(t);
      if S.Pending(t).Some? {
        assert RowKey(S.Pending(t).value.accountID, S.Pending(t).value.intentID) == k ==> Lands(s, act, k, S.Pending(t).value);
      }
    } else if !act.Advance? {
      S.OtherActsCell(s, bps, act, k);
    }
  }

  ghost predicate ChangesAt(bps: int, acts: seq<Act>, n: nat, k: string) {
    n < |acts| && Changes(At(bps, acts, n), bps, acts[n], k)
  }

  ghost predicate ClashesAt(bps: int, acts: seq<Act>, n: nat, k: string) {
    n < |acts| && Clashes(At(bps, acts, n), acts[n], k)
  }

  lemma {:induction false} QuietUpTo(bps: int, acts: seq<Act>, n: nat, k: string)
    requires n <= |acts| && forall m: nat | m < n :: !ClashesAt(bps, acts, m, k)
    ensures AllUpToDate(At(bps, acts, n), k)
    ensures forall m: nat | m < n :: !ChangesAt(bps, acts, m, k)
  {
    if n > 0 {
      QuietUpTo(bps, acts, n - 1, k);
      AlwaysFaithful(bps, acts[..n - 1]);
      AtNext(bps, acts, n - 1);
      assert !ClashesAt(bps, acts, n - 1, k);
      StepUpToDate(At(bps, acts, n - 1), bps, acts[n - 1], k);
    }
  }

  /** Over any run the record of a row changes if and only if at some step a donation's write, or a write
      decided on a missing row, lands on the existing row with another record. */
  lemma RecordsChangeIffClash(bps: int, acts: seq<Act>, k: string)
    ensures (exists n: nat :: ChangesAt(bps, acts, n, k)) <==> (exists n: nat :: ClashesAt(bps, acts, n, k))
  {
    if n: nat :| ClashesAt(bps, acts, n, k) {
      AlwaysFaithful(bps, acts[..n]);
      RecordChangesIff(At(bps, acts, n), bps, acts[n], k);
      assert ChangesAt(bps, acts, n, k);
    } else {
      QuietUpTo(bps, acts, |acts|, k);
    }
  }

  /* ---------- two runs that lose what a donation recorded ---------- */

  /** The handler found no row, the donation's write lands, then the handler's: both are done, and donor,
      source and metadata are gone. */
  lemma DonationOverwritten(bps: int) returns (mid: Sys, s: Sys, acts: seq<Act>)
    ensures s == Exec(Initial, bps, acts) && (forall i | 0 <= i < |s.tasks| :: s.tasks[i] == Gone)
    ensures |acts| > 0 && mid == Exec(Initial, bps, acts[..|acts| - 1])
    ensures FindPayment(mid.data, "acct", "pi_1") == Some(S.GiftRow(bps)) && S.GiftRow(bps).donorID == "cus_1"
    ensures var row := FindPayment(s.data, "acct", "pi_1");
            row.Some? && row.value.donorID == "" && row.value.source == Source.Webhook && row.value.metadata == map[]
  {
    s, acts := S.PaidEarly(bps);
    S.GiftRouted();
    S.ReadStep(s, bps, 1, "evt_1");
    s, acts := S.Then(bps, s, acts, S.Step(1, S.AnyDraw));
    S.WriteStep(s, bps, 0);
    s, acts := S.Then(bps, s, acts, S.Step(0, S.AnyDraw));
    mid := s;
    S.WriteStep(s, bps, 1);
    var more: seq<Act>;
    s, more := S.Then(bps, s, acts, S.Step(1, S.AnyDraw));
    assert more[..|more| - 1] == acts;
    acts := more;
  }

  /** A write decided on a row that was found can do the same: the second handler found what the first
      had made, and lands after the donation's write. */
  lemma StaleHandlerOverwrites(bps: int) returns (s: Sys, acts: seq<Act>, k: string)
    ensures s == Exec(Initial, bps, acts) && k == RowKey("acct", "pi_1")
    ensures |s.tasks| == 3 && Found(s.tasks[2]).Some?
    ensures Cell(s.data, k) == Some(S.GiftRow(bps)) && Changes(s, bps, S.Step(2, S.AnyDraw), k)
  {
    k := RowKey("acct", "pi_1");
    s, acts := S.PaidEarly(bps);
    s, acts := SecondBegun(bps, s, acts);
    s, acts := FirstHandled(bps, s, acts);
    S.ReadStep(s, bps, 2, "evt_2");
    s, acts := S.Then(bps, s, acts, S.Step(2, S.AnyDraw));
    S.WriteStep(s, bps, 0);
    s, acts := S.Then(bps, s, acts, S.Step(0, S.AnyDraw));
    S.WriteStep(s, bps, 2);
  }

  lemma SecondBegun(bps: int, s0: Sys, acts0: seq<Act>) returns (s: Sys, acts: seq<Act>)
    requires s0 == Exec(Initial, bps, acts0) && s0.data.payments == map[] && s0.data.events == {"evt_1"}
    requires s0.tasks == [StartWrite(S.GiftRow(bps), ""), HandleRead(S.PaidEvent("evt_1"))]
    requires "pi_1" in Acct(s0.gw, "acct").intents && Acct(s0.gw, "acct").intents["pi_1"] == S.GiftIntent().(status := Succeeded)
    ensures s == Exec(Initial, bps, acts) && s.data.payments == map[]
    ensures s.tasks == [StartWrite(S.GiftRow(bps), ""), HandleRead(S.PaidEvent("evt_1")), HandleRead(S.PaidEvent("evt_2"))]
  {
    S.PayStep(s0, bps, "txn_3", "evt_2");
    s, acts := S.Then(bps, s0, acts0, GwSucceed("acct", "pi_1", "txn_3", "evt_2", 7));
    S.BeginHandleStep(s, bps, S.PaidEvent("evt_2"));
    s, acts := S.Then(bps, s, acts, BeginHandle(S.PaidEvent("evt_2")));
  }

  /** The first handler finds no row and makes one. */
  lemma FirstHandled(bps: int, s0: Sys, acts0: seq<Act>) returns (s: Sys, acts: seq<Act>)
    requires s0 == Exec(Initial, bps, acts0) && s0.data.payments == map[]
    requires s0.tasks == [StartWrite(S.GiftRow(bps), ""), HandleRead(S.PaidEvent("evt_1")), HandleRead(S.PaidEvent("evt_2"))]
    ensures s == Exec(Initial, bps, acts)
    ensures s.tasks == [StartWrite(S.GiftRow(bps), ""), Gone, HandleRead(S.PaidEvent("evt_2"))]
    ensures FindPayment(s.data, "acct", "pi_1") == Some(W.EventRow(None, S.PaidEvent("evt_1").intent.value, Succeeded, 6))
  {
    S.GiftRouted();
    S.ReadStep(s0, bps, 1, "evt_1");
    s, acts := S.Then(bps, s0, acts0, S.Step(1, S.AnyDraw));
    S.WriteStep(s, bps, 1);
    s, acts := S.Then(bps, s, acts, S.Step(1, S.AnyDraw));
  }
}
