/** A pass of the interleaved system that nothing disturbs is a pass of the engine. */
module WorldPass {
  import opened Domain
  import opened Store
  import opened Gateway
  import opened Recon
  import opened ReconResult
  import opened World
  import R = ReconRace

  /** Every step is an operation of task `i`, and the gateway lists the same intents whenever it is asked. */
  ghost predicate Alone(acts: seq<Act>, i: nat, pis: seq<PaymentIntent>, ks: seq<string>) {
    forall m :: 0 <= m < |acts| ==> acts[m].Advance? && acts[m].i == i && acts[m].pis == pis && acts[m].ks == ks
  }

  /** The task is where worker `w` is, which walks over all items from the start. */
  ghost predicate Follows(t: Task, a: string, from: int, to: int, txns: seq<BalanceTxn>, pis: seq<PaymentIntent>, w: R.Worker) {
    && w.items == Items(txns, pis)
    && match t
       case Gone => R.Done(w)
       case Sweep(b, f, u, listed, v) =>
         && b == a && f == from && u == to && w == v.(items := w.items)
         && (if listed then v.items == w.items else v.items == Items(txns, []) && v.idx <= |txns|)
       case _ => false
  }

  lemma SameMove(d: Data, a: string, v: R.Worker, w: R.Worker, now: int)
    requires !R.Done(v) && v.items <= w.items && w == v.(items := w.items)
    ensures !R.Done(w)
    ensures var (x, y) := (R.StepWorker(d, a, v, now), R.StepWorker(d, a, w, now));
            x.0 == y.0 && y.1 == x.1.(items := w.items) && x.1.items == v.items && x.1.idx <= v.idx + 1
  {
  }

  lemma ItemsGrow(txns: seq<BalanceTxn>, pis: seq<PaymentIntent>)
    ensures Items(txns, []) + Items([], pis) == Items(txns, pis) && Items(txns, []) <= Items(txns, pis)
  {
  }

  lemma MoveFollows(d: Data, t: Task, a: string, from: int, to: int, txns: seq<BalanceTxn>, pis: seq<PaymentIntent>, w: R.Worker, now: int)
    requires t.Sweep? && !R.Done(t.worker) && Follows(t, a, from, to, txns, pis, w)
    ensures !R.Done(w)
    ensures var x, y := R.StepWorker(d, a, t.worker, now), R.StepWorker(d, a, w, now);
            x.0 == y.0 && Follows(t.(worker := x.1), a, from, to, txns, pis, y.1)
  {
    ItemsGrow(txns, pis);
    SameMove(d, a, t.worker, w, now);
  }

  lemma {:induction false} AloneRaces(s: Sys, bps: int, acts: seq<Act>, i: nat, a: string, from: int, to: int,
                                      pis: seq<PaymentIntent>, ks: seq<string>) returns (schedule: seq<R.Choice>)
    requires i < |s.tasks| && Alone(acts, i, pis, ks)
    requires s.tasks[i] == Sweep(a, from, to, false, R.NewWorker(Items(WindowTxns(Acct(s.gw, a).txns, from, to), [])))
    ensures var t := Exec(s, bps, acts);
            var txns := WindowTxns(Acct(s.gw, a).txns, from, to);
            var race := R.Exec(R.Launch(s.data, [Items(txns, pis)]), a, schedule);
      && t.gw == s.gw && t.data == race.data && |t.tasks| == |s.tasks| && |race.workers| == 1
      && Follows(t.tasks[i], a, from, to, txns, pis, race.workers[0])
  {
    var txns := WindowTxns(Acct(s.gw, a).txns, from, to);
    schedule := [];
    if |acts| > 0 {
      var n := |acts| - 1;
      schedule := AloneRaces(s, bps, acts[..n], i, a, from, to, pis, ks);
      var t := Exec(s, bps, acts[..n]);
      var race := R.Exec(R.Launch(s.data, [Items(txns, pis)]), a, schedule);
      var task := t.tasks[i];
      if task.Sweep? && !R.Done(task.worker) {
        MoveFollows(t.data, task, a, from, to, txns, pis, race.workers[0], acts[n].now);
        var longer := schedule + [R.Choice(0, acts[n].now)];
        assert longer[..|schedule|] == schedule;
        schedule := longer;
      } else if task.Sweep? && !task.listed {
        ItemsGrow(txns, pis);
      }
    }
  }

  lemma SoleWorkerSettles(d: Data, a: string, items: seq<Item>, schedule: seq<R.Choice>)
    requires Keyed(d) && R.SameFacts(items, items)
    requires var ws := R.Exec(R.Launch(d, [items]), a, schedule).workers; |ws| == 1 && R.Done(ws[0])
    ensures SettledFrom(d, R.Exec(R.Launch(d, [items]), a, schedule).data, a, items)
  {
    R.RaceSettles(d, a, items, [items], schedule);
  }

  /** Once such a pass has finished, the tables have the closed form of one pass of the engine over what the
      gateway lists for its window: every charge and every failed intent has reached the projection. */
  lemma AlonePassSettles(s: Sys, bps: int, acts: seq<Act>, i: nat, a: string, from: int, to: int,
                         pis: seq<PaymentIntent>, ks: seq<string>)
    requires GwInv(s.gw) && Keyed(s.data) && ListsIntents(pis, ks, Acct(s.gw, a).intents, from, to)
    requires i < |s.tasks| && Alone(acts, i, pis, ks)
    requires s.tasks[i] == Sweep(a, from, to, false, R.NewWorker(Items(WindowTxns(Acct(s.gw, a).txns, from, to), [])))
    requires i < |Exec(s, bps, acts).tasks| && Exec(s, bps, acts).tasks[i] == Gone
    ensures SettledFrom(s.data, Exec(s, bps, acts).data, a, Items(WindowTxns(Acct(s.gw, a).txns, from, to), pis))
  {
    var acct := Acct(s.gw, a);
    var items := Items(WindowTxns(acct.txns, from, to), pis);
    assert AcctInv(acct);
    R.ListingsAgree(acct, from, to, WindowTxns(acct.txns, from, to), pis, ks, pis, ks);
    var schedule := AloneRaces(s, bps, acts, i, a, from, to, pis, ks);
    SoleWorkerSettles(s.data, a, items, schedule);
  }
}
