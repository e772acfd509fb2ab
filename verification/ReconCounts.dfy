/** What concurrent passes report as backfilled: which rows are counted, and exactly when one is counted twice. */
module ReconCounts {
  import opened Domain
  import opened Store
  import opened Gateway
  import opened Recon
  import opened ReconResult
  import opened ReconRace

  /** A write of intent `id`'s row is pending. */
  ghost predicate Pends(w: Worker, a: string, id: string) {
    w.stage.Writing? && RowKey(w.stage.row.accountID, w.stage.row.intentID) == RowKey(a, id)
  }

  /** The pass's next operation reads intent `id`'s row, and it is not there. */
  ghost predicate Misses(d: Data, a: string, w: Worker, id: string) {
    && !Done(w) && !w.stage.Writing? && ItemID(w.items[w.idx]) == id
    && (match w.items[w.idx] case Txn(_) => w.stage.Reading? case Intent(pi) => pi.status == Failed)
    && RowKey(a, id) !in d.payments
  }

  /** A pass reads intent `id` missing while another pass's write of it is pending. */
  ghost predicate MissesPending(s: Race, a: string, c: Choice, id: string) {
    && c.who < |s.workers|
    && Misses(s.data, a, s.workers[c.who], id)
    && exists j :: 0 <= j < |s.workers| && j != c.who && Pends(s.workers[j], a, id)
  }

  /** That happens somewhere in the schedule. */
  ghost predicate Doubled(s: Race, a: string, schedule: seq<Choice>, id: string) {
    |schedule| > 0 &&
    var head, c := schedule[..|schedule| - 1], schedule[|schedule| - 1];
    Doubled(s, a, head, id) || MissesPending(Exec(s, a, head), a, c, id)
  }

  ghost predicate Counted(ws: seq<Worker>, id: string) {
    exists i :: 0 <= i < |ws| && id in ws[i].backfilled
  }

  ghost predicate CountedTwice(ws: seq<Worker>, id: string) {
    exists i, j :: 0 <= i < |ws| && 0 <= j < |ws| && i != j && id in ws[i].backfilled && id in ws[j].backfilled
  }

  /* ---------- what a pass has counted ---------- */

  /** A pass counts only rows that were not there, and has written or is about to write each. */
  ghost predicate CountsNew(d0: Data, a: string, d: Data, w: Worker) {
    forall id | id in w.backfilled :: RowKey(a, id) !in d0.payments && (RowKey(a, id) in d.payments || Pends(w, a, id))
  }

  /** What is pending is its item's row; it is there already, or this pass has counted it. */
  ghost predicate PendingOk(a: string, d: Data, w: Worker) {
    && (w.stage.Writing? ==>
          && !Done(w)
          && RowKey(w.stage.row.accountID, w.stage.row.intentID) == RowKey(a, ItemID(w.items[w.idx]))
          && (RowKey(w.stage.row.accountID, w.stage.row.intentID) in d.payments
              || (w.stage.row.accountID == a && w.stage.row.intentID in w.backfilled)))
    && (w.stage.Reading? ==> !Done(w) && w.items[w.idx].Txn? && IsCharge(w.items[w.idx].tx))
  }

  /** The counter is the number of entries and rows counted, each once. */
  ghost predicate Reports(d: Data, w: Worker) {
    (forall t | t in w.inserted :: t in d.ledger) && w.reported == |w.inserted| + |w.backfilled|
  }

  ghost predicate WorkerCounts(d0: Data, a: string, d: Data, w: Worker) {
    CountsNew(d0, a, d, w) && PendingOk(a, d, w) && Reports(d, w)
  }

  ghost predicate CountInv(d0: Data, a: string, s: Race) {
    && Keyed(s.data)
    && (forall k | k in d0.payments :: k in s.data.payments)
    && (forall i | 0 <= i < |s.workers| :: WorkerCounts(d0, a, s.data, s.workers[i]))
    && (forall k | k in s.data.payments && k !in d0.payments :: OwnKey(a, k) && Counted(s.workers, IdIn(a, k)))
  }

  lemma SameID(a: string, i: string, j: string)
    requires RowKey(a, i) == RowKey(a, j)
    ensures i == j
  {
    RowKeyInjective(a, i, a, j);
  }

  /** Tables only grow. */
  lemma Grows(d: Data, a: string, w: Worker, now: int)
    requires !Done(w)
    ensures var e := StepWorker(d, a, w, now).0;
      && (forall k | k in d.payments :: k in e.payments) && (forall t | t in d.ledger :: t in e.ledger)
      && (forall k | k in e.payments && k !in d.payments ::
            w.stage.Writing? && k == RowKey(w.stage.row.accountID, w.stage.row.intentID))
  {
  }

  /** Reading or inserting: what is counted, and what is pending afterwards. */
  lemma ReadCounts(d: Data, a: string, w: Worker, now: int, id: string)
    requires Keyed(d) && !Done(w) && !w.stage.Writing? && (w.stage.Reading? ==> w.items[w.idx].Txn? && IsCharge(w.items[w.idx].tx))
    ensures var v := StepWorker(d, a, w, now).1;
      && (id in v.backfilled <==> id in w.backfilled || Misses(d, a, w, id))
      && (Misses(d, a, w, id) ==> v.stage.Writing? && v.stage.row.accountID == a && v.stage.row.intentID == id)
  {
  }

  lemma ReadPends(d: Data, a: string, w: Worker, now: int)
    requires Keyed(d) && !Done(w) && !w.stage.Writing? && (w.stage.Reading? ==> w.items[w.idx].Txn? && IsCharge(w.items[w.idx].tx))
    ensures PendingOk(a, d, StepWorker(d, a, w, now).1)
  {
  }

  function NewEntry(d: Data, w: Worker): set<string>
    requires !Done(w) && !w.stage.Writing?
  {
    var item := w.items[w.idx];
    if item.Txn? && w.stage.Fresh? && item.tx.id !in d.ledger then {item.tx.id} else {}
  }

  ghost function NewRow(d: Data, a: string, w: Worker): set<string>
    requires !Done(w) && !w.stage.Writing?
  {
    if Misses(d, a, w, ItemID(w.items[w.idx])) then {ItemID(w.items[w.idx])} else {}
  }

  /** What one operation adds to what the pass has counted. */
  ghost predicate Adds(d: Data, a: string, w: Worker, now: int)
    requires !Done(w) && !w.stage.Writing?
  {
    var (e, v) := StepWorker(d, a, w, now);
    && v.inserted == w.inserted + NewEntry(d, w) && v.backfilled == w.backfilled + NewRow(d, a, w)
    && v.reported == w.reported + |NewEntry(d, w)| + |NewRow(d, a, w)|
    && (forall t | t in w.inserted + NewEntry(d, w) :: t in d.ledger || t in NewEntry(d, w) ==> t in e.ledger)
  }

  lemma InsertAdds(d: Data, a: string, w: Worker, now: int)
    requires !Done(w) && w.items[w.idx].Txn? && w.stage.Fresh?
    ensures Adds(d, a, w, now)
  {
    var tx := w.items[w.idx].tx;
    var e := PutLedger(d, Entry(a, tx));
    assert tx.id in e.ledger && forall t | t in d.ledger :: t in e.ledger;
    assert StepWorker(d, a, w, now).0 == e;
    assert w.backfilled + {} == w.backfilled;
    assert NewRow(d, a, w) == {};
  }

  lemma ChargeAdds(d: Data, a: string, w: Worker, now: int)
    requires Keyed(d) && !Done(w) && w.items[w.idx].Txn? && w.stage.Reading?
    ensures Adds(d, a, w, now)
  {
    assert w.inserted + {} == w.inserted && w.backfilled + {} == w.backfilled;
    assert NewEntry(d, w) == {};
  }

  lemma FailAdds(d: Data, a: string, w: Worker, now: int)
    requires Keyed(d) && !Done(w) && w.items[w.idx].Intent? && !w.stage.Writing?
    ensures Adds(d, a, w, now)
  {
    assert w.inserted + {} == w.inserted && w.backfilled + {} == w.backfilled;
    assert NewEntry(d, w) == {};
  }

  lemma DisjointCard(s: set<string>, t: set<string>)
    requires s !! t
    ensures |s + t| == |s| + |t|
  {
  }

  /** The counter goes up by one for each new id. */
  lemma ReadReports(d: Data, a: string, w: Worker, now: int)
    requires Keyed(d) && !Done(w) && !w.stage.Writing? && Reports(d, w)
    requires forall id | id in w.backfilled :: RowKey(a, id) in d.payments
    ensures var (e, v) := StepWorker(d, a, w, now); Reports(e, v)
  {
    if w.items[w.idx].Intent? {
      FailAdds(d, a, w, now);
    } else if w.stage.Fresh? {
      InsertAdds(d, a, w, now);
    } else {
      ChargeAdds(d, a, w, now);
    }
    DisjointCard(w.inserted, NewEntry(d, w));
    DisjointCard(w.backfilled, NewRow(d, a, w));
  }

  lemma OwnReads(d0: Data, a: string, d: Data, w: Worker, now: int)
    requires Keyed(d) && !Done(w) && WorkerCounts(d0, a, d, w) && !w.stage.Writing?
    requires forall k | k in d0.payments :: k in d.payments
    ensures var (e, v) := StepWorker(d, a, w, now); CountsNew(d0, a, e, v)
  {
    var (e, v) := StepWorker(d, a, w, now);
    forall id | id in v.backfilled ensures RowKey(a, id) !in d0.payments && (RowKey(a, id) in e.payments || Pends(v, a, id)) {
      ReadCounts(d, a, w, now, id);
    }
  }

  lemma OwnCounts(d0: Data, a: string, d: Data, w: Worker, now: int)
    requires Keyed(d) && !Done(w) && WorkerCounts(d0, a, d, w) && forall k | k in d0.payments :: k in d.payments
    ensures var (e, v) := StepWorker(d, a, w, now); WorkerCounts(d0, a, e, v)
  {
    if !w.stage.Writing? {
      ReadReports(d, a, w, now);
      OwnReads(d0, a, d, w, now);
      ReadPends(d, a, w, now);
      Grows(d, a, w, now);
    }
  }

  lemma OtherCounts(d0: Data, a: string, d: Data, e: Data, w: Worker)
    requires WorkerCounts(d0, a, d, w)
    requires (forall k | k in d.payments :: k in e.payments) && (forall t | t in d.ledger :: t in e.ledger)
    ensures WorkerCounts(d0, a, e, w)
  {
  }

  lemma StepKeyed(d: Data, a: string, w: Worker, now: int)
    requires Keyed(d) && !Done(w)
    ensures Keyed(StepWorker(d, a, w, now).0)
  {
  }

  lemma WorkersCount(d0: Data, a: string, s: Race, c: Choice)
    requires CountInv(d0, a, s) && c.who < |s.workers| && !Done(s.workers[c.who])
    ensures var t := StepRace(s, a, c); forall i | 0 <= i < |t.workers| :: WorkerCounts(d0, a, t.data, t.workers[i])
  {
    var t := StepRace(s, a, c);
    var w := s.workers[c.who];
    assert WorkerCounts(d0, a, s.data, w);
    Grows(s.data, a, w, c.now);
    OwnCounts(d0, a, s.data, w, c.now);
    forall i | 0 <= i < |t.workers| ensures WorkerCounts(d0, a, t.data, t.workers[i]) {
      if i != c.who {
        assert WorkerCounts(d0, a, s.data, s.workers[i]);
        OtherCounts(d0, a, s.data, t.data, s.workers[i]);
      }
    }
  }

  lemma StepCounts(d0: Data, a: string, s: Race, c: Choice)
    requires CountInv(d0, a, s) && c.who < |s.workers| && !Done(s.workers[c.who])
    ensures CountInv(d0, a, StepRace(s, a, c))
  {
    var t := StepRace(s, a, c);
    Grows(s.data, a, s.workers[c.who], c.now);
    StepKeyed(s.data, a, s.workers[c.who], c.now);
    WorkersCount(d0, a, s, c);
    forall k | k in t.data.payments && k !in d0.payments ensures OwnKey(a, k) && Counted(t.workers, IdIn(a, k)) {
      NewRowCounted(d0, a, s, c, k);
    }
  }

  lemma NewRowCounted(d0: Data, a: string, s: Race, c: Choice, k: string)
    requires CountInv(d0, a, s) && c.who < |s.workers| && !Done(s.workers[c.who])
    requires k in StepRace(s, a, c).data.payments && k !in d0.payments
    ensures OwnKey(a, k) && Counted(StepRace(s, a, c).workers, IdIn(a, k))
  {
    var t := StepRace(s, a, c);
    var w := s.workers[c.who];
    assert WorkerCounts(d0, a, s.data, w);
    Grows(s.data, a, w, c.now);
    if k in s.data.payments {
      var i :| 0 <= i < |s.workers| && IdIn(a, k) in s.workers[i].backfilled;
      KeepsCount(s, a, c, i, IdIn(a, k));
    } else {
      OwnKeyIff(a, k, w.stage.row.intentID);
      KeepsCount(s, a, c, c.who, w.stage.row.intentID);
    }
  }

  lemma KeepsCount(s: Race, a: string, c: Choice, i: nat, id: string)
    requires i < |s.workers| && id in s.workers[i].backfilled
    ensures id in StepRace(s, a, c).workers[i].backfilled && |StepRace(s, a, c).workers| == |s.workers|
  {
  }

  lemma {:induction false} ExecCounts(d0: Data, a: string, lists: seq<seq<Item>>, schedule: seq<Choice>)
    requires Keyed(d0)
    ensures CountInv(d0, a, Exec(Launch(d0, lists), a, schedule))
  {
    if |schedule| > 0 {
      var n := |schedule| - 1;
      ExecCounts(d0, a, lists, schedule[..n]);
      var s := Exec(Launch(d0, lists), a, schedule[..n]);
      var c := schedule[n];
      if c.who < |s.workers| && !Done(s.workers[c.who]) {
        StepCounts(d0, a, s, c);
      }
    }
  }

  /* ---------- exactly when a row is counted twice ---------- */

  /** While the row is missing, the passes that count it are those whose write of it is pending. */
  lemma CountsIffPends(d0: Data, a: string, d: Data, w: Worker, id: string)
    requires WorkerCounts(d0, a, d, w) && RowKey(a, id) !in d.payments
    ensures id in w.backfilled <==> Pends(w, a, id)
  {
    if Pends(w, a, id) {
      SameID(a, w.stage.row.intentID, id);
    }
  }

  lemma TwiceStep(d0: Data, a: string, s: Race, c: Choice, id: string)
    requires CountInv(d0, a, s)
    ensures CountedTwice(StepRace(s, a, c).workers, id) <==> CountedTwice(s.workers, id) || MissesPending(s, a, c, id)
  {
    if c.who < |s.workers| && !Done(s.workers[c.who]) {
      var w := s.workers[c.who];
      var v := StepWorker(s.data, a, w, c.now).1;
      assert WorkerCounts(d0, a, s.data, w);
      if !w.stage.Writing? {
        ReadCounts(s.data, a, w, c.now, id);
      }
      if Misses(s.data, a, w, id) {
        MissTwice(d0, a, s, c, v, id);
      } else {
        SameTwice(s.workers, c.who, v, id);
      }
    }
  }

  lemma SameTwice(ws: seq<Worker>, who: nat, v: Worker, id: string)
    requires who < |ws| && (id in v.backfilled <==> id in ws[who].backfilled)
    ensures CountedTwice(ws[who := v], id) <==> CountedTwice(ws, id)
  {
    var vs := ws[who := v];
    assert forall i :: 0 <= i < |vs| ==> (id in vs[i].backfilled <==> id in ws[i].backfilled);
  }

  /** Another pass has counted it. */
  ghost predicate CountedElsewhere(ws: seq<Worker>, who: nat, id: string) {
    exists j :: 0 <= j < |ws| && j != who && id in ws[j].backfilled
  }

  lemma TwiceElsewhere(ws: seq<Worker>, who: nat, v: Worker, id: string)
    requires who < |ws| && id in v.backfilled
    ensures CountedTwice(ws[who := v], id) <==> CountedElsewhere(ws, who, id)
    ensures CountedTwice(ws, id) ==> CountedElsewhere(ws, who, id)
  {
    var vs := ws[who := v];
    if CountedElsewhere(ws, who, id) {
      var j :| 0 <= j < |ws| && j != who && id in ws[j].backfilled;
      assert id in vs[j].backfilled && id in vs[who].backfilled;
    }
    if CountedTwice(vs, id) {
      var i, j :| 0 <= i < |vs| && 0 <= j < |vs| && i != j && id in vs[i].backfilled && id in vs[j].backfilled;
      assert id in ws[if i == who then j else i].backfilled;
    }
  }

  lemma MissTwice(d0: Data, a: string, s: Race, c: Choice, v: Worker, id: string)
    requires CountInv(d0, a, s) && c.who < |s.workers| && Misses(s.data, a, s.workers[c.who], id) && id in v.backfilled
    ensures CountedTwice(s.workers[c.who := v], id) <==> CountedTwice(s.workers, id) || MissesPending(s, a, c, id)
  {
    forall i | 0 <= i < |s.workers| ensures id in s.workers[i].backfilled <==> Pends(s.workers[i], a, id) {
      assert WorkerCounts(d0, a, s.data, s.workers[i]);
      CountsIffPends(d0, a, s.data, s.workers[i], id);
    }
    assert MissesPending(s, a, c, id) <==> CountedElsewhere(s.workers, c.who, id);
    TwiceElsewhere(s.workers, c.who, v, id);
  }

  /** Over every schedule: a row is counted by two passes if and only if some pass reads it missing while
      another pass's write of it is pending. */
  lemma {:induction false} TwiceIffDoubled(d: Data, a: string, lists: seq<seq<Item>>, schedule: seq<Choice>, id: string)
    requires Keyed(d)
    ensures CountedTwice(Exec(Launch(d, lists), a, schedule).workers, id) <==> Doubled(Launch(d, lists), a, schedule, id)
  {
    var start := Launch(d, lists);
    if |schedule| > 0 {
      var n := |schedule| - 1;
      TwiceIffDoubled(d, a, lists, schedule[..n], id);
      ExecCounts(d, a, lists, schedule[..n]);
      TwiceStep(d, a, Exec(start, a, schedule[..n]), schedule[n], id);
    }
  }

  /** No row that was there at launch is counted. Every row that is new is counted, once the passes are done
      nothing else is, and each by exactly one pass unless two reads of it overlap as above. Each pass's own
      counter is exact for what it counts. */
  lemma BackfillCounts(d: Data, a: string, lists: seq<seq<Item>>, schedule: seq<Choice>, id: string)
    requires Keyed(d)
    ensures var s := Exec(Launch(d, lists), a, schedule);
      && (FindPayment(d, a, id).Some? ==> !Counted(s.workers, id))
      && (FindPayment(d, a, id).None? && FindPayment(s.data, a, id).Some? ==> Counted(s.workers, id))
      && (Counted(s.workers, id) && AllDone(s) ==> FindPayment(s.data, a, id).Some?)
      && (CountedTwice(s.workers, id) <==> Doubled(Launch(d, lists), a, schedule, id))
      && (forall i | 0 <= i < |s.workers| :: s.workers[i].reported == |s.workers[i].inserted| + |s.workers[i].backfilled|)
  {
    var s := Exec(Launch(d, lists), a, schedule);
    ExecCounts(d, a, lists, schedule);
    TwiceIffDoubled(d, a, lists, schedule, id);
    OwnKeyIff(a, RowKey(a, id), id);
    if Counted(s.workers, id) {
      var i :| 0 <= i < |s.workers| && id in s.workers[i].backfilled;
      assert WorkerCounts(d, a, s.data, s.workers[i]);
    }
    forall i | 0 <= i < |s.workers| ensures s.workers[i].reported == |s.workers[i].inserted| + |s.workers[i].backfilled| {
      assert WorkerCounts(d, a, s.data, s.workers[i]);
    }
  }

  /* ---------- the counters of all passes together ---------- */

  ghost predicate Apart(ss: seq<set<string>>) {
    forall i, j :: 0 <= i < j < |ss| ==> ss[i] !! ss[j]
  }

  ghost function Union(ss: seq<set<string>>): set<string> {
    if |ss| == 0 then {} else Union(ss[..|ss| - 1]) + ss[|ss| - 1]
  }

  ghost function Sizes(ss: seq<set<string>>): int {
    if |ss| == 0 then 0 else Sizes(ss[..|ss| - 1]) + |ss[|ss| - 1]|
  }

  lemma {:induction false} InUnion(ss: seq<set<string>>, x: string)
    ensures x in Union(ss) <==> exists i :: 0 <= i < |ss| && x in ss[i]
  {
    if |ss| > 0 {
      var n := |ss| - 1;
      InUnion(ss[..n], x);
      if x in Union(ss[..n]) {
        var i :| 0 <= i < |ss[..n]| && x in ss[..n][i];
        assert x in ss[i];
      }
      if i: int :| 0 <= i < |ss| && x in ss[i] {
        assert i < n ==> x in ss[..n][i];
      }
    }
  }

  lemma TwoSizes(s: set<string>, t: set<string>)
    ensures |s + t| <= |s| + |t|
    ensures |s + t| == |s| + |t| <==> s !! t
  {
    var u := t - s;
    assert s + t == s + u && t == u + (t * s);
    DisjointCard(s, u);
    DisjointCard(u, t * s);
    assert t * s == {} <==> |t * s| == 0;
  }

  lemma ApartSnoc(ss: seq<set<string>>)
    requires |ss| > 0
    ensures Apart(ss) <==> Apart(ss[..|ss| - 1]) && Union(ss[..|ss| - 1]) !! ss[|ss| - 1]
  {
    var n := |ss| - 1;
    var init := ss[..n];
    forall x ensures x in Union(init) <==> exists i :: 0 <= i < n && x in ss[i] {
      InUnion(init, x);
      if i: int :| 0 <= i < n && x in ss[i] {
        assert x in init[i];
      }
      if i: int :| 0 <= i < |init| && x in init[i] {
        assert x in ss[i];
      }
    }
    if Apart(init) && Union(init) !! ss[n] {
      forall i, j | 0 <= i < j < |ss| ensures ss[i] !! ss[j] {
        if j < n {
          assert init[i] !! init[j];
        }
      }
    }
    if Apart(ss) {
      forall i, j | 0 <= i < j < n ensures init[i] !! init[j] {
        assert ss[i] !! ss[j];
      }
      forall x | x in Union(init) ensures x !in ss[n] {
        var i :| 0 <= i < n && x in ss[i];
        assert ss[i] !! ss[n];
      }
    }
  }

  /** Sizes add up to the size of the union exactly for sets that are pairwise apart. */
  lemma {:induction false} SizesUnion(ss: seq<set<string>>)
    ensures |Union(ss)| <= Sizes(ss)
    ensures |Union(ss)| == Sizes(ss) <==> Apart(ss)
  {
    if |ss| > 0 {
      var n := |ss| - 1;
      SizesUnion(ss[..n]);
      TwoSizes(Union(ss[..n]), ss[n]);
      ApartSnoc(ss);
    }
  }

  /** Ids and their row keys are equally many. */
  lemma {:induction false} SameSize(a: string, ids: set<string>, keys: set<string>)
    requires forall id | id in ids :: RowKey(a, id) in keys
    requires forall k | k in keys :: OwnKey(a, k) && IdIn(a, k) in ids
    ensures |ids| == |keys|
  {
    if ids == {} {
      assert keys == {};
    } else {
      var x :| x in ids;
      forall id | id in ids - {x} ensures RowKey(a, id) in keys - {RowKey(a, x)} {
        if RowKey(a, id) == RowKey(a, x) {
          SameID(a, id, x);
        }
      }
      forall k | k in keys - {RowKey(a, x)} ensures IdIn(a, k) in ids - {x} {
        OwnKeyIff(a, k, IdIn(a, k));
      }
      SameSize(a, ids - {x}, keys - {RowKey(a, x)});
    }
  }

  ghost function Booked(ws: seq<Worker>): (r: seq<set<string>>)
    ensures |r| == |ws| && forall i :: 0 <= i < |ws| ==> r[i] == ws[i].backfilled
  {
    seq(|ws|, i requires 0 <= i < |ws| => ws[i].backfilled)
  }

  /** What all passes together report as backfilled. */
  function TotalReported(ws: seq<Worker>): int {
    if |ws| == 0 then 0 else TotalReported(ws[..|ws| - 1]) + ws[|ws| - 1].reported
  }

  lemma {:induction false} ReportedSizes(ws: seq<Worker>)
    requires forall i | 0 <= i < |ws| :: ws[i].reported == |ws[i].inserted| + |ws[i].backfilled|
    ensures TotalReported(ws) == Sizes(Told(ws)) + Sizes(Booked(ws))
  {
    if |ws| > 0 {
      var n := |ws| - 1;
      ReportedSizes(ws[..n]);
      assert Told(ws)[..n] == Told(ws[..n]) && Booked(ws)[..n] == Booked(ws[..n]);
    }
  }

  lemma NewSize<V>(m: map<string, V>, n: map<string, V>)
    requires forall k | k in m :: k in n
    ensures |n.Keys - m.Keys| == |n| - |m|
  {
    assert m.Keys + (n.Keys - m.Keys) == n.Keys;
    DisjointCard(m.Keys, n.Keys - m.Keys);
    assert |m| == |m.Keys| && |n| == |n.Keys|;
  }

  lemma ToldSize(ids: set<string>, told: seq<set<string>>)
    requires OneTeller(ids, told)
    ensures Sizes(told) == |ids|
  {
    forall x ensures x in Union(told) <==> x in ids {
      InUnion(told, x);
    }
    assert Union(told) == ids;
    SizesUnion(told);
  }

  lemma BookedID(d: Data, a: string, s: Race, id: string)
    requires CountInv(d, a, s) && AllDone(s)
    ensures id in Union(Booked(s.workers)) <==> Counted(s.workers, id)
    ensures Counted(s.workers, id) ==> RowKey(a, id) in s.data.payments && RowKey(a, id) !in d.payments
  {
    InUnion(Booked(s.workers), id);
    if Counted(s.workers, id) {
      var i :| 0 <= i < |s.workers| && id in s.workers[i].backfilled;
      assert WorkerCounts(d, a, s.data, s.workers[i]);
      assert id in Booked(s.workers)[i];
    }
  }

  /** Once all passes are done, what they booked are the ids of the new rows. */
  lemma BookedRows(d: Data, a: string, s: Race)
    requires CountInv(d, a, s) && AllDone(s)
    ensures |Union(Booked(s.workers))| == |s.data.payments| - |d.payments|
  {
    var ids, keys := Union(Booked(s.workers)), s.data.payments.Keys - d.payments.Keys;
    forall id | id in ids ensures RowKey(a, id) in keys {
      BookedID(d, a, s, id);
    }
    forall k | k in keys ensures OwnKey(a, k) && IdIn(a, k) in ids {
      BookedID(d, a, s, IdIn(a, k));
    }
    SameSize(a, ids, keys);
    NewSize(d.payments, s.data.payments);
  }

  lemma ApartIffOnce(ws: seq<Worker>)
    ensures Apart(Booked(ws)) <==> forall id :: !CountedTwice(ws, id)
  {
    var ss := Booked(ws);
    if !Apart(ss) {
      var i, j :| 0 <= i < j < |ss| && !(ss[i] !! ss[j]);
      var x :| x in ss[i] && x in ss[j];
      assert CountedTwice(ws, x);
    }
    if id: string :| CountedTwice(ws, id) {
      var i, j :| 0 <= i < |ws| && 0 <= j < |ws| && i != j && id in ws[i].backfilled && id in ws[j].backfilled;
      assert id in ss[i] && id in ss[j];
    }
  }

  lemma TotalAtEnd(d: Data, a: string, s: Race)
    requires CountInv(d, a, s) && AllDone(s) && OneInserter(d, s) && forall t | t in d.ledger :: t in s.data.ledger
    ensures var growth := (|s.data.ledger| - |d.ledger|) + (|s.data.payments| - |d.payments|);
      && TotalReported(s.workers) >= growth
      && (TotalReported(s.workers) == growth <==> OnceEach(s.workers))
  {
    ToldSize(s.data.ledger.Keys - d.ledger.Keys, Told(s.workers));
    NewSize(d.ledger, s.data.ledger);
    BookedRows(d, a, s);
    SizesUnion(Booked(s.workers));
    ApartIffOnce(s.workers);
    forall i | 0 <= i < |s.workers| ensures s.workers[i].reported == |s.workers[i].inserted| + |s.workers[i].backfilled| {
      assert WorkerCounts(d, a, s.data, s.workers[i]);
    }
    ReportedSizes(s.workers);
  }

  ghost predicate OnceEach(ws: seq<Worker>) {
    forall id :: !CountedTwice(ws, id)
  }

  /** No row is read missing while another pass's write of it is pending. */
  ghost predicate NeverDoubled(start: Race, a: string, schedule: seq<Choice>) {
    forall id :: !Doubled(start, a, schedule, id)
  }

  lemma NoneTwice(d: Data, a: string, lists: seq<seq<Item>>, schedule: seq<Choice>)
    requires Keyed(d)
    ensures OnceEach(Exec(Launch(d, lists), a, schedule).workers) <==> NeverDoubled(Launch(d, lists), a, schedule)
  {
    var start := Launch(d, lists);
    var ws := Exec(start, a, schedule).workers;
    forall id ensures CountedTwice(ws, id) <==> Doubled(start, a, schedule, id) {
      TwiceIffDoubled(d, a, lists, schedule, id);
    }
  }

  lemma LedgerKept(d: Data, a: string, items: seq<Item>, lists: seq<seq<Item>>, schedule: seq<Choice>)
    requires SameLists(items, lists)
    ensures var s := Exec(Launch(d, lists), a, schedule); OneInserter(d, s) && forall t | t in d.ledger :: t in s.data.ledger
  {
    ExecLedger(d, a, items, lists, schedule);
  }

  /** The reports of concurrent passes never fall short of the growth of the two tables, and add up to it
      exactly if no row is read missing while another pass's write of it is pending. */
  lemma TotalExactIff(d: Data, a: string, items: seq<Item>, lists: seq<seq<Item>>, schedule: seq<Choice>)
    requires Keyed(d) && SameLists(items, lists) && AllDone(Exec(Launch(d, lists), a, schedule))
    ensures var s := Exec(Launch(d, lists), a, schedule);
            var growth := (|s.data.ledger| - |d.ledger|) + (|s.data.payments| - |d.payments|);
      && TotalReported(s.workers) >= growth
      && (TotalReported(s.workers) == growth <==> NeverDoubled(Launch(d, lists), a, schedule))
  {
    var s := Exec(Launch(d, lists), a, schedule);
    LedgerKept(d, a, items, lists, schedule);
    ExecCounts(d, a, lists, schedule);
    TotalAtEnd(d, a, s);
    NoneTwice(d, a, lists, schedule);
  }
}
