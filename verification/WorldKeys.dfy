/** Idempotency keys when calls interleave, overlap and stop half-way: exactly when one key makes two intents. */
module WorldKeys {
  import opened Domain
  import opened Store
  import opened Gateway
  import opened World
  import App
  import S = WorldStatus

  /* ---------- the steps of a call ---------- */

  /** Step `n` is an operation of task `i`. */
  ghost predicate Moves(bps: int, acts: seq<Act>, n: nat, i: nat) {
    n < |acts| && acts[n].Advance? && acts[n].i == i && Enabled(At(bps, acts, n), acts[n])
  }

  /** In step `n` the call run by task `i` looks key `k` up. */
  ghost predicate LooksUp(bps: int, acts: seq<Act>, n: nat, i: nat, k: string) {
    && Moves(bps, acts, n, i)
    && At(bps, acts, n).tasks[i].StartKey? && At(bps, acts, n).tasks[i].input.key == k
  }

  /** In step `n` the call run by task `i` adds an intent for key `k` to the gateway. */
  ghost predicate Creates(bps: int, acts: seq<Act>, n: nat, i: nat, k: string) {
    && Moves(bps, acts, n, i)
    && At(bps, acts, n).tasks[i].StartCreate? && At(bps, acts, n).tasks[i].input.key == k
    && var a := At(bps, acts, n).tasks[i].input.accountID;
       acts[n].draw.id !in Acct(At(bps, acts, n).gw, a).intents
       && acts[n].draw.id in Acct(At(bps, acts, n + 1).gw, a).intents
  }

  /** In step `n` the key of task `i`'s call lands. */
  ghost predicate Saves(bps: int, acts: seq<Act>, n: nat, i: nat, k: string) {
    && Moves(bps, acts, n, i)
    && At(bps, acts, n).tasks[i].StartSave? && At(bps, acts, n).tasks[i].key == k
  }

  /** The key of task `i`'s call has landed before step `n`. */
  ghost predicate SavedBy(bps: int, acts: seq<Act>, i: nat, n: nat, k: string) {
    exists m: nat :: m < n && Saves(bps, acts, m, i, k)
  }

  /* ---------- tasks and keys over a run ---------- */

  /** Tasks keep their place; one changes only by its own operation or by stopping. */
  lemma TasksStep(s: Sys, bps: int, act: Act, i: nat)
    requires i < |s.tasks|
    ensures var t := Apply(s, bps, act);
      && i < |t.tasks|
      && (t.tasks[i] == s.tasks[i] || t.tasks[i] == Gone
          || (act.Advance? && act.i == i && Enabled(s, act) && t.tasks[i] == AdvanceTask(s, bps, s.tasks[i], act.draw, act.now, act.pis).1))
  {
  }

  /** A new task begins at its beginning. */
  lemma NewTask(s: Sys, bps: int, act: Act, i: nat)
    requires |s.tasks| <= i < |Apply(s, bps, act).tasks|
    ensures var t := Apply(s, bps, act).tasks[i];
      t.StartKey? || (t.StartCreate? && t.input.key == "") || t.HandleRead? || t.Sweep?
  {
  }

  /** Keys are only ever added, by a save. */
  lemma KeysStep(s: Sys, bps: int, act: Act)
    ensures var t := Apply(s, bps, act);
      && (forall k | k in s.data.idempotency :: k in t.data.idempotency)
      && (act.Advance? && Enabled(s, act) && s.tasks[act.i].StartSave? ==> s.tasks[act.i].key in t.data.idempotency)
  {
    if act.Advance? && Enabled(s, act) {
      var x := AdvanceTask(s, bps, s.tasks[act.i], act.draw, act.now, act.pis).0;
      AdvanceKeys(s, bps, s.tasks[act.i], act.draw, act.now, act.pis);
    }
  }

  lemma AdvanceKeys(s: Sys, bps: int, t: Task, x: Draw, now: int, pis: seq<PaymentIntent>)
    ensures AdvanceTask(s, bps, t, x, now, pis).0.data.idempotency ==
            if t.StartSave? then s.data.idempotency[t.key := t.id] else s.data.idempotency
  {
  }

  /** A stored key stays stored and a stopped task stays stopped. */
  lemma {:induction false} Persists(bps: int, acts: seq<Act>, n: nat, m: nat, k: string, i: nat)
    requires n <= m <= |acts|
    ensures k in At(bps, acts, n).data.idempotency ==> k in At(bps, acts, m).data.idempotency
    ensures i < |At(bps, acts, n).tasks| ==> i < |At(bps, acts, m).tasks|
    ensures i < |At(bps, acts, n).tasks| && At(bps, acts, n).tasks[i] == Gone ==> At(bps, acts, m).tasks[i] == Gone
  {
    if n < m {
      Persists(bps, acts, n, m - 1, k, i);
      AtNext(bps, acts, m - 1);
      KeysStep(At(bps, acts, m - 1), bps, acts[m - 1]);
      if i < |At(bps, acts, m - 1).tasks| {
        TasksStep(At(bps, acts, m - 1), bps, acts[m - 1], i);
      }
    }
  }

  /** A call with a key is about to create only if it has looked the key up. */
  lemma {:induction false} LookedUpBefore(bps: int, acts: seq<Act>, n: nat, i: nat)
    requires n <= |acts| && i < |At(bps, acts, n).tasks|
    requires At(bps, acts, n).tasks[i].StartCreate? && At(bps, acts, n).tasks[i].input.key != ""
    ensures exists b: nat :: b < n && LooksUp(bps, acts, b, i, At(bps, acts, n).tasks[i].input.key)
  {
    if n > 0 {
      var s := At(bps, acts, n - 1);
      AtNext(bps, acts, n - 1);
      if i < |s.tasks| {
        TasksStep(s, bps, acts[n - 1], i);
        if s.tasks[i] == At(bps, acts, n).tasks[i] {
          LookedUpBefore(bps, acts, n - 1, i);
        } else {
          assert LooksUp(bps, acts, n - 1, i, At(bps, acts, n).tasks[i].input.key);
        }
      } else {
        NewTask(s, bps, acts[n - 1], i);
      }
    }
  }

  /** A key is stored if and only if some save of it has landed, so a lookup misses exactly when none has. */
  lemma {:induction false} StoredIffSaved(bps: int, acts: seq<Act>, n: nat, k: string)
    requires n <= |acts|
    ensures k in At(bps, acts, n).data.idempotency <==> exists m: nat, o: nat :: m < n && Saves(bps, acts, m, o, k)
  {
    if n > 0 {
      StoredIffSaved(bps, acts, n - 1, k);
      var s, act := At(bps, acts, n - 1), acts[n - 1];
      AtNext(bps, acts, n - 1);
      KeysStep(s, bps, act);
      if act.Advance? && Enabled(s, act) {
        AdvanceKeys(s, bps, s.tasks[act.i], act.draw, act.now, act.pis);
        assert s.tasks[act.i].StartSave? && s.tasks[act.i].key == k ==> Saves(bps, acts, n - 1, act.i, k);
      }
    } else {
      assert acts[..0] == [];
    }
  }

  /** A call that goes on to create found no key: no save of the key had landed when it looked. */
  lemma NoSaveBeforeLookup(bps: int, acts: seq<Act>, b: nat, j: nat, i: nat, k: string, m: nat, other: nat)
    requires b < j && k != "" && LooksUp(bps, acts, b, i, k) && Creates(bps, acts, j, i, k)
    ensures !(m < b && Saves(bps, acts, m, other, k))
  {
    if m < b && Saves(bps, acts, m, other, k) {
      AtNext(bps, acts, m);
      KeysStep(At(bps, acts, m), bps, acts[m]);
      Persists(bps, acts, m + 1, b, k, 0);
      AtNext(bps, acts, b);
      assert At(bps, acts, b + 1).tasks[i] == Gone;
      Persists(bps, acts, b + 1, j, k, i);
      assert false;
    }
  }

  /* ---------- exactly when a key makes a second intent ---------- */

  /** An intent was made for `k` before step `j`. */
  ghost predicate MadeBefore(bps: int, acts: seq<Act>, j: nat, k: string) {
    exists c: nat, o: nat :: c < j && Creates(bps, acts, c, o, k)
  }

  /** An intent was made for `k` before step `j` by a call whose key had not landed before step `b`. */
  ghost predicate MadeUnsaved(bps: int, acts: seq<Act>, j: nat, b: nat, k: string) {
    exists c: nat, o: nat :: c < j && Creates(bps, acts, c, o, k) && !SavedBy(bps, acts, o, b, k)
  }

  /** The intent a call creates for its key is not the first if and only if an earlier call created one and
      its save had not landed when this call looked the key up: it was still running, or it had stopped. */
  lemma SecondIntentIff(bps: int, acts: seq<Act>, j: nat, i: nat, b: nat, k: string)
    requires k != "" && Creates(bps, acts, j, i, k) && b < j && LooksUp(bps, acts, b, i, k)
    ensures MadeBefore(bps, acts, j, k) <==> MadeUnsaved(bps, acts, j, b, k)
  {
    if MadeBefore(bps, acts, j, k) {
      var c: nat, o: nat :| c < j && Creates(bps, acts, c, o, k);
      forall m: nat ensures !(m < b && Saves(bps, acts, m, o, k)) {
        NoSaveBeforeLookup(bps, acts, b, j, i, k, m, o);
      }
      assert !SavedBy(bps, acts, o, b, k);
    }
  }

  /** At each lookup of `k` by a call that creates, every intent made for `k` before that creation is saved. */
  ghost predicate Orderly(bps: int, acts: seq<Act>, k: string) {
    forall j: nat, i: nat, b: nat :: b < j && Creates(bps, acts, j, i, k) && LooksUp(bps, acts, b, i, k) ==>
      !MadeUnsaved(bps, acts, j, b, k)
  }

  /** A run makes at most one intent for a key if and only if it is orderly. */
  lemma OneIntentIff(bps: int, acts: seq<Act>, k: string)
    requires k != ""
    ensures (forall j: nat, i: nat :: Creates(bps, acts, j, i, k) ==> !MadeBefore(bps, acts, j, k)) <==> Orderly(bps, acts, k)
  {
    forall j: nat, i: nat, b: nat | b < j && Creates(bps, acts, j, i, k) && LooksUp(bps, acts, b, i, k)
      ensures MadeBefore(bps, acts, j, k) <==> MadeUnsaved(bps, acts, j, b, k)
    {
      SecondIntentIff(bps, acts, j, i, b, k);
    }
    forall j: nat, i: nat | Creates(bps, acts, j, i, k)
      ensures exists b: nat :: b < j && LooksUp(bps, acts, b, i, k)
    {
      LookedUpBefore(bps, acts, j, i);
    }
  }

  /* ---------- calls that wait for each other ---------- */

  /** In step `n` a call with key `k` begins, as task `o`. */
  ghost predicate Begins(bps: int, acts: seq<Act>, n: nat, o: nat, k: string) {
    && n < |acts| && acts[n].BeginStart? && acts[n].input.key == k
    && |At(bps, acts, n).tasks| == o && |At(bps, acts, n + 1).tasks| == o + 1
  }

  /** Each call with the key begins only after every earlier one has finished without being stopped. */
  ghost predicate Patient(bps: int, acts: seq<Act>, k: string) {
    forall n: nat, o: nat, p: nat, q: nat | p < n && Begins(bps, acts, n, o, k) && Begins(bps, acts, p, q, k) ::
      q < |At(bps, acts, n).tasks| && At(bps, acts, n).tasks[q] == Gone && forall m | 0 <= m < n :: acts[m] != Crash(q)
  }

  /** The task is a call with this key that has not created yet. */
  predicate Young(t: Task, k: string) {
    (t.StartKey? || t.StartCreate?) && t.input.key == k
  }

  lemma NewCall(s: Sys, bps: int, act: Act, o: nat, k: string)
    requires |s.tasks| <= o < |Apply(s, bps, act).tasks| && Young(Apply(s, bps, act).tasks[o], k)
    ensures act.BeginStart? && act.input.key == k && o == |s.tasks| && |Apply(s, bps, act).tasks| == o + 1
  {
  }

  lemma YoungBefore(s: Sys, bps: int, act: Act, o: nat, k: string)
    requires o < |s.tasks| && o < |Apply(s, bps, act).tasks| && Young(Apply(s, bps, act).tasks[o], k)
    ensures Young(s.tasks[o], k)
  {
    TasksStep(s, bps, act, o);
  }

  lemma {:induction false} HasBegun(bps: int, acts: seq<Act>, n: nat, o: nat, k: string)
    requires n <= |acts| && o < |At(bps, acts, n).tasks| && Young(At(bps, acts, n).tasks[o], k)
    ensures exists b: nat :: b < n && Begins(bps, acts, b, o, k)
  {
    if n > 0 {
      var s := At(bps, acts, n - 1);
      AtNext(bps, acts, n - 1);
      if o < |s.tasks| {
        YoungBefore(s, bps, acts[n - 1], o, k);
        HasBegun(bps, acts, n - 1, o, k);
      } else {
        NewCall(s, bps, acts[n - 1], o, k);
        assert Begins(bps, acts, n - 1, o, k);
      }
    }
  }

  /** A call that has created does not create again. */
  lemma {:induction false} StaysGrown(bps: int, acts: seq<Act>, n: nat, m: nat, o: nat, k: string)
    requires n <= m <= |acts| && o < |At(bps, acts, n).tasks| && !Young(At(bps, acts, n).tasks[o], k)
    ensures o < |At(bps, acts, m).tasks| && !Young(At(bps, acts, m).tasks[o], k)
  {
    if n < m {
      StaysGrown(bps, acts, n, m - 1, o, k);
      AtNext(bps, acts, m - 1);
      TasksStep(At(bps, acts, m - 1), bps, acts[m - 1], o);
    }
  }

  lemma CreatedGrown(bps: int, acts: seq<Act>, c: nat, o: nat, k: string)
    requires k != "" && Creates(bps, acts, c, o, k)
    ensures o < |At(bps, acts, c + 1).tasks| && At(bps, acts, c + 1).tasks[o].StartWrite? && At(bps, acts, c + 1).tasks[o].key == k
  {
    AtNext(bps, acts, c);
  }

  lemma SavedStill(bps: int, acts: seq<Act>, o: nat, n: nat, k: string)
    requires SavedBy(bps, acts, o, n, k)
    ensures SavedBy(bps, acts, o, n + 1, k)
  {
    var m: nat :| m < n && Saves(bps, acts, m, o, k);
  }

  /** From its creation until it finishes, a call that is not stopped is on its way to save its key, or has. */
  lemma {:induction false} OnItsWay(bps: int, acts: seq<Act>, c: nat, n: nat, o: nat, k: string)
    requires k != "" && Creates(bps, acts, c, o, k) && c < n <= |acts| && forall m | 0 <= m < n :: acts[m] != Crash(o)
    ensures o < |At(bps, acts, n).tasks|
    ensures var t := At(bps, acts, n).tasks[o];
            (t.StartWrite? && t.key == k) || (t.StartSave? && t.key == k) || SavedBy(bps, acts, o, n, k)
  {
    if c + 1 == n {
      CreatedGrown(bps, acts, c, o, k);
    } else {
      OnItsWay(bps, acts, c, n - 1, o, k);
      var s, act := At(bps, acts, n - 1), acts[n - 1];
      AtNext(bps, acts, n - 1);
      TasksStep(s, bps, act, o);
      if SavedBy(bps, acts, o, n - 1, k) {
        SavedStill(bps, acts, o, n - 1, k);
      } else if s.tasks[o].StartSave? && Moves(bps, acts, n - 1, o) {
        assert Saves(bps, acts, n - 1, o, k);
      }
    }
  }

  lemma {:induction false} MoreTasks(bps: int, acts: seq<Act>, n: nat, m: nat)
    requires n <= m <= |acts|
    ensures |At(bps, acts, n).tasks| <= |At(bps, acts, m).tasks|
  {
    if n < m {
      MoreTasks(bps, acts, n, m - 1);
      AtNext(bps, acts, m - 1);
    }
  }

  /** A creation before another call's begin has been saved by then. */
  lemma SavedBeforeBegin(bps: int, acts: seq<Act>, c: nat, o: nat, p: nat, n: nat, i: nat, k: string)
    requires k != "" && Patient(bps, acts, k) && Creates(bps, acts, c, o, k)
    requires p < n && Begins(bps, acts, p, o, k) && Begins(bps, acts, n, i, k)
    ensures c < n && SavedBy(bps, acts, o, n, k)
  {
    if n <= c {
      Persists(bps, acts, n, c, k, o);
    } else {
      OnItsWay(bps, acts, c, n, o, k);
    }
  }

  lemma SameCall(bps: int, acts: seq<Act>, k: string, c: nat, o: nat, j: nat, i: nat)
    requires k != "" && c < j && Creates(bps, acts, c, o, k) && Creates(bps, acts, j, i, k)
    ensures o != i
  {
    CreatedGrown(bps, acts, c, o, k);
    StaysGrown(bps, acts, c + 1, j, o, k);
  }

  /** A call that begins after its key was saved does not create. */
  lemma SavedIsFound(bps: int, acts: seq<Act>, n: nat, i: nat, k: string, j: nat, o: nat)
    requires k != "" && Begins(bps, acts, n, i, k) && SavedBy(bps, acts, o, n, k)
    ensures !Creates(bps, acts, j, i, k)
  {
    if Creates(bps, acts, j, i, k) {
      LookedUpBefore(bps, acts, j, i);
      var b: nat :| b < j && LooksUp(bps, acts, b, i, k);
      if b <= n {
        MoreTasks(bps, acts, b, n);
      }
      var m: nat :| m < n && Saves(bps, acts, m, o, k);
      NoSaveBeforeLookup(bps, acts, b, j, i, k, m, o);
    }
  }

  /** Of two calls that wait for each other only one creates. */
  lemma OneCreates(bps: int, acts: seq<Act>, k: string, c: nat, o: nat, p: nat, j: nat, i: nat, n: nat)
    requires k != "" && Patient(bps, acts, k) && p < n && Begins(bps, acts, p, o, k) && Begins(bps, acts, n, i, k)
    ensures !(Creates(bps, acts, c, o, k) && Creates(bps, acts, j, i, k))
  {
    if Creates(bps, acts, c, o, k) && Creates(bps, acts, j, i, k) {
      SavedBeforeBegin(bps, acts, c, o, p, n, i, k);
      SavedIsFound(bps, acts, n, i, k, j, o);
    }
  }

  /** Calls with one key that wait for each other and are not stopped make one intent. */
  lemma PatientCallsShareKey(bps: int, acts: seq<Act>, k: string, j: nat, i: nat)
    requires k != "" && Patient(bps, acts, k) && Creates(bps, acts, j, i, k)
    ensures !MadeBefore(bps, acts, j, k)
  {
    if MadeBefore(bps, acts, j, k) {
      var c: nat, o: nat :| c < j && Creates(bps, acts, c, o, k);
      SameCall(bps, acts, k, c, o, j, i);
      HasBegun(bps, acts, c, o, k);
      HasBegun(bps, acts, j, i, k);
      var p: nat :| p < c && Begins(bps, acts, p, o, k);
      var n: nat :| n < j && Begins(bps, acts, n, i, k);
      if p < n {
        OneCreates(bps, acts, k, c, o, p, j, i, n);
      } else if n < p {
        OneCreates(bps, acts, k, j, i, n, c, o, p);
      }
    }
  }

  /* ---------- what a stored key answers ---------- */

  /** The account of the call that task `o` runs in step `c`. */
  ghost function CallAccount(bps: int, acts: seq<Act>, c: nat, o: nat): string
    requires c < |acts| && o < |At(bps, acts, c).tasks| && At(bps, acts, c).tasks[o].StartCreate?
  {
    At(bps, acts, c).tasks[o].input.accountID
  }

  /** In step `c` task `o` made intent `id` for key `k`, and its account still has it at step `n`. */
  ghost predicate MadeBy(bps: int, acts: seq<Act>, n: nat, c: nat, o: nat, k: string, id: string)
    requires n <= |acts|
  {
    && c < n && Creates(bps, acts, c, o, k) && acts[c].draw.id == id
    && id in Acct(At(bps, acts, n).gw, CallAccount(bps, acts, c, o)).intents
  }

  ghost predicate MadeFor(bps: int, acts: seq<Act>, n: nat, k: string, id: string)
    requires n <= |acts|
  {
    exists c: nat, o: nat :: MadeBy(bps, acts, n, c, o, k, id)
  }

  /** What holds of one task. */
  ghost predicate TaskKey(bps: int, acts: seq<Act>, n: nat, t: Task)
    requires n <= |acts|
  {
    match t
    case StartKey(input, _) => input.key != ""
    case StartWrite(row, key) => key != "" ==> MadeFor(bps, acts, n, key, row.intentID)
    case StartSave(key, id) => MadeFor(bps, acts, n, key, id)
    case _ => true
  }

  ghost predicate KeysHold(bps: int, acts: seq<Act>, n: nat)
    requires n <= |acts|
  {
    var s := At(bps, acts, n);
    && (forall k | k in s.data.idempotency :: MadeFor(bps, acts, n, k, s.data.idempotency[k]))
    && (forall i | 0 <= i < |s.tasks| :: TaskKey(bps, acts, n, s.tasks[i]))
  }

  /** The step creates intent `id` for account `a`. */
  ghost predicate Adds(s: Sys, act: Act, a: string, id: string) {
    && act.Advance? && Enabled(s, act) && s.tasks[act.i].StartCreate?
    && a == s.tasks[act.i].input.accountID && id == act.draw.id && ValidAmount(s.tasks[act.i].input.amount)
  }

  /** The gateway drops no intent, and only a creating call adds one. */
  lemma IntentsStep(s: Sys, bps: int, act: Act, a: string, id: string)
    ensures id in Acct(Apply(s, bps, act).gw, a).intents <==> id in Acct(s.gw, a).intents || Adds(s, act, a, id)
  {
    if act.Advance? && Enabled(s, act) {
      var t := s.tasks[act.i];
      assert Apply(s, bps, act).gw == AdvanceTask(s, bps, t, act.draw, act.now, act.pis).0.gw;
      AdvanceIntents(s, bps, t, act.draw, act.now, act.pis, a, id);
    }
  }

  lemma AdvanceIntents(s: Sys, bps: int, t: Task, x: Draw, now: int, pis: seq<PaymentIntent>, a: string, id: string)
    ensures id in Acct(AdvanceTask(s, bps, t, x, now, pis).0.gw, a).intents <==>
            id in Acct(s.gw, a).intents || (t.StartCreate? && a == t.input.accountID && id == x.id && ValidAmount(t.input.amount))
  {
  }

  lemma MadeForLater(bps: int, acts: seq<Act>, n: nat, k: string, id: string)
    requires n < |acts| && MadeFor(bps, acts, n, k, id)
    ensures MadeFor(bps, acts, n + 1, k, id)
  {
    var c: nat, o: nat :| MadeBy(bps, acts, n, c, o, k, id);
    AtNext(bps, acts, n);
    IntentsStep(At(bps, acts, n), bps, acts[n], CallAccount(bps, acts, c, o), id);
    assert MadeBy(bps, acts, n + 1, c, o, k, id);
  }

  /** The create step makes the intent that its next operations carry. */
  lemma CreateMakes(bps: int, acts: seq<Act>, n: nat, i: nat)
    requires Moves(bps, acts, n, i) && At(bps, acts, n).tasks[i].StartCreate?
    ensures i < |At(bps, acts, n + 1).tasks| && TaskKey(bps, acts, n + 1, At(bps, acts, n + 1).tasks[i])
  {
    var s := At(bps, acts, n);
    var t := s.tasks[i];
    AtNext(bps, acts, n);
    var (g, r) := CreateIntent(s.gw, t.input.accountID, App.ParamsFor(t.input, t.donor), acts[n].draw);
    if r.Ok? && t.input.key != "" {
      assert At(bps, acts, n + 1).gw == g && r.value.id == acts[n].draw.id;
      assert Creates(bps, acts, n, i, t.input.key);
      assert MadeBy(bps, acts, n + 1, n, i, t.input.key, r.value.id);
    }
  }

  lemma TaskKeyStep(bps: int, acts: seq<Act>, n: nat, i: nat)
    requires n < |acts| && KeysHold(bps, acts, n) && i < |At(bps, acts, n + 1).tasks|
    ensures TaskKey(bps, acts, n + 1, At(bps, acts, n + 1).tasks[i])
  {
    var s, act := At(bps, acts, n), acts[n];
    AtNext(bps, acts, n);
    if i < |s.tasks| {
      TasksStep(s, bps, act, i);
      var t := s.tasks[i];
      assert TaskKey(bps, acts, n, t);
      if t.StartWrite? && t.key != "" {
        MadeForLater(bps, acts, n, t.key, t.row.intentID);
      } else if t.StartSave? {
        MadeForLater(bps, acts, n, t.key, t.id);
      } else if t.StartCreate? && Moves(bps, acts, n, i) {
        CreateMakes(bps, acts, n, i);
      }
    }
  }

  lemma {:induction false} KeysAlwaysHold(bps: int, acts: seq<Act>, n: nat)
    requires n <= |acts|
    ensures KeysHold(bps, acts, n)
  {
    if n > 0 {
      KeysAlwaysHold(bps, acts, n - 1);
      AtNext(bps, acts, n - 1);
      forall i | 0 <= i < |At(bps, acts, n).tasks| ensures TaskKey(bps, acts, n, At(bps, acts, n).tasks[i]) {
        TaskKeyStep(bps, acts, n - 1, i);
      }
      forall k | k in At(bps, acts, n).data.idempotency ensures MadeFor(bps, acts, n, k, At(bps, acts, n).data.idempotency[k]) {
        StoredKeyStep(bps, acts, n - 1, k);
      }
    }
  }

  lemma StoredKeyStep(bps: int, acts: seq<Act>, n: nat, k: string)
    requires n < |acts| && KeysHold(bps, acts, n) && k in At(bps, acts, n + 1).data.idempotency
    ensures MadeFor(bps, acts, n + 1, k, At(bps, acts, n + 1).data.idempotency[k])
  {
    var s, act := At(bps, acts, n), acts[n];
    AtNext(bps, acts, n);
    var id := At(bps, acts, n + 1).data.idempotency[k];
    if act.Advance? && Enabled(s, act) {
      AdvanceKeys(s, bps, s.tasks[act.i], act.draw, act.now, act.pis);
      assert TaskKey(bps, acts, n, s.tasks[act.i]);
    }
    assert MadeFor(bps, acts, n, k, id);
    MadeForLater(bps, acts, n, k, id);
  }

  /* ---------- keys across accounts ---------- */

  /** The gateway draws each intent id once, whatever the account. */
  ghost predicate NewIds(bps: int, acts: seq<Act>) {
    forall n: nat, i: nat, a | Moves(bps, acts, n, i) && At(bps, acts, n).tasks[i].StartCreate? ::
      acts[n].draw.id !in Acct(At(bps, acts, n).gw, a).intents
  }

  lemma {:induction false} AlwaysOneHome(bps: int, acts: seq<Act>, n: nat)
    requires NewIds(bps, acts) && n <= |acts|
    ensures OneHome(At(bps, acts, n).gw)
  {
    if n > 0 {
      AlwaysOneHome(bps, acts, n - 1);
      AtNext(bps, acts, n - 1);
      var s, t := At(bps, acts, n - 1), At(bps, acts, n);
      forall a, b, id | id in Acct(t.gw, a).intents && id in Acct(t.gw, b).intents ensures a == b {
        assert acts[n - 1].Advance? && Enabled(s, acts[n - 1]) ==> Moves(bps, acts, n - 1, acts[n - 1].i);
        IntentsStep(s, bps, acts[n - 1], a, id);
        IntentsStep(s, bps, acts[n - 1], b, id);
      }
    } else {
      assert acts[..0] == [];
    }
  }

  /** Before step `b` a call of account `a` made intent `id` for key `k`. */
  ghost predicate MadeIn(bps: int, acts: seq<Act>, b: nat, k: string, id: string, a: string) {
    exists c: nat, o: nat :: c < b && Creates(bps, acts, c, o, k) && acts[c].draw.id == id && CallAccount(bps, acts, c, o) == a
  }

  /** A call that finds its key is answered with the intent stored there if and only if an earlier call of its
      own account made that intent for that key; a call of another account gets "not found". */
  lemma FoundKeyAnswers(bps: int, acts: seq<Act>, b: nat, i: nat, k: string)
    requires NewIds(bps, acts) && LooksUp(bps, acts, b, i, k) && k in At(bps, acts, b).data.idempotency
    ensures var s := At(bps, acts, b);
            var a, id := s.tasks[i].input.accountID, s.data.idempotency[k];
            var r := GetIntent(s.gw, a, id);
      && (r.Ok? <==> MadeIn(bps, acts, b, k, id, a))
      && (r.Err? ==> r == Err(NotFound) && exists other :: other != a && MadeIn(bps, acts, b, k, id, other))
  {
    KeysAlwaysHold(bps, acts, b);
    var s := At(bps, acts, b);
    HasMaker(bps, acts, b, k, s.data.idempotency[k], s.tasks[i].input.accountID);
  }

  /** An account has the intent if and only if it made it; otherwise another account did. */
  lemma HasMaker(bps: int, acts: seq<Act>, b: nat, k: string, id: string, a: string)
    requires NewIds(bps, acts) && b <= |acts| && MadeFor(bps, acts, b, k, id)
    ensures id in Acct(At(bps, acts, b).gw, a).intents <==> MadeIn(bps, acts, b, k, id, a)
    ensures id in Acct(At(bps, acts, b).gw, a).intents || exists other :: other != a && MadeIn(bps, acts, b, k, id, other)
  {
    AlwaysOneHome(bps, acts, b);
    var c: nat, o: nat :| MadeBy(bps, acts, b, c, o, k, id);
    assert MadeIn(bps, acts, b, k, id, CallAccount(bps, acts, c, o));
    if MadeIn(bps, acts, b, k, id, a) {
      MadeInHas(bps, acts, b, k, id, a);
    }
  }

  lemma MadeInHas(bps: int, acts: seq<Act>, b: nat, k: string, id: string, a: string)
    requires b <= |acts| && MadeIn(bps, acts, b, k, id, a)
    ensures id in Acct(At(bps, acts, b).gw, a).intents
  {
    var c: nat, o: nat :| c < b && Creates(bps, acts, c, o, k) && acts[c].draw.id == id && CallAccount(bps, acts, c, o) == a;
    MadeStays(bps, acts, c, b, o, k);
  }

  lemma {:induction false} MadeStays(bps: int, acts: seq<Act>, c: nat, n: nat, o: nat, k: string)
    requires c < n <= |acts| && Creates(bps, acts, c, o, k)
    ensures acts[c].draw.id in Acct(At(bps, acts, n).gw, CallAccount(bps, acts, c, o)).intents
  {
    if c + 1 < n {
      MadeStays(bps, acts, c, n - 1, o, k);
      AtNext(bps, acts, n - 1);
      IntentsStep(At(bps, acts, n - 1), bps, acts[n - 1], CallAccount(bps, acts, c, o), acts[c].draw.id);
    }
  }

  /* ---------- two runs with two intents for one key ---------- */

  const KeyedGift := S.Gift.(key := "k")
  const Save := SaveDonor(S.Giver)
  const Begin := BeginStart(KeyedGift)
  const OtherDraw := Draw("pi_2", "txn_2", 5, 5)

  lemma SaveStep(s: Sys, bps: int)
    ensures Apply(s, bps, Save) == s.(data := PutDonor(s.data, S.Giver))
    ensures FindDonor(PutDonor(s.data, S.Giver), "acct", "cus_1") == Some(S.Giver)
  {
  }

  lemma BeginStep(s: Sys, bps: int)
    requires FindDonor(s.data, "acct", "cus_1") == Some(S.Giver)
    ensures Apply(s, bps, Begin) == s.(tasks := s.tasks + [StartKey(KeyedGift, S.Giver)])
  {
  }

  /** The donor exists and one call has begun. */
  lemma OneCall(bps: int) returns (s: Sys, acts: seq<Act>)
    ensures acts == [Save, Begin] && s == Exec(Initial, bps, acts)
    ensures s.gw == EmptyGw && s.data.idempotency == map[] && FindDonor(s.data, "acct", "cus_1") == Some(S.Giver)
    ensures s.tasks == [StartKey(KeyedGift, S.Giver)]
  {
    acts := [];
    SaveStep(Initial, bps);
    s, acts := S.Then(bps, Initial, acts, Save);
    BeginStep(s, bps);
    s, acts := S.Then(bps, s, acts, Begin);
  }

  /** An operation of a task that has missed its key: the intent is created. */
  lemma CreateStep(s: Sys, bps: int, i: nat, x: Draw)
    requires i < |s.tasks| && s.tasks[i] == StartCreate(KeyedGift, S.Giver)
    requires x.id !in Acct(s.gw, "acct").intents && Plain(x.id)
    ensures var t := Apply(s, bps, S.Step(i, x));
      && Acct(t.gw, "acct").intents.Keys == Acct(s.gw, "acct").intents.Keys + {x.id}
      && |t.tasks| == |s.tasks| && t.data == s.data
      && (forall j | 0 <= j < |s.tasks| && j != i :: t.tasks[j] == s.tasks[j])
  {
  }

  /** An operation of a task that finds no key. */
  lemma MissStep(s: Sys, bps: int, i: nat, x: Draw)
    requires i < |s.tasks| && s.tasks[i] == StartKey(KeyedGift, S.Giver) && s.data.idempotency == map[]
    ensures Apply(s, bps, S.Step(i, x)) == s.(tasks := s.tasks[i := StartCreate(KeyedGift, S.Giver)])
  {
  }

  /** Both calls have looked their key up, and neither has created yet. */
  lemma BothMiss(bps: int) returns (s: Sys, acts: seq<Act>)
    ensures s == Exec(Initial, bps, acts)
    ensures acts == [Save, Begin, Begin, S.Step(0, S.AnyDraw), S.Step(1, S.AnyDraw)]
    ensures s.gw == EmptyGw && s.tasks == [StartCreate(KeyedGift, S.Giver), StartCreate(KeyedGift, S.Giver)]
  {
    s, acts := OneCall(bps);
    BeginStep(s, bps);
    s, acts := S.Then(bps, s, acts, Begin);
    MissStep(s, bps, 0, S.AnyDraw);
    s, acts := S.Then(bps, s, acts, S.Step(0, S.AnyDraw));
    MissStep(s, bps, 1, S.AnyDraw);
    s, acts := S.Then(bps, s, acts, S.Step(1, S.AnyDraw));
  }

  /** Two calls overlap: both look the key up before either saves it. */
  lemma OverlappingCallsShareNoKey(bps: int) returns (s: Sys, acts: seq<Act>)
    ensures s == Exec(Initial, bps, acts) && Acct(s.gw, "acct").intents.Keys == {"pi_1", "pi_2"}
    ensures acts == [Save, Begin, Begin, S.Step(0, S.AnyDraw), S.Step(1, S.AnyDraw), S.Step(0, S.AnyDraw), S.Step(1, OtherDraw)]
  {
    s, acts := BothMiss(bps);
    CreateStep(s, bps, 0, S.AnyDraw);
    s, acts := S.Then(bps, s, acts, S.Step(0, S.AnyDraw));
    CreateStep(s, bps, 1, OtherDraw);
    s, acts := S.Then(bps, s, acts, S.Step(1, OtherDraw));
  }

  lemma OneMissed(bps: int) returns (s: Sys, acts: seq<Act>)
    ensures s == Exec(Initial, bps, acts) && acts == [Save, Begin, S.Step(0, S.AnyDraw)]
    ensures s.gw == EmptyGw && s.data.idempotency == map[] && FindDonor(s.data, "acct", "cus_1") == Some(S.Giver)
    ensures s.tasks == [StartCreate(KeyedGift, S.Giver)]
  {
    s, acts := OneCall(bps);
    MissStep(s, bps, 0, S.AnyDraw);
    s, acts := S.Then(bps, s, acts, S.Step(0, S.AnyDraw));
  }

  lemma CrashStep(s: Sys, bps: int)
    requires |s.tasks| == 1
    ensures Apply(s, bps, Crash(0)) == s.(tasks := [Gone])
  {
  }

  /** The first call has created its intent and stopped. */
  lemma CreatedAndStopped(bps: int) returns (s: Sys, acts: seq<Act>)
    ensures s == Exec(Initial, bps, acts)
    ensures acts == [Save, Begin, S.Step(0, S.AnyDraw), S.Step(0, S.AnyDraw), Crash(0)]
    ensures Acct(s.gw, "acct").intents.Keys == {"pi_1"} && s.tasks == [Gone]
    ensures s.data.idempotency == map[] && FindDonor(s.data, "acct", "cus_1") == Some(S.Giver)
  {
    s, acts := OneMissed(bps);
    CreateStep(s, bps, 0, S.AnyDraw);
    s, acts := S.Then(bps, s, acts, S.Step(0, S.AnyDraw));
    CrashStep(s, bps);
    s, acts := S.Then(bps, s, acts, Crash(0));
  }

  /** No overlap is needed: the first call stops after it created its intent, and the second begins later. */
  lemma StoppedCallLosesKey(bps: int) returns (s: Sys, acts: seq<Act>)
    ensures s == Exec(Initial, bps, acts) && Acct(s.gw, "acct").intents.Keys == {"pi_1", "pi_2"}
    ensures acts == [Save, Begin, S.Step(0, S.AnyDraw), S.Step(0, S.AnyDraw), Crash(0), Begin, S.Step(1, OtherDraw), S.Step(1, OtherDraw)]
  {
    s, acts := CreatedAndStopped(bps);
    BeginStep(s, bps);
    s, acts := S.Then(bps, s, acts, Begin);
    MissStep(s, bps, 1, OtherDraw);
    s, acts := S.Then(bps, s, acts, S.Step(1, OtherDraw));
    CreateStep(s, bps, 1, OtherDraw);
    s, acts := S.Then(bps, s, acts, S.Step(1, OtherDraw));
  }
}
