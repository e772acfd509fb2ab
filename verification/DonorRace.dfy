/** `EnsureDonor` cut at its operations: find, create the customer, save. Exactly when two donors share an email. */
module DonorRace {
  import opened Domain
  import opened Store
  import opened App

  datatype Stage = Looking | Creating | Saving(donor: Donor) | Finished

  datatype Call = Call(accountID: string, email: string, name: string, stage: Stage)

  /** `issued` are the customer ids the gateway has drawn so far. */
  datatype State = State(data: Data, calls: seq<Call>, issued: set<string>)

  /** Which call does its next operation, and the customer id the gateway draws: a new one, or nothing happens. */
  datatype Choice = Choice(who: nat, freshID: string)

  ghost predicate Known(d: Data, accountID: string, email: string) {
    exists k :: k in d.donors && MatchesDonor(d.donors[k], accountID, email)
  }

  ghost function Do(s: State, c: Choice): State {
    if c.who >= |s.calls| then s
    else
      var x := s.calls[c.who];
      match x.stage
      case Looking => s.(calls := s.calls[c.who := x.(stage := if Known(s.data, x.accountID, x.email) then Finished else Creating)])
      case Creating =>
        if c.freshID in s.issued || !Plain(c.freshID) then s
        else s.(calls := s.calls[c.who := x.(stage := Saving(Donor(c.freshID, x.accountID, x.email, x.name, c.freshID)))],
                issued := s.issued + {c.freshID})
      case Saving(donor) => s.(data := PutDonor(s.data, donor), calls := s.calls[c.who := x.(stage := Finished)])
      case Finished => s
  }

  ghost function Upto(s: State, schedule: seq<Choice>, n: nat): State
    requires n <= |schedule|
  {
    if n == 0 then s else Do(Upto(s, schedule, n - 1), schedule[n - 1])
  }

  /** Each call as it came in, at whatever stage it is now; nothing is pending but its own donor. */
  ghost predicate Running(s0: State, s: State) {
    && |s.calls| == |s0.calls| && Keyed(s.data)
    && (forall i | 0 <= i < |s.calls| ::
          && s.calls[i] == s0.calls[i].(stage := s.calls[i].stage)
          && (s.calls[i].stage.Saving? ==>
                var d := s.calls[i].stage.donor; MatchesDonor(d, s.calls[i].accountID, s.calls[i].email)))
  }

  /** Stored and pending donors have ids that were drawn, and pending ones their own. */
  ghost predicate Apart(s: State) {
    && (forall k | k in s.data.donors :: Plain(s.data.donors[k].id) && s.data.donors[k].id in s.issued)
    && (forall i | 0 <= i < |s.calls| && s.calls[i].stage.Saving? ::
          var id := s.calls[i].stage.donor.id; Plain(id) && id in s.issued && forall k | k in s.data.donors :: s.data.donors[k].id != id)
    && (forall i, j | 0 <= i < |s.calls| && 0 <= j < |s.calls| && i != j && s.calls[i].stage.Saving? && s.calls[j].stage.Saving? ::
          s.calls[i].stage.donor.id != s.calls[j].stage.donor.id)
  }

  /** No call has done anything yet. */
  ghost predicate Begin(s: State) {
    Keyed(s.data) && Apart(s) && forall i | 0 <= i < |s.calls| :: s.calls[i].stage == Looking
  }

  lemma StepRuns(s0: State, s: State, c: Choice)
    requires Running(s0, s)
    ensures Running(s0, Do(s, c))
  {
  }

  lemma StepApart(s: State, c: Choice)
    requires Apart(s)
    ensures Apart(Do(s, c))
  {
  }

  lemma {:induction false} AlwaysRunning(s0: State, schedule: seq<Choice>, n: nat)
    requires Begin(s0) && n <= |schedule|
    ensures Running(s0, Upto(s0, schedule, n)) && Apart(Upto(s0, schedule, n))
  {
    if n > 0 {
      AlwaysRunning(s0, schedule, n - 1);
      StepRuns(s0, Upto(s0, schedule, n - 1), schedule[n - 1]);
      StepApart(Upto(s0, schedule, n - 1), schedule[n - 1]);
    }
  }

  /* ---------- one call ---------- */

  ghost predicate LooksUp(s0: State, schedule: seq<Choice>, n: nat, i: nat) {
    n < |schedule| && schedule[n].who == i && i < |Upto(s0, schedule, n).calls| && Upto(s0, schedule, n).calls[i].stage == Looking
  }

  ghost predicate Saves(s0: State, schedule: seq<Choice>, n: nat, i: nat) {
    n < |schedule| && schedule[n].who == i && i < |Upto(s0, schedule, n).calls| && Upto(s0, schedule, n).calls[i].stage.Saving?
  }

  /** The step saves a donor for this account and email. */
  ghost predicate SavesFor(s0: State, schedule: seq<Choice>, n: nat, accountID: string, email: string) {
    exists o: nat :: Saves(s0, schedule, n, o) && Upto(s0, schedule, n).calls[o].accountID == accountID
                     && Upto(s0, schedule, n).calls[o].email == email
  }

  /** A donor becomes known exactly by a save for its account and email, and stays known. */
  lemma KnownStep(s0: State, schedule: seq<Choice>, n: nat, accountID: string, email: string)
    requires Begin(s0) && n < |schedule|
    ensures Known(Upto(s0, schedule, n + 1).data, accountID, email) <==>
            Known(Upto(s0, schedule, n).data, accountID, email) || SavesFor(s0, schedule, n, accountID, email)
  {
    AlwaysRunning(s0, schedule, n);
    var s, c := Upto(s0, schedule, n), schedule[n];
    if c.who < |s.calls| && s.calls[c.who].stage.Saving? {
      var donor := s.calls[c.who].stage.donor;
      SavedApart(s0, schedule, n, c.who);
      assert Saves(s0, schedule, n, c.who);
      var k := RowKey(donor.accountID, donor.id);
      assert k in PutDonor(s.data, donor).donors && PutDonor(s.data, donor).donors[k] == donor;
      if Known(s.data, accountID, email) {
        var l :| l in s.data.donors && MatchesDonor(s.data.donors[l], accountID, email);
        assert PutDonor(s.data, donor).donors[l] == s.data.donors[l];
      }
    }
  }

  /** A saved donor takes a key that no donor has. */
  lemma SavedApart(s0: State, schedule: seq<Choice>, n: nat, i: nat)
    requires Begin(s0) && Saves(s0, schedule, n, i)
    ensures var s := Upto(s0, schedule, n); RowKey(s.calls[i].stage.donor.accountID, s.calls[i].stage.donor.id) !in s.data.donors
  {
    AlwaysRunning(s0, schedule, n);
    var s := Upto(s0, schedule, n);
    var donor := s.calls[i].stage.donor;
    var k := RowKey(donor.accountID, donor.id);
    if k in s.data.donors {
      RowKeyInjective(s.data.donors[k].accountID, s.data.donors[k].id, donor.accountID, donor.id);
    }
  }

  lemma {:induction false} KnownSince(s0: State, schedule: seq<Choice>, b: nat, j: nat, accountID: string, email: string)
    requires Begin(s0) && b <= j <= |schedule|
    ensures Known(Upto(s0, schedule, j).data, accountID, email) <==>
            Known(Upto(s0, schedule, b).data, accountID, email) || exists m: nat :: b <= m < j && SavesFor(s0, schedule, m, accountID, email)
  {
    if b < j {
      KnownSince(s0, schedule, b, j - 1, accountID, email);
      KnownStep(s0, schedule, j - 1, accountID, email);
    }
  }

  /** A call that has finished stays finished. */
  lemma {:induction false} StaysFinished(s0: State, schedule: seq<Choice>, n: nat, m: nat, i: nat)
    requires n <= m <= |schedule| && i < |Upto(s0, schedule, n).calls| && Upto(s0, schedule, n).calls[i].stage == Finished
    ensures i < |Upto(s0, schedule, m).calls| && Upto(s0, schedule, m).calls[i].stage == Finished
  {
    if n < m {
      StaysFinished(s0, schedule, n, m - 1, i);
    }
  }

  /** The donor a call saves is the second for its account and email if and only if another call for them
      saved one between this call's lookup and its save. */
  lemma SecondDonorIff(s0: State, schedule: seq<Choice>, b: nat, j: nat, i: nat)
    requires Begin(s0) && b < j && LooksUp(s0, schedule, b, i) && Saves(s0, schedule, j, i)
    ensures i < |s0.calls|
    ensures var x := s0.calls[i];
      (Known(Upto(s0, schedule, j).data, x.accountID, x.email) <==>
       exists m: nat :: b <= m < j && SavesFor(s0, schedule, m, x.accountID, x.email))
  {
    AlwaysRunning(s0, schedule, b);
    var x := s0.calls[i];
    if Known(Upto(s0, schedule, b).data, x.accountID, x.email) {
      assert Upto(s0, schedule, b + 1).calls[i].stage == Finished;
      StaysFinished(s0, schedule, b + 1, j, i);
    }
    KnownSince(s0, schedule, b, j, x.accountID, x.email);
  }

  /** Two such calls overlap, and the account has two donors with one email. */
  lemma TwoDonors(a: string, email: string)
    ensures var s := Upto(State(EmptyData, [Call(a, email, "", Looking), Call(a, email, "", Looking)], {}),
                          [Choice(0, "cus_0"), Choice(1, "cus_1"), Choice(0, "cus_2"),
                           Choice(1, "cus_3"), Choice(0, "cus_4"), Choice(1, "cus_5")], 6);
            FindDonor(s.data, a, "cus_2") == Some(Donor("cus_2", a, email, "", "cus_2"))
            && FindDonor(s.data, a, "cus_3") == Some(Donor("cus_3", a, email, "", "cus_3"))
  {
    var s0 := State(EmptyData, [Call(a, email, "", Looking), Call(a, email, "", Looking)], {});
    assert '|' !in "cus_2" && '|' !in "cus_3";
    var schedule := [Choice(0, "cus_0"), Choice(1, "cus_1"), Choice(0, "cus_2"), Choice(1, "cus_3"), Choice(0, "cus_4"), Choice(1, "cus_5")];
    var one, two := Donor("cus_2", a, email, "", "cus_2"), Donor("cus_3", a, email, "", "cus_3");
    assert Upto(s0, schedule, 2).calls == [Call(a, email, "", Creating), Call(a, email, "", Creating)]
           && Upto(s0, schedule, 2).data == EmptyData by {
      assert Upto(s0, schedule, 1) == Do(s0, schedule[0]);
    }
    assert Upto(s0, schedule, 4).calls == [Call(a, email, "", Saving(one)), Call(a, email, "", Saving(two))]
           && Upto(s0, schedule, 4).data == EmptyData by {
      assert Upto(s0, schedule, 3) == Do(Upto(s0, schedule, 2), schedule[2]);
    }
    assert Upto(s0, schedule, 5) == Do(Upto(s0, schedule, 4), schedule[4]);
    assert RowKey(a, "cus_2") != RowKey(a, "cus_3") by {
      assert RowKey(a, "cus_2")[|a| + 5] != RowKey(a, "cus_3")[|a| + 5];
    }
  }
}
