// Pacing, flood waits and leases of the outbound queue, over whole runs.
module OutboundPacing {
  import opened Basics
  import opened OutboundQueue
  import opened OutboundRuns

  // What an attempt demands of the account it was made on.
  predicate Held(t: Attempt, a: Account) {
    && (t.paced ==> a.nextAvailableAt.Some? && a.nextAvailableAt.value >= t.endedAt + a.sendInterval)
    && (t.flooded.Some? ==> a.floodWaitUntil.Some? && a.floodWaitUntil.value >= t.flooded.value)
  }

  // What an attempt demands of a later one on the same account.
  predicate Spaced(t: Attempt, u: Attempt, interval: nat) {
    && (t.paced ==> u.at >= t.endedAt + interval)
    && (t.flooded.Some? ==> u.at >= t.flooded.value)
  }

  ghost predicate AttemptsHeld(w: World) {
    forall t <- w.attempts ::
      t.account in w.accounts && t.endedAt <= w.clock && Held(t, w.accounts[t.account])
  }

  ghost predicate AttemptsSpaced(w: World) {
    forall i, k :: 0 <= i < k < |w.attempts| && w.attempts[i].account == w.attempts[k].account &&
                   w.attempts[i].account in w.accounts ==>
      Spaced(w.attempts[i], w.attempts[k], w.accounts[w.attempts[i].account].sendInterval)
  }

  ghost predicate Paced(w: World) {
    AttemptsHeld(w) && AttemptsSpaced(w)
  }

  // An attempt starts only on a ready account, and leaves it at least as held as before.
  lemma AttemptFollows(a: Account, a': Account, t: Attempt, u: Attempt)
    requires Held(t, a) && !AccountNotReady(a, u.at)
    ensures Spaced(t, u, a.sendInterval)
  {
  }

  lemma HeldStays(id: JobId, j: Job, a: Account, seen: set<RandomId>, s: Script, t: Attempt)
    requires s.checkedAt <= s.startedAt <= s.endedAt && Held(t, a) && t.endedAt <= s.checkedAt
    ensures Held(t, Handle(id, j, a, seen, s).account)
  {
    HandledFacts(id, j, a, seen, s);
    if Handle(id, j, a, seen, s).attempt.Some? {
      TimingFacts(id, j, a, seen, s);
    }
    hide Handle;
  }

  lemma ProcessKeepsPaced(w: World, id: JobId, s: Script)
    requires Paced(w) && id in w.jobs && w.jobs[id].account in w.accounts
    requires w.clock <= s.checkedAt <= s.startedAt <= s.endedAt
    ensures var j := w.jobs[id];
            Paced(AfterHandling(w, id, Handle(id, j, w.accounts[j.account], w.seen, s), s.endedAt))
  {
    var j := w.jobs[id];
    var a := w.accounts[j.account];
    var h := Handle(id, j, a, w.seen, s);
    var w' := AfterHandling(w, id, h, s.endedAt);
    HandledFacts(id, j, a, w.seen, s);
    if h.attempt.Some? {
      TimingFacts(id, j, a, w.seen, s);
    }
    forall t | t in w.attempts && t.account == j.account ensures Held(t, h.account) {
      HeldStays(id, j, a, w.seen, s, t);
    }
    hide Handle;
    if h.attempt.Some? {
      var u := h.attempt.value;
      assert Held(u, h.account);
      hide Held;
      assert AttemptsHeld(w');
      NewAttemptSpaced(w, a, u, w');
    } else {
      hide Held, Spaced;
      assert w'.attempts == w.attempts;
    }
  }

  lemma NewAttemptSpaced(w: World, a: Account, u: Attempt, w': World)
    requires Paced(w) && u.account in w.accounts && a == w.accounts[u.account] && !AccountNotReady(a, u.at)
    requires w'.attempts == w.attempts + [u] && w'.accounts.Keys == w.accounts.Keys
    requires forall k <- w.accounts :: w'.accounts[k].sendInterval == w.accounts[k].sendInterval
    ensures AttemptsSpaced(w')
  {
    var n := |w.attempts|;
    forall i | 0 <= i < n && w.attempts[i].account == u.account
      ensures Spaced(w.attempts[i], u, a.sendInterval)
    {
      assert w.attempts[i] in w.attempts;
      AttemptFollows(a, a, w.attempts[i], u);
    }
    hide Held, Spaced, AccountNotReady;
    assert forall i :: 0 <= i < n ==> w'.attempts[i] == w.attempts[i];
  }

  lemma StepKeepsPaced(w: World, e: Event)
    requires Paced(w)
    ensures Paced(Step(w, e))
  {
    if Enabled(w, e) && e.Process? {
      ProcessKeepsPaced(w, e.id, e.script);
    } else {
      hide Held, Spaced, LeaseAll, EarliestReady;
    }
  }

  lemma {:induction false} EveryRunIsPaced(accounts: map<AccountId, Account>, evs: seq<Event>)
    ensures Paced(Play(accounts, evs))
  {
    if evs != [] {
      hide Paced, Step;
      EveryRunIsPaced(accounts, evs[..|evs| - 1]);
      StepKeepsPaced(Play(accounts, evs[..|evs| - 1]), evs[|evs| - 1]);
    }
  }

  // The accounts of a run keep the interval they started with.
  lemma {:induction false} IntervalsStay(accounts: map<AccountId, Account>, evs: seq<Event>)
    ensures var w := Play(accounts, evs);
            w.accounts.Keys == accounts.Keys &&
            forall k <- accounts :: w.accounts[k].sendInterval == accounts[k].sendInterval
  {
    if evs != [] {
      var before, e := evs[..|evs| - 1], evs[|evs| - 1];
      IntervalsStay(accounts, before);
      var w := Play(accounts, before);
      if Enabled(w, e) && e.Process? {
        HandledFacts(e.id, w.jobs[e.id], w.accounts[w.jobs[e.id].account], w.seen, e.script);
        hide Handle;
      }
    }
  }

  // After a recorded send, no attempt on that account starts before the send interval is over;
  // after a flood wait, none starts before the wait is over.
  lemma SendsArePaced(accounts: map<AccountId, Account>, evs: seq<Event>, i: nat, k: nat)
    requires var ts := Play(accounts, evs).attempts; i < k < |ts| && ts[i].account == ts[k].account
    ensures var ts := Play(accounts, evs).attempts;
            && ts[i].account in accounts
            && (ts[i].paced ==> ts[k].at >= ts[i].endedAt + accounts[ts[i].account].sendInterval)
            && (ts[i].flooded.Some? ==> ts[k].at >= ts[i].flooded.value)
  {
    EveryRunIsPaced(accounts, evs);
    IntervalsStay(accounts, evs);
    hide Play;
    var w := Play(accounts, evs);
    assert w.attempts[i] in w.attempts;
    assert Spaced(w.attempts[i], w.attempts[k], w.accounts[w.attempts[i].account].sendInterval);
  }

  predicate NotEarlier(a: Option<int>, b: Option<int>) {
    a.Some? ==> b.Some? && a.value <= b.value
  }

  // flood_wait_until and next_available_at never move back.
  lemma TimingNeverMovesBack(w: World, e: Event, k: AccountId)
    requires k in w.accounts
    ensures k in Step(w, e).accounts
    ensures NotEarlier(w.accounts[k].floodWaitUntil, Step(w, e).accounts[k].floodWaitUntil)
    ensures NotEarlier(w.accounts[k].nextAvailableAt, Step(w, e).accounts[k].nextAvailableAt)
  {
    if Enabled(w, e) && e.Process? {
      var j := w.jobs[e.id];
      HandledFacts(e.id, j, w.accounts[j.account], w.seen, e.script);
      if Handle(e.id, j, w.accounts[j.account], w.seen, e.script).attempt.Some? {
        TimingFacts(e.id, j, w.accounts[j.account], w.seen, e.script);
      }
      hide Handle;
    }
  }
}
