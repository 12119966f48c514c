/** How often the provider takes on a message, compared with the successes that are logged. */
module ProviderCalls {
  import opened Domain
  import opened NotificationEntity
  import opened DeliveryProtocol
  import opened DeliverySafety
  import opened DeliveryWitnesses

  /** How often the provider has taken on the message. */
  function Acceptances(steps: seq<Step>): nat {
    if steps == [] then 0 else
    Acceptances(steps[..|steps| - 1]) + if steps[|steps| - 1].ProviderAccepts? then 1 else 0
  }

  /** The workers in a call that the provider has already taken on. */
  function AcceptedCalls(w: World): set<nat> {
    set k | k in w.phases && w.phases[k].Calling? && w.phases[k].accepted
  }

  /** The worker never gets to record that its message was taken on: it crashes, or what it
      gets for an answer says otherwise. */
  predicate Loses(w: World, s: Step) {
    (s.Crash? || (s.FinishSend? && !s.result.Accepted?)) && s.worker in AcceptedCalls(w)
  }

  /** How many of the first `i` steps lose an acceptance. */
  function Lost(states: seq<World>, steps: seq<Step>, i: nat): nat
    requires i <= |steps| < |states|
  {
    if i == 0 then 0 else Lost(states, steps, i - 1) + if Loses(states[i - 1], steps[i - 1]) then 1 else 0
  }

  lemma CallsChangeOneByOne(w: World, s: Step)
    requires Next(w, s).Some?
    ensures AcceptedCalls(Next(w, s).value)
            == (if s.ProviderAccepts? then AcceptedCalls(w) + {s.worker}
                else if s.Crash? || s.FinishSend? then AcceptedCalls(w) - {s.worker}
                else AcceptedCalls(w))
    ensures s.ProviderAccepts? ==> s.worker !in AcceptedCalls(w)
    ensures s.FinishSend? && s.result.Accepted? ==> s.worker in AcceptedCalls(w)
  {
    var v := Next(w, s).value;
    forall k: nat | s.Tick? || s.Cancel? || k != s.worker
      ensures k in AcceptedCalls(v) <==> k in AcceptedCalls(w)
    {
      assert PhaseOf(v, k) == PhaseOf(w, k);
    }
  }

  lemma SuccessesStep(w: World, s: Step)
    requires Next(w, s).Some?
    ensures Successes(Next(w, s).value.attempts)
            == Successes(w.attempts) + if s.FinishSend? && s.result.Accepted? then 1 else 0
  {
    var v := Next(w, s).value;
    if s.FinishSend? || s.FailWithoutAddress? {
      LoggedStep(w, s);
      SuccessesAppend(w.attempts, v.attempts[|w.attempts|]);
    } else {
      assert v.attempts == w.attempts;
    }
  }

  /** In every execution, without any assumption, each acceptance by the provider is logged
      as a success, was lost, or is still under way. */
  lemma {:induction false} EveryAcceptanceIsAccountedFor(states: seq<World>, steps: seq<Step>, i: nat)
    requires Execution(states, steps) && i < |states|
    ensures Acceptances(steps[..i])
            == Successes(states[i].attempts) + Lost(states, steps, i) + |AcceptedCalls(states[i])|
  {
    if i == 0 {
      assert AcceptedCalls(states[0]) == {};
    } else {
      EveryAcceptanceIsAccountedFor(states, steps, i - 1);
      var w, s := states[i - 1], steps[i - 1];
      assert Next(w, s) == Some(states[i]);
      CallsChangeOneByOne(w, s);
      SuccessesStep(w, s);
      assert steps[..i][..i - 1] == steps[..i - 1];
    }
  }

  /** With leases kept, the provider takes on the message at most once more than acceptances
      are lost, and exactly once more once the row is DELIVERED: without a crash or a wrong
      answer after an acceptance, once and no more. */
  lemma AcceptedOnceUnlessLost(states: seq<World>, steps: seq<Step>, i: nat)
    requires Execution(states, steps) && i < |states|
    requires RejectionsFresh(states, steps, i) && LeasesKept(states, i)
    ensures Acceptances(steps[..i]) <= 1 + Lost(states, steps, i)
    ensures states[i].row.status.Delivered? ==> Acceptances(steps[..i]) == 1 + Lost(states, steps, i)
  {
    SafeUpTo(states, steps, i);
    EveryAcceptanceIsAccountedFor(states, steps, i);
    var w := states[i];
    forall k | k in AcceptedCalls(w) ensures Holder(w, k) && w.row.status.Processing? {
      assert Holder(w, k);
    }
    if k :| k in AcceptedCalls(w) {
      assert AcceptedCalls(w) == {k};
    }
  }

  // ---- Losing an acceptance ----

  lemma {:induction false} AcceptancesAdd(a: seq<Step>, b: seq<Step>)
    ensures Acceptances(a + b) == Acceptances(a) + Acceptances(b)
    decreases |b|
  {
    if b == [] {
      assert a + b == a;
    } else {
      var front := b[..|b| - 1];
      assert (a + b)[..|a + b| - 1] == a + front;
      AcceptancesAdd(a, front);
    }
  }

  lemma {:induction false} NoAcceptances(steps: seq<Step>)
    requires forall s :: s in steps ==> !s.ProviderAccepts?
    ensures Acceptances(steps) == 0
  {
    if steps == [] {
    } else {
      NoAcceptances(steps[..|steps| - 1]);
    }
  }

  /** The steps of a worker whose message is taken on, that crashes, and whose lease runs out. */
  function AbandonedCall(wait: Step, lease: nat): seq<Step> {
    [wait] + PickUp(0) + [ProviderAccepts(0)] + [Crash(0), Tick(lease)]
  }

  lemma AbandonedCallIsAcceptedOnce(wait: Step, lease: nat)
    requires wait.Tick?
    ensures Acceptances(AbandonedCall(wait, lease)) == 1
    ensures forall j :: 1 <= j < 7 ==> !AbandonedCall(wait, lease)[j].Tick?
    ensures forall s :: s in AbandonedCall(wait, lease) ==> !s.Reject?
  {
    NoAcceptances([wait] + PickUp(0));
    NoAcceptances([Crash(0), Tick(lease)]);
    assert [ProviderAccepts(0)][..0] == [];
    AcceptancesAdd([wait] + PickUp(0), [ProviderAccepts(0)]);
    AcceptancesAdd([wait] + PickUp(0) + [ProviderAccepts(0)], [Crash(0), Tick(lease)]);
  }

  /** A call that the provider takes on and that then crashes; once the lease has run out
      another worker can take up the row. */
  lemma CrashAfterAcceptance(states: seq<World>, steps: seq<Step>) returns (states': seq<World>, steps': seq<Step>)
    requires Execution(states, steps)
    requires var w := states[|steps|];
             && InCall(w, 0) && w.row.Valid() && w.row.status.Processing? && w.row.updatedAt == w.now && w.lease > 0
             && (w.row.sendAt.Some? ==> w.row.sendAt.value <= w.now)
             && forall k: nat :: k != 0 ==> PhaseOf(w, k).Idle?
    ensures Execution(states', steps') && states <= states'
    ensures steps' == steps + ([ProviderAccepts(0)] + [Crash(0), Tick(states[|steps|].lease)])
    ensures var w, v := states[|steps|], states'[|steps'|];
            NobodyAtWork(v) && Available(v, 1) && (v.attempts, v.lease) == (w.attempts, w.lease)
  {
    var w := states[|steps|];
    states', steps' := Extend(states, steps, ProviderAccepts(0));
    states', steps' := Extend(states', steps', Crash(0));
    states', steps' := Extend(states', steps', Tick(w.lease));
    forall k: nat ensures PhaseOf(states'[|steps'|], k).Idle? {
      assert k != 0 ==> PhaseOf(w, k).Idle?;
    }
  }

  lemma CrashInCall(w: World) returns (states: seq<World>, steps: seq<Step>)
    requires Initial(w) && w.lease > 0
    ensures Execution(states, steps) && |steps| == 8 && states[0] == w
    ensures steps[0].Tick? && steps == AbandonedCall(steps[0], w.lease)
    ensures states[1].lease == states[8].lease == w.lease && NobodyAtWork(states[1]) && NobodyAtWork(states[8])
    ensures Available(states[8], 1) && Successes(states[8].attempts) == 0
  {
    states, steps := WaitUntilDue(w);
    assert Available(states[1], 0);
    states, steps := StartSending(states, steps, 0);
    states, steps := CrashAfterAcceptance(states, steps);
  }

  /** A lost acceptance does lead to a second one: for any fresh row and any positive lease
      there is a run that keeps every lease, without a policy rejection and with a single
      logged success, in which the provider takes on the message twice. */
  lemma CrashIsAcceptedTwice(w: World) returns (states: seq<World>, steps: seq<Step>)
    requires Initial(w) && w.lease > 0
    ensures Execution(states, steps) && states[0] == w
    ensures LeasesKept(states, |steps|) && RejectionsFresh(states, steps, |steps|)
    ensures Successes(states[|steps|].attempts) == 1 && Acceptances(steps) == 2
  {
    states, steps := CrashInCall(w);
    var before := steps;
    AbandonedCallIsAcceptedOnce(steps[0], w.lease);
    var delivery := PickUp(1) + [ProviderAccepts(1), FinishSend(1, Accepted)];
    states, steps := Deliver(states, steps, 1);
    assert forall s :: s in delivery ==> !s.Tick? && !s.Reject?;
    forall i: nat | i < |states| ensures !Overrun(states[i]) {
      forall j | 8 <= j < |steps| ensures !steps[j].Tick? {
        assert steps[j] == delivery[j - 8] && delivery[j - 8] in delivery;
      }
      if 1 <= i < 8 {
        InstantsKeepLeases(states, steps, 1, i);
      } else if i >= 8 {
        InstantsKeepLeases(states, steps, 8, i);
      }
    }
    forall j | 0 <= j < |steps| ensures !steps[j].Reject? {
      assert steps[j] in before + delivery;
    }
    DeliveryIsAcceptedOnce(1);
    AcceptancesAdd(before, delivery);
  }

  lemma DeliveryIsAcceptedOnce(k: nat)
    ensures Acceptances(PickUp(k) + [ProviderAccepts(k), FinishSend(k, Accepted)]) == 1
  {
    NoAcceptances(PickUp(k));
    NoAcceptances([FinishSend(k, Accepted)]);
    assert [ProviderAccepts(k), FinishSend(k, Accepted)] == [ProviderAccepts(k)] + [FinishSend(k, Accepted)];
    AcceptancesAdd([ProviderAccepts(k)], [FinishSend(k, Accepted)]);
    assert [ProviderAccepts(k)][..0] == [];
    AcceptancesAdd(PickUp(k), [ProviderAccepts(k), FinishSend(k, Accepted)]);
  }
}
