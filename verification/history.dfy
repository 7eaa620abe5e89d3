/** Executions: all states that a sequence of events passes through. */
module History {
  import opened Cluster
  import opened Safety

  /** The states an execution passes through, from the empty cluster on; any event may come at any time. */
  predicate Execution(now: nat, evs: seq<Event>, states: seq<State>) {
    && |states| == |evs| + 1 && states[0] == Init(now)
    && forall i {:trigger evs[i]} | 0 <= i < |evs| :: states[i + 1] == Step(states[i], evs[i])
  }

  lemma {:induction false} StateIsRun(now: nat, evs: seq<Event>, states: seq<State>, k: nat)
    requires Execution(now, evs, states) && k < |states|
    ensures states[k] == Run(Init(now), evs[..k])
  {
    hide Step;
    if k > 0 {
      StateIsRun(now, evs, states, k - 1);
      assert evs[..k][..k - 1] == evs[..k - 1];
      assert states[k - 1 + 1] == Step(states[k - 1], evs[k - 1]);
    }
  }

  lemma InvAt(now: nat, evs: seq<Event>, states: seq<State>, k: nat)
    requires Execution(now, evs, states) && k < |states|
    ensures Inv(states[k])
  {
    hide Step, Run, Init, Inv;
    StateIsRun(now, evs, states, k);
    RunOk(now, evs[..k]);
  }

  lemma ExecutionGoesOn(now: nat, evs: seq<Event>, states: seq<State>, ev: Event)
    requires Execution(now, evs, states)
    ensures Execution(now, evs + [ev], states + [Step(states[|evs|], ev)])
  {
    hide Step, Init;
    var evs', states' := evs + [ev], states + [Step(states[|evs|], ev)];
    forall i {:trigger evs'[i]} | 0 <= i < |evs'| ensures states'[i + 1] == Step(states'[i], evs'[i]) {
      if i < |evs| { assert evs[i] == evs'[i]; }
    }
  }
}
