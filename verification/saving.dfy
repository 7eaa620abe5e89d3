/** What saving the detected instances does to the store: a merge in which the last entry of a name wins. */
module Saving {
  import opened Naming
  import opened Cluster
  import opened Effects

  /** Create refuses an object that exists; an empty desired phase passes for a missing object. */
  predicate Refused(s: State, d: Draft) { d.name in s.insts && s.insts[d.name].desired == "" }

  function SaveOne(s: State, d: Draft): State {
    if Refused(s, d) then s
    else if d.name in s.insts then SpecUpdate(s, d.name, Merged(s.insts[d.name], d), Done)
    else CreateInstance(s, d)
  }

  function Saved(s: State, drafts: seq<Draft>): State {
    if drafts == [] then s else SaveOne(Saved(s, drafts[..|drafts| - 1]), drafts[|drafts| - 1])
  }

  function Names(drafts: seq<Draft>): set<string> { set d | d in drafts :: d.name }

  function First(drafts: seq<Draft>, n: string): Draft
    requires n in Names(drafts)
  {
    if drafts[0].name == n then drafts[0] else First(drafts[1..], n)
  }

  function Last(drafts: seq<Draft>, n: string): Draft
    requires n in Names(drafts)
  {
    var d := drafts[|drafts| - 1];
    if d.name == n then d else Last(drafts[..|drafts| - 1], n)
  }

  /** The operator never stores an instance without a desired phase, nor a deleted one without a finalizer. */
  predicate Sound(i: Instance) { i.desired != "" && (i.deleting ==> i.finalizer) }

  predicate AllSound(s: State) { forall n | n in s.insts :: Sound(s.insts[n]) }

  predicate SameMetadata(a: Instance, b: Instance) {
    a.labels == b.labels && a.finalizer == b.finalizer && a.deleting == b.deleting
  }

  predicate SameStatus(a: Instance, b: Instance) { a.phase == b.phase && a.built == b.built && a.url == b.url }

  /** `i` is what instance `n` has become. */
  predicate MergedAs(s: State, drafts: seq<Draft>, n: string, i: Instance) {
    && (n !in Names(drafts) ==> n in s.insts && i == s.insts[n])
    && (n in Names(drafts) ==> i.git == Last(drafts, n).git && i.desired == "running")
    && (n in s.insts ==> SameMetadata(i, s.insts[n]) && SameStatus(i, s.insts[n]))
    && (n !in s.insts ==>
         && n in Names(drafts) && i.labels == First(drafts, n).labels && !i.finalizer && !i.deleting
         && i.phase == NoPhase && i.built == [] && i.url == "")
  }

  predicate Merge(s: State, drafts: seq<Draft>, s': State) {
    && s'.insts.Keys == s.insts.Keys + Names(drafts)
    && forall n | n in s'.insts :: MergedAs(s, drafts, n, s'.insts[n]) && Sound(s'.insts[n])
  }

  lemma {:induction false} FirstOfFront(front: seq<Draft>, d: Draft, n: string)
    ensures Names(front + [d]) == Names(front) + {d.name}
    ensures n in Names(front) ==> First(front + [d], n) == First(front, n)
    ensures n !in Names(front) && n == d.name ==> First(front + [d], n) == d
    decreases |front|
  {
    var all := front + [d];
    if front == [] {
      assert all == [d];
    } else {
      assert all[1..] == front[1..] + [d];
      assert front == [front[0]] + front[1..];
      FirstOfFront(front[1..], d, n);
    }
  }

  /** What saving one entry changes. */
  predicate OneSaved(t: State, d: Draft, t': State) {
    && t'.insts.Keys == t.insts.Keys + {d.name}
    && (forall n | n in t.insts && n != d.name :: t'.insts[n] == t.insts[n])
    && var i := t'.insts[d.name];
       && i.git == d.git && i.desired == "running"
       && (d.name in t.insts ==> SameMetadata(i, t.insts[d.name]) && SameStatus(i, t.insts[d.name]))
       && (d.name !in t.insts ==> i == Instance(d.labels, false, false, t.next, d.git, "running", NoPhase, [], ""))
  }

  lemma SaveOneIs(s: State, d: Draft)
    requires AllSound(s)
    ensures OneSaved(s, d, SaveOne(s, d))
  {
    if d.name in s.insts {
      assert Sound(s.insts[d.name]);
      SpecCases(s, d.name, Merged(s.insts[d.name], d), Done);
      hide SpecUpdate;
    }
  }

  lemma MergeGrows(s: State, front: seq<Draft>, t: State, d: Draft, t': State, n: string)
    requires Merge(s, front, t) && OneSaved(t, d, t') && n in t'.insts
    ensures MergedAs(s, front + [d], n, t'.insts[n]) && Sound(t'.insts[n])
  {
    hide Names;
    FirstOfFront(front, d, n);
    if n in t.insts { assert MergedAs(s, front, n, t.insts[n]) && Sound(t.insts[n]); }
    hide Merge, First;
    assert (front + [d])[..|front|] == front;
  }

  /** The save loop, when every call succeeds, is a merge: the keys are the old names and the detected ones; the
      spec of a detected name comes from the last entry with that name; metadata and status of an old instance
      stay; the metadata of a new one comes from the first entry with its name. */
  lemma {:induction false} SaveIsMerge(s: State, drafts: seq<Draft>)
    requires AllSound(s)
    ensures Merge(s, drafts, Saved(s, drafts))
  {
    hide MergedAs, SaveOne, OneSaved;
    if drafts == [] {
      forall n | n in s.insts ensures MergedAs(s, [], n, s.insts[n]) { NothingMerged(s, n); }
    } else {
      var front, d := drafts[..|drafts| - 1], drafts[|drafts| - 1];
      assert drafts == front + [d];
      SaveIsMerge(s, front);
      var t, t' := Saved(s, front), Saved(s, drafts);
      SaveOneIs(t, d);
      forall n | n in t'.insts ensures MergedAs(s, drafts, n, t'.insts[n]) && Sound(t'.insts[n]) {
        MergeGrows(s, front, t, d, t', n);
      }
      FirstOfFront(front, d, d.name);
      SavedKeys(t, d, t');
    }
  }

  lemma SavedKeys(t: State, d: Draft, t': State)
    requires OneSaved(t, d, t')
    ensures t'.insts.Keys == t.insts.Keys + {d.name}
  {
  }

  lemma NothingMerged(s: State, n: string)
    requires n in s.insts
    ensures MergedAs(s, [], n, s.insts[n])
  {
  }

  /** Saving the same entries once more changes no spec, no metadata and no status. */
  lemma SavingTwiceChangesNothing(s: State, drafts: seq<Draft>, n: string)
    requires AllSound(s) && n in Saved(s, drafts).insts
    ensures var once := Saved(s, drafts); var twice := Saved(once, drafts);
            && twice.insts.Keys == once.insts.Keys
            && twice.insts[n] == once.insts[n].(version := twice.insts[n].version)
  {
    SaveIsMerge(s, drafts);
    var once := Saved(s, drafts);
    SaveIsMerge(once, drafts);
    assert MergedAs(s, drafts, n, once.insts[n]);
    hide Saved;
  }

  lemma SavingKeepsKeys(s: State, drafts: seq<Draft>)
    requires AllSound(s)
    ensures Saved(Saved(s, drafts), drafts).insts.Keys == Saved(s, drafts).insts.Keys
  {
    hide Saved;
    SaveIsMerge(s, drafts);
    SaveIsMerge(Saved(s, drafts), drafts);
  }

  lemma SaveOneElsewhere(s: State, d: Draft, n: string)
    ensures n in SaveOne(s, d).insts && SaveOne(s, d).insts[n].desired == "" ==> n in s.insts && s.insts[n].desired == ""
    ensures n in s.insts && n != d.name ==> n in SaveOne(s, d).insts && SaveOne(s, d).insts[n] == s.insts[n]
  {
    if !Refused(s, d) && d.name in s.insts {
      var mem := Merged(s.insts[d.name], d);
      SpecCases(s, d.name, mem, Done);
      DropInstances(s, d.name, n);
      PutInstances(s, d.name, WithSpec(s.insts[d.name], mem, s.next), n);
      hide SpecUpdate, DropInstance, PutInstance;
    }
  }

  lemma {:induction false} SavedElsewhere(s: State, drafts: seq<Draft>, n: string)
    ensures n in Saved(s, drafts).insts && Saved(s, drafts).insts[n].desired == "" ==> n in s.insts && s.insts[n].desired == ""
    ensures n in s.insts && n !in Names(drafts) ==> n in Saved(s, drafts).insts && Saved(s, drafts).insts[n] == s.insts[n]
  {
    hide SaveOne;
    if drafts != [] {
      var front, d := drafts[..|drafts| - 1], drafts[|drafts| - 1];
      assert Names(front) <= Names(drafts) && d.name in Names(drafts);
      SavedElsewhere(s, front, n);
      SaveOneElsewhere(Saved(s, front), d, n);
    }
  }

  lemma FirstBlocked(s: State, drafts: seq<Draft>, i: nat) returns (j: nat)
    requires i < |drafts| && Refused(s, drafts[i])
    ensures j < |drafts| && Refused(s, drafts[j]) && drafts[j].name !in Names(drafts[..j])
  {
    j := 0;
    while !Refused(s, drafts[j])
      invariant j <= i && forall k | 0 <= k < j :: !Refused(s, drafts[k])
      decreases i - j
    {
      j := j + 1;
    }
  }

  /** The save loop, alone and with every call answered, gets through to its end if and only if no instance it
      meets was stored without a desired phase; so the emptiness test stands for existence exactly then. */
  lemma NothingRefusedIff(s: State, drafts: seq<Draft>)
    ensures (forall i | 0 <= i < |drafts| :: !Refused(Saved(s, drafts[..i]), drafts[i])) <==>
            (forall d | d in drafts :: !Refused(s, d))
  {
    hide Saved;
    forall i | 0 <= i < |drafts| && Refused(Saved(s, drafts[..i]), drafts[i]) ensures Refused(s, drafts[i]) {
      SavedElsewhere(s, drafts[..i], drafts[i].name);
    }
    if i :| 0 <= i < |drafts| && Refused(s, drafts[i]) {
      var j := FirstBlocked(s, drafts, i);
      SavedElsewhere(s, drafts[..j], drafts[j].name);
      assert Refused(Saved(s, drafts[..j]), drafts[j]);
    }
  }
}
