/** What the environment reconciler stores is what the webhook looks for: the labels it writes
    (internal/controller/previewenvironment_controller.go) are those of the lookup
    (internal/kubeclient/previewenvironmentinstance.go). */
module Lookup {
  import opened Text
  import opened Naming
  import opened Cluster
  import opened ApiServer
  import opened Saving
  import opened EnvironmentReconciler
  import opened Webhook

  // ---------------------------------------------------------------- which entry of a name counts

  lemma {:induction false} FirstPosition(drafts: seq<Draft>, n: string) returns (i: nat)
    requires n in Names(drafts)
    ensures i < |drafts| && drafts[i] == First(drafts, n) && drafts[i].name == n
    ensures forall j | 0 <= j < i :: drafts[j].name != n
  {
    if drafts[0].name == n {
      i := 0;
    } else {
      var rest := drafts[1..];
      assert drafts == [drafts[0]] + rest;
      var k := FirstPosition(rest, n);
      i := k + 1;
    }
  }

  lemma {:induction false} LastPosition(drafts: seq<Draft>, n: string) returns (i: nat)
    requires n in Names(drafts)
    ensures i < |drafts| && drafts[i] == Last(drafts, n) && drafts[i].name == n
    ensures forall j | i < j < |drafts| :: drafts[j].name != n
  {
    if drafts[|drafts| - 1].name == n {
      i := |drafts| - 1;
    } else {
      var front := drafts[..|drafts| - 1];
      assert drafts == front + [drafts[|drafts| - 1]];
      i := LastPosition(front, n);
    }
  }

  // ---------------------------------------------------------------- instances of pull requests

  /** The names of two pull requests of one environment are the same exactly when the numbers are. */
  lemma NumbersByName(spec: Spec, a: PrNumber, b: PrNumber)
    ensures PullRequestName(spec, a) == PullRequestName(spec, b) <==> a == b
  {
    NumberRecovered(spec, a, PullRequestName(spec, a));
    NumberRecovered(spec, b, PullRequestName(spec, b));
  }

  /** One of the branches gets the name. */
  predicate TakenByBranch(pe: Environment, branches: seq<string>, n: string) {
    exists j :: 0 <= j < BranchesWanted(pe, branches) && BranchName(pe.spec, branches[j]) == n
  }

  /** A listed pull request has an instance from then on, under its name. If it had none before, the instance carries
      the owner and the id of the environment and the three labels that the webhook looks for. It starts without a
      hash, and it is about the pull request, on the head of its last entry in the list, if and only if no detected
      branch gets the same name. */
  lemma PullIsStored(s: State, s': State, pe: Environment, pulls: seq<PullRequest>, branches: seq<string>, drafts: seq<Draft>, p: PullRequest)
    returns (n: string)
    requires Detects(pe, pulls, branches, drafts) && Merge(s, drafts, s') && p in pulls
    ensures n == PullRequestName(pe.spec, p.number) && n in s'.insts
    ensures n !in s.insts ==>
              var l := s'.insts[n].labels;
              && l.owner == pe.spec.owner && l.environment == pe.uid
              && l.organization == pe.spec.organization && l.repository == pe.spec.repository && l.identifier == Itoa(p.number)
    ensures var git := s'.insts[n].git;
            && git.commitHash == "" && (git.pullRequestNumber == Some(p.number) <==> !TakenByBranch(pe, branches, n))
            && (!TakenByBranch(pe, branches, n) ==> HeadOfLast(pulls, p.number, git.branch))
  {
    n := PullRequestName(pe.spec, p.number);
    var k :| 0 <= k < |pulls| && pulls[k] == p;
    assert DraftOfPull(pe, pulls[k], drafts[k]);
    assert drafts[k] in drafts && n in Names(drafts);
    assert n in s'.insts && MergedAs(s, drafts, n, s'.insts[n]);
    var i := FirstPosition(drafts, n);
    FirstIsPull(pe, pulls, branches, drafts, p.number, i, k);
    var j := LastPosition(drafts, n);
    LastIsPullIff(pe, pulls, branches, drafts, p.number, j, k);
    hide Detects, Merge, First, Last, HeadOfLast, TakenByBranch;
  }

  lemma FirstIsPull(pe: Environment, pulls: seq<PullRequest>, branches: seq<string>, drafts: seq<Draft>, number: PrNumber, i: nat, k: nat)
    requires Detects(pe, pulls, branches, drafts) && i < |drafts| && drafts[i].name == PullRequestName(pe.spec, number)
    requires k < |pulls| && drafts[k].name == drafts[i].name && forall j | 0 <= j < i :: drafts[j].name != drafts[i].name
    ensures i < |pulls| && pulls[i].number == number && LabelledFor(pe, drafts[i].labels, Itoa(number))
  {
    assert i <= k;
    assert DraftOfPull(pe, pulls[i], drafts[i]);
    NumbersByName(pe.spec, pulls[i].number, number);
    hide InstanceName, Detects;
  }

  /** The head branch of the last entry in the list with the number. */
  predicate HeadOfLast(pulls: seq<PullRequest>, number: PrNumber, head: string) {
    exists j :: 0 <= j < |pulls| && LastWith(pulls, number, j) && pulls[j].headRef == head
  }

  predicate LastWith(pulls: seq<PullRequest>, number: PrNumber, j: nat)
    requires j < |pulls|
  {
    pulls[j].number == number && forall l | j < l < |pulls| :: pulls[l].number != number
  }

  lemma LastIsPullIff(pe: Environment, pulls: seq<PullRequest>, branches: seq<string>, drafts: seq<Draft>, number: PrNumber, j: nat, k: nat)
    requires Detects(pe, pulls, branches, drafts) && j < |drafts| && drafts[j].name == PullRequestName(pe.spec, number)
    requires k < |pulls| && drafts[k].name == drafts[j].name && forall l | j < l < |drafts| :: drafts[l].name != drafts[j].name
    ensures var n := drafts[j].name; var git := drafts[j].git;
            && git.commitHash == "" && (git.pullRequestNumber == Some(number) <==> !TakenByBranch(pe, branches, n))
            && (!TakenByBranch(pe, branches, n) ==> HeadOfLast(pulls, number, git.branch))
  {
    var n := drafts[j].name;
    if j < |pulls| {
      assert DraftOfPull(pe, pulls[j], drafts[j]);
      NumbersByName(pe.spec, pulls[j].number, number);
      forall b | 0 <= b < BranchesWanted(pe, branches) ensures BranchName(pe.spec, branches[b]) != n {
        assert DraftOfBranch(pe, branches[b], drafts[|pulls| + b]);
      }
      forall l | j < l < |pulls| ensures pulls[l].number != number { assert DraftOfPull(pe, pulls[l], drafts[l]); }
      assert LastWith(pulls, number, j);
    } else {
      var b := j - |pulls|;
      assert DraftOfBranch(pe, branches[b], drafts[|pulls| + b]);
      assert BranchName(pe.spec, branches[b]) == n;
    }
  }

  /** So the webhook finds it: after saving what was detected, every listed pull request that had no instance has one. */
  lemma PullIsKnown(s: State, s': State, script: seq<Turn>, pe: Environment, p: PullRequest)
    requires |script| >= ListCalls(pe) && p in script[0].io.pulls && Merge(s, DetectedBy(script, pe), s')
    ensures PullRequestName(pe.spec, p.number) !in s.insts ==>
              !Unknown(s', pe.spec.organization, pe.spec.repository, p.number)
  {
    DetectedByFields(script, pe);
    var branches := Named(script[ListCalls(pe) - 1].io.branches);
    var n := PullIsStored(s, s', pe, script[0].io.pulls, branches, DetectedBy(script, pe), p);
    if n !in s.insts {
      assert Labelled(s'.insts[n], pe.spec.organization, pe.spec.repository, Itoa(p.number));
    }
  }

  /** Being found is kept by saving. */
  lemma KnownStays(s: State, s': State, drafts: seq<Draft>, organization: string, repository: string, number: PrNumber)
    requires Merge(s, drafts, s') && !Unknown(s, organization, repository, number)
    ensures !Unknown(s', organization, repository, number)
  {
    var n :| n in s.insts && Labelled(s.insts[n], organization, repository, Itoa(number));
    assert n in s'.insts && MergedAs(s, drafts, n, s'.insts[n]);
    assert Labelled(s'.insts[n], organization, repository, Itoa(number));
  }

  // ---------------------------------------------------------------- instances of branches

  /** A branch that is wanted has an instance from then on, without a pull request and without a hash, on the last
      branch that gets the name. If neither a pull request nor another branch gets it, that is the branch itself, and
      a new instance carries it as its label. */
  lemma BranchIsStored(s: State, s': State, pe: Environment, pulls: seq<PullRequest>, branches: seq<string>, drafts: seq<Draft>, b: nat)
    returns (n: string)
    requires Detects(pe, pulls, branches, drafts) && Merge(s, drafts, s') && b < BranchesWanted(pe, branches)
    ensures n == BranchName(pe.spec, branches[b]) && n in s'.insts
    ensures var git := s'.insts[n].git;
            && git.pullRequestNumber == None && git.commitHash == "" && git.branch in branches && BranchName(pe.spec, git.branch) == n
            && (OnlyBranch(pe, branches, branches[b]) ==> git.branch == branches[b])
    ensures n !in s.insts ==>
              var l := s'.insts[n].labels;
              && l.owner == pe.spec.owner && l.environment == pe.uid
              && l.organization == pe.spec.organization && l.repository == pe.spec.repository
              && (!TakenByPull(pe, pulls, n) && OnlyBranch(pe, branches, branches[b]) ==> l.identifier == branches[b])
  {
    n := BranchName(pe.spec, branches[b]);
    assert DraftOfBranch(pe, branches[b], drafts[|pulls| + b]);
    assert drafts[|pulls| + b] in drafts && n in Names(drafts);
    assert n in s'.insts && MergedAs(s, drafts, n, s'.insts[n]);
    var i := FirstPosition(drafts, n);
    var j := LastPosition(drafts, n);
    hide Merge, First, Last, InstanceName, OnlyBranch, TakenByPull;
    assert j >= |pulls| + b;
    FirstFields(pe, pulls, branches, drafts, i, branches[b]);
    LastIsBranch(pe, pulls, branches, drafts, j - |pulls|, branches[b]);
  }

  predicate TakenByPull(pe: Environment, pulls: seq<PullRequest>, n: string) {
    exists p :: p in pulls && PullRequestName(pe.spec, p.number) == n
  }

  lemma FirstFields(pe: Environment, pulls: seq<PullRequest>, branches: seq<string>, drafts: seq<Draft>, i: nat, branch: string)
    requires Detects(pe, pulls, branches, drafts) && i < |drafts| && drafts[i].name == BranchName(pe.spec, branch)
    ensures var l := drafts[i].labels;
            && l.owner == pe.spec.owner && l.environment == pe.uid
            && l.organization == pe.spec.organization && l.repository == pe.spec.repository
            && (!TakenByPull(pe, pulls, drafts[i].name) && OnlyBranch(pe, branches, branch) ==> l.identifier == branch)
  {
    hide InstanceName;
    if i < |pulls| {
      assert DraftOfPull(pe, pulls[i], drafts[i]);
      assert pulls[i] in pulls;
    } else {
      var b := i - |pulls|;
      assert DraftOfBranch(pe, branches[b], drafts[|pulls| + b]);
      assert branches[b] in branches;
    }
  }

  lemma LastIsBranch(pe: Environment, pulls: seq<PullRequest>, branches: seq<string>, drafts: seq<Draft>, b: nat, branch: string)
    requires Detects(pe, pulls, branches, drafts) && |pulls| + b < |drafts| && drafts[|pulls| + b].name == BranchName(pe.spec, branch)
    ensures var git := drafts[|pulls| + b].git;
            && git.pullRequestNumber == None && git.commitHash == "" && git.branch in branches
            && BranchName(pe.spec, git.branch) == BranchName(pe.spec, branch)
            && (OnlyBranch(pe, branches, branch) ==> git.branch == branch)
  {
    hide InstanceName;
    assert DraftOfBranch(pe, branches[b], drafts[|pulls| + b]);
  }

  /** No other branch gets its name. */
  predicate OnlyBranch(pe: Environment, branches: seq<string>, branch: string) {
    forall b | b in branches && BranchName(pe.spec, b) == BranchName(pe.spec, branch) :: b == branch
  }

  /** A branch can take the place of a pull request: with all branches wanted, the branch "pr-7" gets the name of pull
      request 7 whatever the environment, so its instance is not about the pull request any more and will not be built. */
  lemma BranchTakesOver(s: State, s': State, pe: Environment, p: PullRequest, drafts: seq<Draft>) returns (n: string)
    requires Detects(pe, [p], ["pr-" + Itoa(p.number)], drafts) && Merge(s, drafts, s') && pe.spec.buildAllBranches
    ensures n == PullRequestName(pe.spec, p.number) && n in s'.insts && s'.insts[n].git.pullRequestNumber == None
  {
    n := BranchIsStored(s, s', pe, [p], ["pr-" + Itoa(p.number)], drafts, 0);
    hide InstanceName, Detects, Merge;
  }
}
