# Verification of the pr-env operator

pr-env is a Kubernetes operator that keeps one running preview of an application for each open pull request of
a repository. Its difficult part is a set of controllers and request handlers that read, change and write back the
same API objects at the same time: instances are built, deployed, retriggered by webhooks, re-saved by the reconciler
of their environment and deleted by users, while processes die, answers get lost and writes are refused because they
carry an old resource version. This project models that system and proves what holds on all its runs.

## How the model is built

- `cluster.dfy` is one small-step machine of the API server and everyone who uses it. Custom resources carry a
  version; `Update` keeps the stored status, `Status().Update` keeps the stored spec, `Create` drops the status, a
  deleted object stays until its last finalizer goes. A reconcile in flight has a position, the object as it was last
  returned to it, and its changed copy. Each API call, each message from outside and each move of the world (jobs
  reporting, time passing, objects lost, processes dying) is one event; a call ends as done, as refused, or as carried
  out with its answer lost. A run is any sequence of events.
- `safety.dfy`, `phases.dfy`, `window.dfy`, `finalizers.dfy`, `housing.dfy`, `soundness.dfy` and `branches.dfy` prove
  invariants of all runs, on top of `effects.dfy`, which says once what each kind of step can change.
- `executions.dfy` states the main results over whole executions, which `history.dfy` defines: all states any sequence
  of events passes through. `witnesses.dfy` shows executions that end badly.
- `undisturbed.dfy`, `convergence.dfy` and `completion.dfy` are about instances that are left alone, whatever happens to
  all others: what one reconcile does, how many it takes, that they come to an end, and exactly which instances are
  stuck.
- `server.dfy`, `reconciler.dfy`, `envreconciler.dfy` and `webhook.dfy` are the controllers and handlers as imperative
  code, call by call, over a server that lets everyone else act before each call returns. Their executions are shown
  to be runs of the machine, so the theorems about runs hold for the code. A method moves the machine to the position
  of its next call, and a call is only allowed at its own position: leaving out, swapping or adding a call fails.
- `naming.dfy`, `text.dfy`, `selections.dfy`, `versions.dfy`, `cleanup.dfy`, `saving.dfy`, `answers.dfy` and `access.dfy`
  are the parts that agree with something simple: names, images and paths, filters, the cache of built versions, what a
  cleanup sweeps, what saving the detected instances does, the comment on the pull request and the access list.
- `lookup.dfy` joins the two ends: the labels one controller stores are those a webhook looks for.

## What the proofs found

- A new instance starts with an empty phase: the `pending` it is created with is a status, and `Create` drops it.
- An instance whose hash is already the latest and whose phase is empty, `building`, `failed` or `stopped` is never
  moved on by any reconcile (`Convergence.Stuck`, `Executions.ConvergesIff`). From the empty cluster a crash during a
  build is all it takes to get there (`Witnesses.StuckIsReachable`).
- A cleanup that dies between the proxy's Deployment and its Ingress leaks what is left of the proxy: the next cleanup
  stops at the missing Deployment, and the finalizer goes all the same. `Cleanup.RestartRemovesAllIff` has the exact
  condition, and `Witnesses.LeakIsReachable` an execution from the empty cluster in which no call fails.
- A branch called like `pr-7-auth-proxy` gets the instance name that is the object name of pull request 7's proxy, and
  shares objects with it, exactly when the pull request's full name has at most 34 or exactly 38 characters
  (`Naming.BranchCanNameAProxy`).
- A branch called `pr-7` gets the very name of pull request 7. With all branches wanted it takes over: the instance of the
  pull request is saved again as one of a branch and is not built any more (`Lookup.PullIsStored`, `BranchTakesOver`).
- A name that was not cut is a label only if owner, environment, organization and repository are made of letters, digits,
  hyphens and slashes: a dot or an underscore in a repository's name stays in it, and a Service cannot be called like
  that (`Naming.PullRequestNamesAreLabels`).
- The lookup of a running build by the bare name of the instance never finds anything.
- A push handler stops at the first matching pull request that has no instance; the ones after it are not triggered. With
  every call answered a push succeeds if and only if every matching pull request has an instance (`Webhook.HandlePush`).
- Saving an environment again fails exactly when a detected instance is stored without a desired phase, which only a user
  who empties it can bring about (`Saving.NothingRefusedIff`, `Executions.InstancesAreSound`).
- The comment on a pull request is doubled exactly when the list cannot be read or a stale comment cannot be deleted.

## Model

| member | source | states |
|---|---|---|
| Executions.CacheIsSlidingWindow | internal/controller/previewenvironmentinstance_builder.go:85-121 | In every reachable state an instance caches the last min(n, 10) builds recorded since it was created, in order, with non-empty distinct tags and strictly increasing whole-second times |
| Executions.NothingUnbuiltIsDeployed | internal/controller/previewenvironmentinstance_controller.go:95-172 | On every run, what an app Deployment runs was pushed by a finished build job, and its image ends in the pull request number in the Deployment's name and the commit, below the registry of a known environment |
| Executions.JobsBuildTheirCommit | internal/controller/previewenvironmentinstance_builder.go:123-176 | On every run, a build job that comes into being is called "build-" and the name of an instance in reconcile, and its destination starts with the registry of the instance's environment and ends in the pull request number and the commit being reconciled |
| Executions.InstancesKeepTheirFamily | internal/controller/previewenvironment_controller.go:168-201 | On every run, no pull request number means no commit hash; otherwise the number is the one in the name, and all cached tags and the hash being deployed are pushed images of that one family |
| Executions.LabelsTellTheName | internal/controller/previewenvironment_controller.go:203-215 | On every run, whoever has written an instance: its labels show the owner, organization and repository of its environment and an identifier its name was made from, as that of a pull request or as a branch |
| Executions.BranchesNeverBuild | internal/controller/previewenvironment_controller.go:188-201 | On every run, as long as an instance, whenever it is stored, belongs to no pull request, no build job is made for it and none of its six objects |
| Executions.PhasesFollowTheOrder | internal/controller/previewenvironmentinstance_controller.go:95-198 | On every run and under every interleaving: building only from pending; deploying only from pending or building; running only from deploying; failed only from pending, building or deploying; stopped and the empty phase never |
| Executions.ObjectsNeedTheirInstance | internal/controller/previewenvironmentinstance_controller.go:60-87 | On every fair run, while any of an instance's six objects exists the instance is stored with its finalizer, so nothing of it is left once it is gone |
| Executions.LiveInstancesAreHoused | internal/controller/previewenvironment_controller.go:62-107 | In every reachable state an instance that is not being deleted belongs to an environment that is still stored with its finalizer, even if that one is deleted in the middle of its reconcile |
| Executions.TeardownLeavesNoneLive | internal/controller/previewenvironment_controller.go:267-284 | When a teardown has come to its last write no instance of the environment is live |
| Executions.ReconcilesAccomplish | internal/controller/previewenvironmentinstance_controller.go:49-173 | In every execution a reconcile of an instance that is left alone, from its beginning to its end and on any schedule of clock, build job and everyone who spares the instance, does exactly what the phase asks for: one build, all six objects and the URL, the latest hash and pending, or nothing |
| Executions.ConvergesIff | internal/controller/previewenvironmentinstance_controller.go:95-172 | In every execution, from any position on, whatever everyone else does as long as it spares the instance: each of its reconciles lowers the distance by exactly one, and after five it is (running, latest) if and only if it was not stuck |
| Executions.LatestIsDeployed | internal/controller/previewenvironmentinstance_deployer.go:43-65 | Reconciles that had something to do end with all six objects there: an app Deployment whose image ends in the pull request number and the latest commit, a rule on the environment's host from whose path organization, repository, number and commit are read back, the proxy's rule at "/oauth2" below it, and a URL of that host and path |
| Executions.ResettingNeverRebuilds | internal/controller/previewenvironmentinstance_builder.go:30-44 | With the hash emptied by a re-save and the latest commit in the cache, the whole way back to running makes no build job, at no position |
| Executions.ReconcilesExist | internal/controller/previewenvironmentinstance_builder.go:178-224 | Every execution at whose end such an instance is free goes on with any number of undisturbed reconciles that come to their end, so the convergence theorems are not about nothing |
| Executions.InstancesAreSound | internal/controller/previewenvironment_controller.go:252-264 | On every run an instance that is being deleted has a finalizer, and as long as no user empties a desired phase every instance has one |
| Executions.SavingMerges | internal/controller/previewenvironment_controller.go:226-265 | So in every state of such a run the save loop is a merge in which nothing is refused, and a second one changes nothing but versions |
| Executions.DeletedInstancesGo | internal/controller/previewenvironmentinstance_controller.go:60-87 | On every run, a reconcile of an instance that is being deleted, answered to its end while everything else spares the instance, leaves it gone, and all six objects gone if and only if the proxy's objects were a prefix of Deployment, Service, Ingress |
| Witnesses.StuckIsReachable | internal/controller/previewenvironmentinstance_controller.go:145-160 | For every environment, pull request and commit there is an execution from the empty cluster, without a failing call, in which a crash during the build leaves the instance stuck |
| Witnesses.LeakIsReachable | internal/controller/previewenvironmentinstance_deployer.go:67-91 | For every environment and pull request there is an execution from the empty cluster, without a failing call, in which a crash during the cleanup leaves the proxy's Service behind when the instance is gone |
| Naming.NumberRecovered | api/v1alpha1/previewenvironmentinstance_types.go:112-127 | For every owner, environment, organization and repository the pull request number is read back from the digits after the last hyphen of the instance name, even when the name was cut |
| Naming.PullRequestNameShape | api/v1alpha1/previewenvironmentinstance_types.go:112-127 | A pull request instance name is "pei-", something, a hyphen and the number, and has at most 49 bytes |
| Naming.NamesEqualIff | api/v1alpha1/previewenvironmentinstance_types.go:120-127 | Two names collide if and only if the full names are equal or both were cut and agree on the 45 bytes kept; a cut name never meets an uncut one |
| Naming.PullRequestNamesAreLabels | api/v1alpha1/previewenvironmentinstance_types.go:120-127 | Names over letters, digits, hyphens and slashes are, with their proxy and job forms, lower-case labels of at most 63 octets (sections 2.3.1 and 2.3.4 of RFC 1035); for names that were not cut this is an if and only if |
| Naming.NamesAreLowered | api/v1alpha1/previewenvironmentinstance_types.go:121-122 | For any parts, no instance name, proxy name or job name has an upper-case letter or a slash in it |
| Naming.CaseDoesNotMatter | api/v1alpha1/previewenvironmentinstance_types.go:121 | Environments, pull requests and branches that differ in upper and lower case alone get the same names |
| Naming.SpecPartsReadBack | api/v1alpha1/previewenvironmentinstance_types.go:112-127 | A name that was not cut, with parts without hyphens, gives prefix, owner, environment, organization, repository and identifier back, in this order and in lower case |
| Text.NormaliseEqualIff | api/v1alpha1/previewenvironmentinstance_types.go:121-122 | Two strings normalise to the same if and only if they differ in case, and in slashes for hyphens, alone |
| Naming.ImageShowsBuild | api/v1alpha1/previewenvironmentinstance_types.go:129-131 | An image starts with registry and registry repository and ends in identifier and commit, which is what follows the last hyphen; all five parts of the tag are read back when none holds a separator |
| Naming.ImagesDiffer | api/v1alpha1/previewenvironmentinstance_types.go:129-131 | Images of two commits of one instance differ, and so do those of two instances for one commit |
| Naming.ObjectsAreDisjoint | api/v1alpha1/previewenvironmentinstance_types.go:159-161 | Different pull request instances never share one of their six objects, an instance's own six are six, and no proxy name is a pull request instance name |
| Naming.BranchCanNameAProxy | api/v1alpha1/previewenvironmentinstance_types.go:116-127 | Where branch names break that: the branch "pr-N-auth-proxy" takes the name of pull request N's proxy, and shares objects with it, if and only if the full name of the pull request has at most 34 or exactly 38 characters |
| Naming.ShareAnObjectIff | api/v1alpha1/previewenvironmentinstance_types.go:159-161 | Any two names share one of the six objects if and only if they are equal or one is the other's proxy name |
| Naming.ShortenedProxyIff | api/v1alpha1/previewenvironmentinstance_types.go:120-127 | Cutting a full name with the proxy suffix gives the proxy name of the cut full name if and only if it has at most 45 or exactly 49 characters |
| Naming.JobNameIsNoInstanceName | internal/controller/previewenvironmentinstance_builder.go:125 | A name with the build prefix is never a name with the instance prefix |
| Naming.PathsParseBack | api/v1alpha1/previewenvironmentinstance_types.go:133-149 | Organization, repository, identifier and hash are recovered from the URL path, slashes in the identifier included |
| Naming.ParsedPathsPrintBack | api/v1alpha1/previewenvironmentinstance_types.go:133-149 | Whatever parses as a path is the path of what it parses to |
| Text.AtoiItoa | api/v1alpha1/previewenvironmentinstance_types.go:137-145 | Decimal printing of a number can be read back |
| Text.ItoaAtoi | api/v1alpha1/previewenvironmentinstance_types.go:137-145 | And decimal digits without a leading zero are printed again as they were read |
| Versions.UpdateBuiltVersions | internal/controller/previewenvironmentinstance_builder.go:102-121 | On any list, unsorted or longer than the limit: with room the entry is appended; otherwise exactly the limit is kept, sorted, part of the old list plus the new entry as multisets, and nothing dropped is newer than anything kept |
| Versions.NewestSurvives | internal/controller/previewenvironmentinstance_builder.go:102-121 | With a limit of at least one, a strictly newest entry is never dropped |
| Versions.UpdateIsSlidingWindow | internal/controller/previewenvironmentinstance_builder.go:102-121 | On strictly increasing times the unstable sort has no choice: the possible results are exactly the last entries up to the limit, in order |
| Versions.UpdateExists | internal/controller/previewenvironmentinstance_builder.go:113-118 | Whatever the list, the loop has a result that meets that description |
| BuildWindow.WindowMoves | internal/controller/previewenvironmentinstance_builder.go:97-121 | Recording a build that began at least ten seconds after the newest entry, and storing it with truncated times, moves the window on by exactly that build |
| Safety.BareLookupMisses | internal/controller/previewenvironmentinstance_builder.go:60-83 | In every reachable state the lookup of a job by the bare instance name finds nothing |
| Safety.StepOk | internal/controller/previewenvironmentinstance_builder.go:24-100 | Every event keeps the inductive invariant that links stored objects, copies in flight, jobs and pushed images |
| Safety.FinishBuildOk | internal/controller/previewenvironmentinstance_builder.go:97-99 | The write that ends a build keeps it: the cache then names only pushed images |
| Safety.SaveOk | internal/controller/previewenvironment_controller.go:235-265 | Re-saving an instance from an environment reconcile keeps it, even when it overwrites an instance of the same name |
| Finalizers.InstanceStays | internal/controller/previewenvironmentinstance_controller.go:71-84 | A finalized instance stays stored, finalized and marked until the last write of its own cleanup, whoever writes it meanwhile |
| Cleanup.SweepRemovesAllIff | internal/controller/previewenvironmentinstance_deployer.go:434-463 | An answered cleanup removes all six objects if and only if the proxy's objects were a prefix of Deployment, Service, Ingress |
| Cleanup.SweptSpares | internal/controller/previewenvironmentinstance_deployer.go:67-91 | A cleanup touches nothing but the six objects |
| Cleanup.CleanupSweeps | internal/controller/previewenvironmentinstance_deployer.go:67-91 | The deletes of the machine, followed to the last one, leave what the sweep leaves |
| Cleanup.ServedStep | internal/controller/previewenvironmentinstance_deployer.go:67-91 | Each step of a cleanup, its own or one that spares the instance, keeps what will be left over in the end; with the last one the instance is gone |
| Cleanup.RestartRemovesAllIff | internal/controller/previewenvironmentinstance_deployer.go:67-91 | Restarting a cleanup that died removes everything left if and only if it did not die between the proxy's Deployment and Ingress with one of them there |
| Cleanup.InterruptedCleanupLeaks | internal/controller/previewenvironmentinstance_controller.go:61-81 | The failing family: wherever such a death leaves the proxy's Service, a reconcile without a single failed answer releases the instance and leaves the Service behind |
| Undisturbed.QuietStepGoes | internal/controller/previewenvironmentinstance_controller.go:95-172 | Each quiet step keeps the relation between where the reconcile began, where it stands and what it has done so far |
| Undisturbed.SparedStepGoes | internal/controller/previewenvironmentinstance_controller.go:95-172 | So does everything that leaves the instance, its reconcile, its build job and its six objects alone, whoever does it |
| Convergence.ShownMeans | internal/controller/previewenvironmentinstance_deployer.go:465-544 | What a deployed instance shows, read from the six objects one by one: image, host, path and "/oauth2" rule of its pull request and commit, and a URL of the same host and path |
| Undisturbed.DeployedServes | internal/controller/previewenvironmentinstance_deployer.go:43-65 | So do the objects right after a deployment |
| Completion.Progress | internal/controller/previewenvironmentinstance_builder.go:178-224 | At every position of such a reconcile the world can do something that brings it strictly nearer to its end |
| ApiServer.Server.Happen | internal/controller/previewenvironmentinstance_controller.go:49-173 | Every event keeps the server's history a run of the machine; a reconcile that is undisturbed stays so exactly when the event is a quiet one |
| ApiServer.Server.Update | internal/controller/previewenvironmentinstance_controller.go:92-97 | A versioned update from a reconcile: where an accepted and a refused one leave the reconcile and its copy |
| ApiServer.Server.StatusUpdate | internal/controller/previewenvironmentinstance_controller.go:195-198 | A versioned status update from a reconcile: where an accepted and a refused one leave the reconcile and its copy |
| InstanceReconciler.Reconcile | internal/controller/previewenvironmentinstance_controller.go:49-173 | Any execution is a run of the machine and ends; on a script of answered calls, clock ticks and reports of its own build job it accomplishes exactly one step of the convergence for an unhindered instance and changes nothing else |
| InstanceReconciler.RebuildInstance | internal/controller/previewenvironmentinstance_builder.go:24-58 | Does nothing when there is no hash or the commit is cached; otherwise the cache in memory changes only by recording the commit, and only when its image has been pushed; ends where the write of deploying, or of failed, comes next |
| InstanceReconciler.BuiltAvailable | internal/controller/previewenvironmentinstance_builder.go:30-39 | The loop finds out whether the commit is in the cache |
| InstanceReconciler.BuildContainerImage | internal/controller/previewenvironmentinstance_builder.go:60-100 | Marks as building, builds, and records: on success the copy is the old one, building, with the commit recorded in the cache and its image pushed; on failure the cache is what it was and the write of failed comes next |
| InstanceReconciler.BuildAndWait | internal/controller/previewenvironmentinstance_builder.go:123-234 | Removes an old job, creates one, and succeeds only when at least ten seconds have passed and the job has succeeded |
| InstanceReconciler.RedeployInstance | internal/controller/previewenvironmentinstance_deployer.go:17-65 | Does nothing without a hash; otherwise on success a URL is published from which host, organization, repository, number and commit are read back, and undisturbed all six objects serve it; proxy errors are passed over, all others leave the write of failed |
| InstanceReconciler.DeleteResources | internal/controller/previewenvironmentinstance_deployer.go:67-91 | Ends before the removal of the finalizer whatever failed; alone and answered it leaves what the sweep leaves |
| InstanceReconciler.FindEnvironment | internal/controller/previewenvironmentinstance_controller.go:237-243 | Finds the first listed environment with the id, or that there is none |
| InstanceReconciler.LoadPreviewEnvironment | internal/controller/previewenvironmentinstance_controller.go:227-244 | Loads the settings of the labelled environment and stands at the branch of the instance's phase, or gives up |
| InstanceReconciler.RefreshCommitHash | internal/controller/previewenvironmentinstance_controller.go:145-172 | Undisturbed, the stored hash becomes the latest one and the phase pending if and only if it was another |
| InstanceReconciler.ServersRunWhatWasBuilt | internal/controller/previewenvironmentinstance_deployer.go:93-157 | So at any moment of any execution what an app Deployment runs was pushed by a finished build |
| EnvironmentReconciler.Reconcile | internal/controller/previewenvironment_controller.go:51-112 | Any execution is a run of the machine and ends; alone and answered it merges exactly the detected instances into the store, with or without a finalizer to add first, or marks all instances and removes a deleted environment |
| EnvironmentReconciler.ServersAreSound | internal/controller/previewenvironment_controller.go:226-265 | The condition of the merge holds at any moment of any execution in which no user empties a desired phase |
| EnvironmentReconciler.DetectInstances | internal/controller/previewenvironment_controller.go:114-166 | Field by field: one entry for each open pull request in order, then one for each branch if all branches are wanted, with its name, the five labels, branch, number and an empty hash |
| EnvironmentReconciler.BranchNames | internal/git/git.go:122-132 | The loop keeps, at strictly increasing positions of the list, exactly the branches that have a name |
| EnvironmentReconciler.SaveInstances | internal/controller/previewenvironment_controller.go:226-265 | When nobody else acts a failed loop has applied a prefix and a successful one everything; answered, it fails only at an instance stored without a desired phase |
| EnvironmentReconciler.DeleteInstances | internal/controller/previewenvironment_controller.go:267-284 | Alone and answered, marks every instance of the namespace that has a finalizer, removes the others, changes nothing else, and only then goes on to the environment's finalizer |
| Saving.SaveIsMerge | internal/controller/previewenvironment_controller.go:226-265 | The save loop is a merge: old names and detected names; the spec of the last entry of a name; old metadata and status untouched; new metadata from the first entry |
| Saving.SavingTwiceChangesNothing | internal/controller/previewenvironment_controller.go:252-261 | A second save changes nothing but versions |
| Saving.NothingRefusedIff | internal/controller/previewenvironment_controller.go:252-264 | The emptiness of the desired phase stands for absence, and the save gets through, if and only if no detected name is stored without a desired phase |
| Lookup.PullIsStored | internal/controller/previewenvironment_controller.go:168-215 | After saving what was detected, every listed pull request has an instance; a new one carries the labels of environment, repository and number; and it is about the pull request, on the head it was last listed with, if and only if no detected branch gets the same name |
| Lookup.PullIsKnown | internal/kubeclient/previewenvironmentinstance.go:32-56 | So the lookup of the webhook finds an instance for every listed pull request that had none before |
| Lookup.KnownStays | internal/controller/previewenvironment_controller.go:226-265 | Saving never makes an instance unfindable for the webhook |
| Lookup.BranchIsStored | internal/controller/previewenvironment_controller.go:185-215 | Every wanted branch has an instance without a pull request, on the last branch of its name, and a new one carries the labels of environment and branch |
| Lookup.BranchTakesOver | internal/controller/previewenvironment_controller.go:114-138 | For every environment that wants all branches and every pull request N: a branch "pr-N" takes its instance away from it |
| Answers.Thread.UpdateAnswer | internal/git/git_response.go:12-25 | The thread after an update, and its answer, for every way its calls can end; answered, a thread whose first comment with the message is at most 24 hours old stays as it is, and any other ends in the new comment |
| Answers.Thread.AlreadyHasMessage | internal/git/git_response.go:52-79 | The loop stops at the first comment with the message, and deletes it when it is more than a day old |
| Answers.OthersStay | internal/git/git_response.go:52-79 | Whatever fails, all other comments stay, in order |
| Answers.AtMostOneIff | internal/git/git_response.go:12-79 | From at most one comment an update keeps at most one if and only if none was there, nothing was created, or the list was read and a stale one deleted |
| Answers.NeverTwice | internal/git/git_response.go:12-79 | Over any sequence of unfailing updates on a clock that does not go back, a message is never there twice |
| Answers.ExactlyOneFresh | internal/git/git_response.go:61-75 | After each of them its message is there exactly once, at most a day old |
| Access.ChangeMeans | internal/server/previewenvironment.go:88-125 | Adding is refused exactly for a user on the list; a change adds or removes that id, keeps ids distinct and everybody else in order |
| Access.AddThenRemove | internal/server/previewenvironment.go:94-125 | Adding and then removing a user restores the list |
| Access.RemoveThenAddIff | internal/server/previewenvironment.go:94-125 | Removing and then adding restores it if and only if the user was last and had no user name |
| Access.RequestsLinearise | internal/kubeclient/previewenvironment.go:107-114 | Under any interleaving of requests, finalizer writes, conflicts and lost answers the stored list is the effect of the accepted writes one after the other; every acknowledged request is among them exactly once; a user is listed if and only if the last word was an addition |
| Access.NothingIsLost | internal/server/previewenvironment.go:74-135 | An acknowledged addition or removal holds until a later write about the same user |
| Access.Desk.AddUser | internal/server/previewenvironment.go:74-104 | The handler, whatever others do between its calls, is one addition of the run and returns its answer; alone and answered it changes the list as it should |
| Access.Desk.RemoveUser | internal/server/previewenvironment.go:108-135 | The handler, whatever others do between its calls, is one removal of the run and returns its answer; alone and answered it changes the list as it should |
| Access.Desk.HasUser | internal/server/previewenvironment.go:88-92 | The loop finds out whether the id is on the list |
| Access.Desk.WithoutUser | internal/server/previewenvironment.go:122-127 | The loop cuts out the first user with the id and nothing else |
| Webhook.ThirdComponent | internal/server/github.go:156-158 | Of a pushed branch the first component is searched for, which is a prefix of the branch |
| Webhook.SearchedIs | internal/server/github.go:158 | What is searched for stands between the second slash of a ref and the third; with less than two slashes the handler dies |
| Webhook.PushMissesNone | internal/server/github.go:156-166 | A push to any branch, slashes or not, misses no listed pull request from it |
| Webhook.PullRequestsOfBranch | internal/git/git.go:87-101 | The filter keeps, at strictly increasing positions of the list, exactly the pull requests whose head contains the text |
| Selections.SelectionUnique | internal/git/git.go:92-98 | Which positions are kept determines the result of such a filter, its order included |
| Webhook.MatchingIff | internal/git/git.go:93-98 | A pull request is kept if and only if it is listed and its head contains the text |
| Webhook.HasPart | internal/git/git.go:95 | The search finds out whether a string contains another |
| Webhook.TriggerUpdate | internal/kubeclient/previewenvironmentinstance.go:58-80 | Alone, it changes only instances with the labels and the identifier, and only their phase to pending; on success all of them; answered, it does not fail |
| Webhook.ListInstances | internal/kubeclient/previewenvironmentinstance.go:13-30 | The list by owner and environment holds exactly the stored instances with these labels, once each |
| Webhook.InstanceOf | internal/kubeclient/previewenvironmentinstance.go:32-56 | The lookup by organization, repository and identifier returns a stored instance with these labels, or there is none |
| Webhook.HandleEvent | internal/server/github.go:182-190 | On success an instance of the pull request is pending, and only instances it concerns have changed, and only their phase; answered, it succeeds if and only if there is an instance |
| Webhook.HandlePullRequest | internal/server/github.go:178-180 | A pull request event does the same for its own pull request, failures included |
| Webhook.HandlePush | internal/server/github.go:156-176 | On success every listed pull request from the pushed branch has a pending instance; answered, it succeeds if and only if every matching one has an instance, and otherwise stops at the position of the first without: every matching one before it is reached, and only instances these concern have changed |

## Left out

- Calls take effect at one moment, reads see the latest writes, and there is one namespace and one operator process at
  a time. Strings are ASCII; a pull request number is at most 2^63 - 1.
- Executions.ObjectsNeedTheirInstance: assumes runs in which deletes of a cleanup are answered (done or not found), a
  cleanup does not die between the proxy's Deployment and Ingress, nobody else deletes the six objects, and no branch
  instance name ends in "-auth-proxy"; the lemmas of module Cleanup and Naming.BranchCanNameAProxy show why.
- Executions.ConvergesIff: is about instances of pull requests that are not being deleted; instances of branches never
  get a commit hash, and their reconcile stops with a nil dereference or an error.
- InstanceReconciler.Reconcile: says what is accomplished when only the clock, the reconcile's own build job and its own
  calls act, and, if it has to build, no job of an earlier build is in the way; with interference it says that the
  execution is a run of the machine, and Executions.ConvergesIff says what becomes of it when others spare the instance.
- EnvironmentReconciler.Reconcile: says what is saved or removed when nobody else acts and every call is answered; in
  all other cases it says that the execution is a run of the machine.
- Webhook.HandlePush: its results are stated for handlers that nobody interferes with; with interference its writes are
  events of a run, and all theorems about runs cover them.
- The end of the wait for a build job: the counter of its timeout is never increased, so a job that never finishes is
  waited for forever. The model waits as long as the script of the world goes on.
- Teardown sparing other environments: it lists the whole namespace and marks every instance, as written.
- The specs of an instance that a user edits by hand, other than the desired phase, and hand-edited finalizers.
- Get and Update or Create of a cluster object are two calls in the reconciler and one step in the machine; the store
  does not change in between except by events of others.
- Deleting a job is accepted at once and takes effect at some later event.
- Users, ports, variables and commands of an environment: they do not influence names, images or phases. The access
  list is modelled on its own.
- The text of the comment on a pull request; comments beyond the first page; comment ids.
- Keycloak groups, OIDC, HTTP, logging, pagination, pod specifications, ingress annotations and TLS.
- The branch wildcard: the code returns before it is looked at unless all branches are wanted, and then does not use it.
- The conversions between API models and resources, which copy field by field.
- The freshness test for installation tokens, which is written the other way round than its comment says.
