# gitflow-action, modelled in Dafny

This project models the decision logic of the gitflow GitHub Action
(`src/main.js`). The action promotes a branch into its gitflow target through
a pull request and merges pull requests that carry a gate label. It runs on
three events:

- **push** of the release or master branch: the action looks for the one
  open pull request from that branch into its target (release into master,
  master into dev, by default). If there is none, or more than one, it opens
  "`<head> -> <base>`" and labels it. A single existing pull request
  is reused only if it already carries the label; otherwise the push does
  nothing more (no creation, no label, no merge). It then merges when pushes
  are a trigger.
- **pull_request_review**: merges the reviewed pull request when reviews are
  a trigger and the delivered labels carry the gate label.
- **check_run**: when check runs are a trigger, fetches each associated pull
  request afresh, in payload order, and merges the ones whose current labels
  carry the gate label.

A rejected merge never aborts a run. It marks the run failed with
"Merge failed." only when `require-merge` is "true". Any other error from the
platform escapes to `run`'s catch, which marks the run failed with the
error's own message.

Modules:

- `Options` (options.dfy): the optional values the model uses.
- `Text` (text.dfy): JavaScript's `trim`, `split` on one character and
  `substr`, with the round trips that characterise them.
- `Configuration` and `Labels` (config.dfy): the inputs with their defaults,
  `getTarget`, `isAutoMergeEvent` and the label gate.
- `Platform` (platform.dfy): the repository's pull requests as a store, the
  five REST calls the action makes, and failure oracles. A `Faults` value
  gives the transport or authorisation errors per call, and the pull
  requests whose merge the platform rejects.
- `Flows` (flows.dfy): what one run does, as functions. The result is a
  `Trace`: the store after the run, the calls made in order, and the
  messages passed to `core.setFailed`. The run succeeded iff that last list
  is empty.
- `Action` (action.dfy): `merge`, `push` and `run` as imperative methods,
  step by step as the source does them. That includes the two branches that
  set `pull_number`, the check-run `for` loop, and the catch. Each is proved
  equal to its `Flows` function.
- `Properties` (properties.dfy): what the action promises about a run,
  proved of the `Flows` functions.

Three behaviours of the code worth knowing:

- Several matching pull requests are treated like none: the action opens
  another one (src/main.js:123, 133).
- Only a missing check-run list steps out early; an empty one loops zero
  times (src/main.js:70, 74). Both make no call (`CheckRunSilent`).
- A failed fetch in a check run aborts the remaining pull requests, since the
  error escapes to the catch (src/main.js:75, 96). Only a failed merge does
  not stop the loop (`CheckRunAborts`).

## Model

| member | source | states |
|---|---|---|
| Text.TrimShape | src/main.js:40 | `trim` leaves no white space at either end and never lengthens the string |
| Text.TrimStartShape | src/main.js:40 | what leading-trim drops is a prefix of white space, and what it keeps does not start with white space |
| Text.TrimEndShape | src/main.js:40 | what trailing-trim drops is a suffix of white space, and what it keeps does not end with white space |
| Text.TrimPadded | src/main.js:40 | `trim` of white space, then a trimmed body, then white space is exactly the body |
| Text.TrimOfTrimmed | src/main.js:40 | a string without surrounding white space is its own trim |
| Text.TrimIdempotent | src/main.js:40 | trimming twice is trimming once |
| Text.Split | src/main.js:40 | `split(",")` yields at least one piece, and no piece contains the separator |
| Text.JoinSplit | src/main.js:40 | joining the pieces of a split with the separator gives back the input |
| Text.SplitJoin | src/main.js:40 | splitting a join of separator-free pieces gives back the pieces |
| Text.Substr | src/main.js:108 | `substr(11)` is everything from offset 11 on, or empty for a shorter string |
| Configuration.FromInputs | src/main.js:4-25 | every name, target and the label are non-empty; a given input is used as it is, and an empty one takes its default (release, dev, master, targets dev and master, "gitflow", "true"); `require_merge` holds iff the input is exactly "true" |
| Configuration.DefaultTargets | src/main.js:5-9 | with no inputs, release promotes into master, master into dev, and dev has no target |
| Configuration.Target | src/main.js:27-33 | no target iff the branch is neither the release nor the master branch; the release case wins when both names are equal |
| Configuration.TrimEach | src/main.js:40 | `map(e => e.trim())` keeps the length and trims each element in place |
| Configuration.AutoMergeEventIff | src/main.js:35-43 | the setting "true" enables every event; otherwise an event is enabled iff it equals some trimmed comma-separated entry |
| Configuration.SingleTrigger | src/main.js:35-43 | a setting without a comma enables exactly the event it names, ignoring surrounding white space |
| Configuration.TwoTriggers | src/main.js:35-43 | "a,b" enables exactly the events trim(a) and trim(b) |
| Labels.Names | src/main.js:103-105 | `labels.map(labelMap)` is the names, in order |
| Labels.HasLabel | src/main.js:55 | the gate holds iff some label is named exactly like the gate label |
| Platform.Matching | src/main.js:114-120 | the list call returns only open pull requests from head into base, and every one of them in the store |
| Platform.MatchingCounts | src/main.js:114-123 | the list holds each matching pull request exactly as often as the store does, and nothing else, so its length is the number of matches the push tests against one |
| Properties.MatchingAppended | src/main.js:114-120 | a pull request added at the end of the store is added at the end of the list iff it matches: the list keeps store order |
| Platform.WithNames | src/main.js:145-150 | after adding labels, a name is present iff it was before or is among the added ones |
| Flows.CheckRunOutcome | src/main.js:74-88 | the loop makes at most two calls per pull request and at least one for a non-empty list; the calls before the loop stay as a prefix of the log |
| Action.Merge | src/main.js:162-180 | the imperative `merge` makes exactly the trace `MergeOutcome` specifies |
| Action.Push | src/main.js:107-160 | the imperative `push` returns the trace and thrown error that `PushOutcome` specifies |
| Action.Run | src/main.js:45-101 | the imperative `run`, with the check-run loop and the catch, makes exactly the trace `RunOutcome` specifies |
| Properties.HeadOfBranchRef | src/main.js:108 | a push of "refs/heads/b" is a push of branch b |
| Properties.PushOffTargetDoesNothing | src/main.js:108-113 | pushing a branch without a target makes no call, changes nothing and succeeds |
| Properties.PushReusedUnlabelled | src/main.js:123-131 | one unlabelled match: only the list call is made; nothing is created, labelled or merged, and the run succeeds |
| Properties.PushReusedLabelled | src/main.js:123-132 | one labelled match: no creation and no label; that pull request is merged iff pushes are a trigger; the run fails only with "Merge failed." when that merge is rejected and merges are required |
| Properties.OpenSteps | src/main.js:134-155 | on a reliable platform, opening appends the labelled pull request under the next number, logs the creation then the labelling, and goes on to the merge decision on it |
| Properties.PushCreatesAndLabels | src/main.js:133-159 | no match or several: the calls are list, create "head -> base", add exactly the gate label to the new number, then a merge iff pushes are a trigger; the run fails only when that merge is rejected and merges are required |
| Properties.PushCreatedStore | src/main.js:133-159 | on a platform without transport errors, after opening, the store is the earlier pull requests plus the new one, still open unless its merge went through |
| Properties.PushCreatedPullLabelled | src/main.js:133-159 | on a platform without transport errors, the opened pull request stays after the untouched earlier ones, with its number, branches, title and the gate label; it is closed iff its merge went through |
| Properties.MergeCreated | src/main.js:154-159 | on a platform without transport errors, the merge decision on a just-created pull request: a merge call iff pushes are a trigger, which closes exactly that pull request unless the platform rejects it |
| Properties.PushMergeCalls | src/main.js:154-159 | the end of a push adds the merge call iff pushes are a trigger, and nothing else |
| Properties.OpenCalls | src/main.js:134-156 | opening makes the creation call, then the labelling if the creation went through, then the merge decision if that went through too |
| Properties.OpenCallOrder | src/main.js:134-156 | after the list call, opening adds a label only as the third call and merges only as the last call |
| Properties.CallShapes | src/main.js:114-156 | in list, create, then perhaps label, then perhaps merge, the label is third and the merge is last |
| Properties.PromoteCallOrder | src/main.js:114-159 | in a promotion, a label is added only as the third call, to the new number, and a merge happens only as the last call and only when pushes are a trigger |
| Properties.PushMergesAtMostOnce | src/main.js:154-159 | whatever the platform does, a push run attempts at most one merge, as its last call, and only when pushes are a trigger |
| Properties.PushLabelsThird | src/main.js:145-150 | in a push run, a label can be added only as the third call, right after the creation, to the next number |
| Properties.LabelsOnlyOnCreated | src/main.js:145-150 | labels are added only in push runs, right after a creation, with exactly the gate label, to a number no existing pull request has; no existing pull request is ever labelled |
| Properties.CheckRunCallKinds | src/main.js:74-88 | the check-run loop only fetches and merges |
| Properties.MergeFailurePolicy | src/main.js:162-180 | a merge is one call; a rejection changes nothing, never escapes, and adds "Merge failed." iff merges are required |
| Properties.ReviewFailsOnlyByMerge | src/main.js:53-65 | a review run fails only with "Merge failed.", and only when its merge was attempted and rejected and merges are required |
| Properties.PushListFails | src/main.js:114-120 | a failed list call aborts the push: nothing else is called, nothing changes, and the run fails with the error's message |
| Properties.PushCreateFails | src/main.js:134-140 | a failed creation aborts the push before any label or merge, and the run fails with the error's message |
| Properties.PushLabelFails | src/main.js:145-150 | a failed labelling aborts the push before any merge; the new pull request stays unlabelled and the run fails with the error's message |
| Properties.FirstPushLeavesOne | src/main.js:123-153 | starting from no open match, on a platform without transport errors: after a push that opened a pull request and left it open, that pull request is the one match of the branch and its target |
| Properties.PushTwice | src/main.js:123-156 | starting from no open match, on a platform without transport errors: a second push after one that opened a pull request and left it open reuses it, with no second creation, no label, the same merge attempted again if pushes are a trigger, and the store unchanged |
| Properties.ReviewMergesIff | src/main.js:53-65 | a review merges the reviewed pull request iff reviews are a trigger and its delivered labels carry the gate label; otherwise it makes no call |
| Properties.CheckRunSilent | src/main.js:67-73 | a check run with check runs disabled, without a list or with an empty one makes no call, changes nothing and succeeds |
| Properties.OtherEventDoesNothing | src/main.js:48-94 | an event name other than the three the switch handles makes no call, changes nothing and succeeds |
| Properties.IndexOfSameLabels | src/main.js:75-83 | stores that agree on numbers and labels locate each number at the same place |
| Properties.CheckOneFollowsPlan | src/main.js:75-87 | one turn on a fetchable pull request fetches it and merges it iff its labels from before the run carry the gate label, keeping labels and adding only merge failures |
| Properties.CheckOneStops | src/main.js:75-80 | a turn whose fetch fails throws that fetch's error after logging the fetch |
| Properties.CheckRunFollowsPlan | src/main.js:74-88 | when every fetch succeeds, the loop fetches each pull request in order and merges it iff it carries the gate label; a rejected merge does not stop it |
| Properties.CheckRunStops | src/main.js:74-88 | the loop stops at the first failed fetch, after following the plan for the earlier ones, and throws that fetch's error |
| Properties.CheckRunProcessesAll | src/main.js:67-93 | with check runs enabled and every fetch succeeding, the calls are exactly the plan, and the only failures are rejected merges when merges are required |
| Properties.CheckRunAborts | src/main.js:74-99 | a failed fetch aborts the check run: the earlier pull requests follow the plan, the fetch is the last call, and the run's last failure is that fetch's message |

## Left out

- The `github-token` input, authentication, the Octokit client and HTTP transport are not modelled. A call either answers from the store or fails with a message from the `Faults` oracle.
- `core.getInput`'s own trimming of input values is not modelled. An input is the value the runner supplies, and empty means absent.
- The `owner:` prefix of the list call's `head` and the `owner`/`repo` arguments are not modelled. The model has one repository.
- Logging (`core.info`, `debug`, `core.isDebug`) has no effect on the outcome and is left out.
- `async`/`await` is not modelled. Calls happen one at a time, in program order, as the awaits force.
- Concurrent runs and platform changes between calls are not modelled. The store changes only through the action's own calls.
- A payload without its fields (for example a review event without `pull_request`) makes the source throw a TypeError. The model's events always carry their payload, and the check-run list is `None` only for a missing list.
- The platform's own rules are modelled only as far as the action depends on them. Creation always succeeds unless the error oracle says otherwise, so a platform that refuses a duplicate pull request is the oracle's case.
- JavaScript strings are UTF-16 code-unit sequences; here they are `seq<char>`. `trim` removes the ECMAScript white-space and line-terminator code points.
- The process exit status that `core.setFailed` sets is not modelled. The run has failed iff its list of failure messages is non-empty.
- Properties.CheckRunProcessesAll: states only that every failure is "Merge failed." under `require-merge`, not how many failures there are (one per rejected merge).
- Properties.CheckRunAborts: the failures before the fetch's message are stated the same way, as merge failures only, without their number.
- Properties.PushCreatesAndLabels: stated for a reliable platform (no transport errors). PushListFails, PushCreateFails and PushLabelFails cover the failing calls.
