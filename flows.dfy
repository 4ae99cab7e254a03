/** What one run of the action does, as functions: for the triggering event,
    the configuration, the failure oracles and the platform's store before
    the run, the calls made in order, the store after them and the messages
    the run is marked failed with. These are the specifications that the
    imperative `Action` methods are proved against, and the `Properties`
    lemmas are about. */
module Flows {
  import opened Options
  import opened Text
  import opened Configuration
  import opened Labels
  import opened Platform

  /** The pull request a review event carries, with its labels as delivered. */
  datatype PullPayload = PullPayload(number: nat, labels: seq<Label>)

  /** The event the run reacts to, by its name: "push" with the pushed ref,
      "pull_request_review" with the reviewed pull request, "check_run" with
      the numbers of its pull requests (None when the payload has no list),
      and any other event name, which the action ignores (`Other` never
      carries one of the three handled names). */
  datatype Event =
    | Push(ref: string)
    | PullRequestReview(pull: PullPayload)
    | CheckRun(pulls: Option<seq<nat>>)
    | Other(name: string)

  /** The state of a run so far: the platform's store, the calls made, and
      the messages of `core.setFailed` so far (the run fails iff there is at
      least one). */
  datatype Trace = Trace(store: Store, calls: seq<Call>, failures: seq<string>)

  /** How a flow ends: normally, or by an error thrown out of it. */
  datatype Flow = Continue(trace: Trace) | Throw(trace: Trace, message: string)

  /** The one message a rejected merge reports, whatever the platform said. */
  const MergeFailed := "Merge failed."

  /** The branch name of a pushed ref: `ref.substr(11)`, which drops
      "refs/heads/". */
  function HeadOf(ref: string): string {
    Substr(ref, 11)
  }

  /** The call is made: it joins the log whether or not it then fails. */
  function Record(t: Trace, call: Call): Trace {
    t.(calls := t.calls + [call])
  }

  /** The run's catch: an error that escaped marks the run failed with the
      error's own message. */
  function Settle(flow: Flow): Trace {
    match flow
    case Continue(t) => t
    case Throw(t, m) => t.(failures := t.failures + [m])
  }

  /** `merge`: one merge call; a rejection never escapes, and marks the run
      failed with `MergeFailed` only when merges are required. */
  function MergeOutcome(c: Config, f: Faults, t: Trace, n: nat): Trace {
    var t1 := Record(t, PullsMerge(n));
    match Merge(t.store, f, n)
    case Ok(_, s) => t1.(store := s)
    case Error(_) => if c.requireMerge then t1.(failures := t1.failures + [MergeFailed]) else t1
  }

  /** The end of `push`: merge only when pushes are a trigger. */
  function PushMergeOutcome(c: Config, f: Faults, t: Trace, n: nat): Trace {
    if IsAutoMergeEvent(c, "push") then MergeOutcome(c, f, t, n) else t
  }

  /** The title of a pull request the action opens. */
  function Title(head: string, base: string): string {
    head + " -> " + base
  }

  /** `push`: resolve the target of the pushed branch, and stop when there
      is none; otherwise promote the branch into it. */
  function PushOutcome(c: Config, f: Faults, t: Trace, ref: string): Flow {
    var head := HeadOf(ref);
    var target := Target(c, head);
    if target.None? || target.value == [] then Continue(t)
    else PromoteOutcome(c, f, t, head, target.value)
  }

  /** Promoting `head` into `base`: reuse the one open pull request from it
      into the target if it carries the label (and stop if it does not),
      otherwise open and label a new one; then merge if pushes are a
      trigger. */
  function PromoteOutcome(c: Config, f: Faults, t: Trace, head: string, base: string): Flow {
    var t1 := Record(t, PullsList(head, base));
    match List(t.store, f, head, base)
    case Error(m) => Throw(t1, m)
    case Ok(pulls, _) =>
      if |pulls| == 1 then
        if !HasLabel(pulls[0].labels, c.gateLabel) then Continue(t1)
        else Continue(PushMergeOutcome(c, f, t1, pulls[0].number))
      else OpenOutcome(c, f, t1, head, base)
  }

  /** Opening a pull request "<head> -> <base>", labelling it with the gate
      label, then the merge decision on it. */
  function OpenOutcome(c: Config, f: Faults, t: Trace, head: string, base: string): Flow {
    var title := Title(head, base);
    var t1 := Record(t, PullsCreate(head, base, title));
    match Create(t.store, f, head, base, title)
    case Error(m) => Throw(t1, m)
    case Ok(n, s1) =>
      var t2 := Record(t1.(store := s1), IssuesAddLabels(n, [c.gateLabel]));
      match AddLabels(s1, f, n, [c.gateLabel])
      case Error(m) => Throw(t2, m)
      case Ok(_, s2) => Continue(PushMergeOutcome(c, f, t2.(store := s2), n))
  }

  /** One turn of the check-run loop: fetch the pull request afresh, and
      merge it if the fetched labels carry the gate label. A failed fetch
      throws. */
  function CheckOne(c: Config, f: Faults, t: Trace, n: nat): Flow {
    var t1 := Record(t, PullsGet(n));
    match Get(t.store, f, n)
    case Error(m) => Throw(t1, m)
    case Ok(p, _) => Continue(if HasLabel(p.labels, c.gateLabel) then MergeOutcome(c, f, t1, n) else t1)
  }

  /** The check-run loop over `pulls`, in order, until a fetch throws. Each
      pull request costs one or two calls, and the calls only grow. */
  function CheckRunOutcome(c: Config, f: Faults, t: Trace, pulls: seq<nat>): (r: Flow)
    ensures |t.calls| <= |r.trace.calls| <= |t.calls| + 2 * |pulls|
    ensures pulls != [] ==> |r.trace.calls| > |t.calls|
    ensures r.trace.calls[..|t.calls|] == t.calls
    decreases |pulls|
  {
    if pulls == [] then Continue(t)
    else
      match CheckOne(c, f, t, pulls[0])
      case Throw(t1, m) => Throw(t1, m)
      case Continue(t2) =>
        var r := CheckRunOutcome(c, f, t2, pulls[1..]);
        assert t2.calls[..|t.calls|] == t.calls;
        r
  }

  /** `run`: dispatch on the event name, and turn an error thrown by the
      push or check-run flow into a failed run. Unknown event names do
      nothing. */
  function RunOutcome(c: Config, f: Faults, s: Store, e: Event): Trace {
    var t := Trace(s, [], []);
    match e
    case Push(ref) => Settle(PushOutcome(c, f, t, ref))
    case PullRequestReview(pull) =>
      if IsAutoMergeEvent(c, "pull_request_review") && HasLabel(pull.labels, c.gateLabel)
      then MergeOutcome(c, f, t, pull.number)
      else t
    case CheckRun(pulls) =>
      if IsAutoMergeEvent(c, "check_run") && pulls.Some?
      then Settle(CheckRunOutcome(c, f, t, pulls.value))
      else t
    case Other(_) => t
  }
}
