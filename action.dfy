/** The action's entry points as it runs them: each platform call in turn,
    `pull_number` set on one of two branches, the check-run loop, and
    `core.setFailed` adding to the run's failures without stopping it. Each
    method is proved to do exactly what its `Flows` specification says. */
module Action {
  import opened Options
  import opened Text
  import opened Configuration
  import opened Labels
  import opened Platform
  import opened Flows

  /** `merge`. */
  method Merge(c: Config, f: Faults, t: Trace, n: nat) returns (r: Trace)
    ensures r == MergeOutcome(c, f, t, n)
  {
    r := Record(t, PullsMerge(n));
    var reply := Platform.Merge(r.store, f, n);
    if reply.Ok? {
      r := r.(store := reply.store);
    } else if c.requireMerge {
      r := r.(failures := r.failures + [MergeFailed]);
    }
  }

  /** `push`: the trace when it returns, and the message of the error it
      throws, if any. */
  method Push(c: Config, f: Faults, t: Trace, ref: string) returns (r: Trace, thrown: Option<string>)
    ensures PushOutcome(c, f, t, ref) == if thrown.None? then Continue(r) else Throw(r, thrown.value)
  {
    r, thrown := t, None;
    var head := HeadOf(ref);
    var target := Target(c, head);
    if target.None? || target.value == [] {
      return;
    }
    var base := target.value;
    r := Record(r, PullsList(head, base));
    var pulls := List(r.store, f, head, base);
    if pulls.Error? {
      thrown := Some(pulls.message);
      return;
    }
    var pullNumber: nat;
    if |pulls.value| == 1 {
      var data := pulls.value[0];
      pullNumber := data.number;
      if !HasLabel(data.labels, c.gateLabel) {
        return;
      }
    } else {
      var title := Title(head, base);
      r := Record(r, PullsCreate(head, base, title));
      var created := Create(r.store, f, head, base, title);
      if created.Error? {
        thrown := Some(created.message);
        return;
      }
      pullNumber := created.value;
      r := Record(r.(store := created.store), IssuesAddLabels(pullNumber, [c.gateLabel]));
      var labelled := AddLabels(r.store, f, pullNumber, [c.gateLabel]);
      if labelled.Error? {
        thrown := Some(labelled.message);
        return;
      }
      r := r.(store := labelled.store);
    }
    if IsAutoMergeEvent(c, "push") {
      r := Merge(c, f, r, pullNumber);
    }
  }

  /** `run`: the trace of the whole run, starting from store `s`. */
  method Run(c: Config, f: Faults, s: Store, e: Event) returns (r: Trace)
    ensures r == RunOutcome(c, f, s, e)
  {
    r := Trace(s, [], []);
    var thrown: Option<string> := None;
    match e {
      case Push(ref) =>
        r, thrown := Push(c, f, r, ref);
      case PullRequestReview(pull) =>
        if IsAutoMergeEvent(c, "pull_request_review") {
          if HasLabel(pull.labels, c.gateLabel) {
            r := Merge(c, f, r, pull.number);
          }
        }
      case CheckRun(pulls) =>
        if IsAutoMergeEvent(c, "check_run") {
          if pulls.None? {
            return;
          }
          var prs := pulls.value;
          var i := 0;
          while i < |prs|
            invariant 0 <= i <= |prs|
            invariant thrown.None?
            invariant CheckRunOutcome(c, f, Trace(s, [], []), prs) == CheckRunOutcome(c, f, r, prs[i..])
          {
            var n := prs[i];
            r := Record(r, PullsGet(n));
            var pull := Get(r.store, f, n);
            if pull.Error? {
              thrown := Some(pull.message);
              break;
            }
            if HasLabel(pull.value.labels, c.gateLabel) {
              r := Merge(c, f, r, n);
            }
            i := i + 1;
          }
        }
      case Other(_) =>
    }
    if thrown.Some? {
      r := r.(failures := r.failures + [thrown.value]);
    }
  }
}
