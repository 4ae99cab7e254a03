/** What the action promises about a run, proved of the `Flows`
    specification (and so of the `Action` methods proved equal to it). */
module Properties {
  import opened Options
  import opened Text
  import opened Configuration
  import opened Labels
  import opened Platform
  import opened Flows

  /* ---------- Helpers over logs and stores ---------- */

  /** A created pull request is found at the end of the store. */
  lemma {:induction false} IndexOfAppended(pulls: seq<PullRequest>, p: PullRequest)
    requires forall i :: 0 <= i < |pulls| ==> pulls[i].number != p.number
    ensures IndexOf(pulls + [p], p.number) == Some(|pulls|)
  {
    if pulls != [] {
      assert (pulls + [p])[1..] == pulls[1..] + [p];
      IndexOfAppended(pulls[1..], p);
    }
  }

  /** Appending a pull request that matches adds it to the matches. */
  lemma {:induction false} MatchingAppended(pulls: seq<PullRequest>, p: PullRequest, head: string, base: string)
    ensures Matching(pulls + [p], head, base) ==
            Matching(pulls, head, base) + (if Matches(p, head, base) then [p] else [])
  {
    if pulls != [] {
      assert (pulls + [p])[1..] == pulls[1..] + [p];
      MatchingAppended(pulls[1..], p, head, base);
    }
  }

  /* ---------- The branch target and the pushed ref ---------- */

  /** A push of "refs/heads/<b>" is a push of branch b. */
  lemma HeadOfBranchRef(b: string)
    ensures HeadOf("refs/heads/" + b) == b
  {
    var ref := "refs/heads/" + b;
    assert |"refs/heads/"| == 11;
    assert HeadOf(ref) == ref[11..];
    assert ref[11..] == b;
  }

  /** A push of a branch that is neither the release nor the master branch
      makes no call and changes nothing. */
  lemma PushOffTargetDoesNothing(c: Config, f: Faults, s: Store, ref: string)
    requires HeadOf(ref) != c.releaseBranch && HeadOf(ref) != c.masterBranch
    ensures RunOutcome(c, f, s, Push(ref)) == Trace(s, [], [])
  {
  }

  /* ---------- The push flow ---------- */

  /** A push of a branch with a target is the promotion of the branch into
      that target, with an error that escapes it turned into a failure. */
  lemma RunPush(c: Config, f: Faults, s: Store, ref: string, head: string, base: string)
    requires HeadOf(ref) == head && Target(c, head) == Some(base) && base != []
    ensures RunOutcome(c, f, s, Push(ref)) == Settle(PromoteOutcome(c, f, Trace(s, [], []), head, base))
  {
  }

  /** Exactly one open pull request from the branch into its target, and it
      lacks the gate label: only the list call is made. Nothing is created,
      no label is added, nothing is merged, and the run succeeds. */
  lemma PushReusedUnlabelled(c: Config, f: Faults, s: Store, ref: string, head: string, base: string)
    requires HeadOf(ref) == head && Target(c, head) == Some(base) && base != []
    requires PullsList(head, base) !in f.errors
    requires |Matching(s.pulls, head, base)| == 1
    requires !HasLabel(Matching(s.pulls, head, base)[0].labels, c.gateLabel)
    ensures RunOutcome(c, f, s, Push(ref)) == Trace(s, [PullsList(head, base)], [])
  {
    RunPush(c, f, s, ref, head, base);
  }

  /** Exactly one open pull request, carrying the gate label: it is reused
      as it is, without a label added, and merged iff pushes are a trigger;
      the run fails only if that merge is rejected and merges are
      required. */
  lemma PushReusedLabelled(c: Config, f: Faults, s: Store, ref: string, head: string, base: string)
    requires HeadOf(ref) == head && Target(c, head) == Some(base) && base != []
    requires PullsList(head, base) !in f.errors
    requires |Matching(s.pulls, head, base)| == 1
    requires HasLabel(Matching(s.pulls, head, base)[0].labels, c.gateLabel)
    ensures var n := Matching(s.pulls, head, base)[0].number;
            var merged := IsAutoMergeEvent(c, "push");
            var r := RunOutcome(c, f, s, Push(ref));
            && r.calls == [PullsList(head, base)] + (if merged then [PullsMerge(n)] else [])
            && r.failures == (if merged && Merge(s, f, n).Error? && c.requireMerge then [MergeFailed] else [])
  {
    RunPush(c, f, s, ref, head, base);
  }

  /** The pull request the push flow opens, once labelled. */
  function CreatedPull(c: Config, s: Store, head: string, base: string): PullRequest {
    PullRequest(s.nextNumber, head, base, Title(head, base), true, WithNames([], [c.gateLabel]))
  }

  /** The pull request opened is "<head> -> <base>", open, from the head
      into the base, and carries the gate label. */
  lemma CreatedPullLabelled(c: Config, s: Store, head: string, base: string)
    ensures var q := CreatedPull(c, s, head, base);
            && q.number == s.nextNumber && q.head == head && q.base == base && q.open
            && q.title == head + " -> " + base && HasLabel(q.labels, c.gateLabel)
  {
    assert HasLabel(WithNames([], [c.gateLabel]), c.gateLabel);
  }

  /** The calls the push flow makes when it opens a pull request. */
  function CreateCalls(c: Config, s: Store, head: string, base: string): seq<Call> {
    [PullsList(head, base)] + [PullsCreate(head, base, Title(head, base)), IssuesAddLabels(s.nextNumber, [c.gateLabel])]
  }

  /** On a valid store and a reliable platform, opening a pull request
      appends it, labelled, under the next number, and goes on to the merge
      decision on it. */
  lemma OpenSteps(c: Config, f: Faults, t: Trace, head: string, base: string)
    requires Valid(t.store) && Reliable(f)
    ensures var s, n := t.store, t.store.nextNumber;
            OpenOutcome(c, f, t, head, base) ==
            Continue(PushMergeOutcome(c, f,
              Trace(Store(s.pulls + [CreatedPull(c, s, head, base)], n + 1),
                    t.calls + [PullsCreate(head, base, Title(head, base)), IssuesAddLabels(n, [c.gateLabel])],
                    t.failures),
              n))
  {
    var s, n := t.store, t.store.nextNumber;
    var p := PullRequest(n, head, base, Title(head, base), true, []);
    IndexOfAppended(s.pulls, p);
    var s2 := Store(s.pulls + [p], n + 1);
    var q := CreatedPull(c, s, head, base);
    assert s2.pulls[|s.pulls| := q] == s.pulls + [q];
    assert AddLabels(s2, f, n, [c.gateLabel]) == Ok((), Store(s.pulls + [q], n + 1));
    var create, add := PullsCreate(head, base, Title(head, base)), IssuesAddLabels(n, [c.gateLabel]);
    var t3 := Record(Record(t, create).(store := s2), add);
    assert t3.calls == t.calls + [create, add];
    assert t3.(store := Store(s.pulls + [q], n + 1)) ==
           Trace(Store(s.pulls + [q], n + 1), t.calls + [create, add], t.failures);
  }

  /** Without a single match, the push run goes on to open a pull
      request. */
  lemma PushOpens(c: Config, f: Faults, s: Store, ref: string, head: string, base: string)
    requires PullsList(head, base) !in f.errors
    requires HeadOf(ref) == head && Target(c, head) == Some(base) && base != []
    requires |Matching(s.pulls, head, base)| != 1
    ensures RunOutcome(c, f, s, Push(ref)) ==
            Settle(OpenOutcome(c, f, Trace(s, [PullsList(head, base)], []), head, base))
  {
    RunPush(c, f, s, ref, head, base);
    assert Record(Trace(s, [], []), PullsList(head, base)) == Trace(s, [PullsList(head, base)], []);
  }

  /** No open pull request, or several: one pull request "<head> -> <base>"
      is created and labelled with exactly the gate label before a merge is
      considered, and merged iff pushes are a trigger; the run fails only if
      that merge was rejected and merges are required. */
  lemma PushCreatesAndLabels(c: Config, f: Faults, s: Store, ref: string, head: string, base: string)
    requires Valid(s) && Reliable(f)
    requires HeadOf(ref) == head && Target(c, head) == Some(base) && base != []
    requires |Matching(s.pulls, head, base)| != 1
    ensures var n := s.nextNumber;
            var r := RunOutcome(c, f, s, Push(ref));
            var merged := IsAutoMergeEvent(c, "push");
            && r.calls == CreateCalls(c, s, head, base) + (if merged then [PullsMerge(n)] else [])
            && r.failures == (if merged && c.requireMerge && n in f.unmergeable then [MergeFailed] else [])
  {
    PushOpens(c, f, s, ref, head, base);
    OpenSteps(c, f, Trace(s, [PullsList(head, base)], []), head, base);
    MergeCreated(c, f, s.pulls, CreatedPull(c, s, head, base), s.nextNumber, CreateCalls(c, s, head, base), []);
  }

  /** The store after a push run that opened a pull request: the earlier
      pull requests untouched, then the new one, open unless its merge went
      through. */
  lemma PushCreatedStore(c: Config, f: Faults, s: Store, ref: string, head: string, base: string)
    requires Valid(s) && Reliable(f)
    requires HeadOf(ref) == head && Target(c, head) == Some(base) && base != []
    requires |Matching(s.pulls, head, base)| != 1
    ensures RunOutcome(c, f, s, Push(ref)).store ==
            Store(s.pulls + [CreatedPull(c, s, head, base).(open := !IsAutoMergeEvent(c, "push") || s.nextNumber in f.unmergeable)],
                  s.nextNumber + 1)
  {
    PushOpens(c, f, s, ref, head, base);
    OpenSteps(c, f, Trace(s, [PullsList(head, base)], []), head, base);
    MergeCreated(c, f, s.pulls, CreatedPull(c, s, head, base), s.nextNumber, CreateCalls(c, s, head, base), []);
  }

  /** The pull request the push run opens stays in the store after the
      run, after the untouched earlier ones, with the gate label; it is
      closed only by a merge that went through. */
  lemma PushCreatedPullLabelled(c: Config, f: Faults, s: Store, ref: string, head: string, base: string)
    requires Valid(s) && Reliable(f)
    requires HeadOf(ref) == head && Target(c, head) == Some(base) && base != []
    requires |Matching(s.pulls, head, base)| != 1
    ensures var r := RunOutcome(c, f, s, Push(ref));
            && |r.store.pulls| == |s.pulls| + 1
            && r.store.pulls[..|s.pulls|] == s.pulls
            && var p := r.store.pulls[|s.pulls|];
               && p.number == s.nextNumber && p.head == head && p.base == base
               && p.title == head + " -> " + base && HasLabel(p.labels, c.gateLabel)
               && (p.open <==> !IsAutoMergeEvent(c, "push") || s.nextNumber in f.unmergeable)
  {
    PushCreatedStore(c, f, s, ref, head, base);
    AppendedLabelled(c, s, head, base, !IsAutoMergeEvent(c, "push") || s.nextNumber in f.unmergeable);
  }

  lemma AppendedLabelled(c: Config, s: Store, head: string, base: string, open: bool)
    ensures var pulls := s.pulls + [CreatedPull(c, s, head, base).(open := open)];
            && |pulls| == |s.pulls| + 1
            && pulls[..|s.pulls|] == s.pulls
            && var p := pulls[|s.pulls|];
               && p.number == s.nextNumber && p.head == head && p.base == base
               && p.title == head + " -> " + base && HasLabel(p.labels, c.gateLabel)
               && p.open == open
  {
    var p := CreatedPull(c, s, head, base).(open := open);
    assert (s.pulls + [p])[..|s.pulls|] == s.pulls;
    CreatedPullLabelled(c, s, head, base);
  }

  /** The merge decision on a pull request just appended to the store: the
      merge call iff pushes are a trigger; it goes through unless the
      platform rejects it, and then closes exactly that pull request. */
  lemma MergeCreated(c: Config, f: Faults, pulls: seq<PullRequest>, q: PullRequest, n: nat,
                     calls: seq<Call>, failures: seq<string>)
    requires Reliable(f) && q.open && q.number == n
    requires forall i :: 0 <= i < |pulls| ==> pulls[i].number != n
    ensures var r := PushMergeOutcome(c, f, Trace(Store(pulls + [q], n + 1), calls, failures), n);
            var merged := IsAutoMergeEvent(c, "push");
            && r.calls == calls + (if merged then [PullsMerge(n)] else [])
            && r.failures == failures + (if merged && c.requireMerge && n in f.unmergeable then [MergeFailed] else [])
            && r.store == Store(pulls + [q.(open := !merged || n in f.unmergeable)], n + 1)
  {
    IndexOfAppended(pulls, q);
    assert (pulls + [q])[|pulls| := q.(open := false)] == pulls + [q.(open := false)];
    assert q.(open := true) == q;
  }

  /** A merge is attempted only as the last call, and only when `allowed`. */
  predicate MergeOnlyLast(calls: seq<Call>, allowed: bool) {
    forall i :: 0 <= i < |calls| && calls[i].PullsMerge? ==> i == |calls| - 1 && allowed
  }

  /** A label is added at most as the third call, right after a creation,
      and then exactly the gate label to pull request `n`. */
  predicate LabelsOnlyThird(calls: seq<Call>, n: nat, gate: string) {
    forall i :: 0 <= i < |calls| && calls[i].IssuesAddLabels? ==>
      i == 2 && calls[1].PullsCreate? && calls[i] == IssuesAddLabels(n, [gate])
  }

  /** The merge decision at the end of a push adds at most the merge call. */
  lemma PushMergeCalls(c: Config, f: Faults, t: Trace, n: nat)
    ensures PushMergeOutcome(c, f, t, n).calls ==
            t.calls + (if IsAutoMergeEvent(c, "push") then [PullsMerge(n)] else [])
  {
  }

  /** Opening makes the creation call, then, if it went through, the
      labelling of the next number, then, if that went through too, the
      merge decision. */
  lemma OpenCalls(c: Config, f: Faults, t: Trace, head: string, base: string)
    ensures var r := OpenOutcome(c, f, t, head, base);
            var title := Title(head, base);
            r.trace.calls ==
            t.calls + [PullsCreate(head, base, title)] +
            (if Create(t.store, f, head, base, title).Error? then []
             else [IssuesAddLabels(t.store.nextNumber, [c.gateLabel])] +
                  (if r.Continue? && IsAutoMergeEvent(c, "push") then [PullsMerge(t.store.nextNumber)] else []))
  {
    var title := Title(head, base);
    match Create(t.store, f, head, base, title)
    case Error(_) =>
    case Ok(n, s1) =>
      var t2 := Record(Record(t, PullsCreate(head, base, title)).(store := s1), IssuesAddLabels(n, [c.gateLabel]));
      match AddLabels(s1, f, n, [c.gateLabel])
      case Error(_) =>
      case Ok(_, s2) =>
        PushMergeCalls(c, f, t2.(store := s2), n);
  }

  /** The promotion's calls: labels only as the third call, on the created
      pull request, and a merge only as the last call, when pushes are a
      trigger. */
  lemma PromoteCallOrder(c: Config, f: Faults, s: Store, head: string, base: string)
    ensures var calls := PromoteOutcome(c, f, Trace(s, [], []), head, base).trace.calls;
            && LabelsOnlyThird(calls, s.nextNumber, c.gateLabel)
            && MergeOnlyLast(calls, IsAutoMergeEvent(c, "push"))
  {
    var list := PullsList(head, base);
    var t1 := Record(Trace(s, [], []), list);
    var calls := PromoteOutcome(c, f, Trace(s, [], []), head, base).trace.calls;
    match List(s, f, head, base)
    case Error(_) =>
      assert calls == [list];
    case Ok(pulls, _) =>
      if |pulls| == 1 {
        PushMergeCalls(c, f, t1, pulls[0].number);
        assert calls == [list] || calls == [list, PullsMerge(pulls[0].number)];
      } else {
        OpenCallOrder(c, f, t1, head, base);
      }
  }

  /** After the listing, opening a pull request labels only as the third
      call and merges only as the last. */
  lemma OpenCallOrder(c: Config, f: Faults, t: Trace, head: string, base: string)
    requires t.calls == [PullsList(head, base)]
    ensures var calls := OpenOutcome(c, f, t, head, base).trace.calls;
            && LabelsOnlyThird(calls, t.store.nextNumber, c.gateLabel)
            && MergeOnlyLast(calls, IsAutoMergeEvent(c, "push"))
  {
    var r := OpenOutcome(c, f, t, head, base);
    var title := Title(head, base);
    OpenCalls(c, f, t, head, base);
    CallShapes(r.trace.calls, PullsList(head, base), PullsCreate(head, base, title),
               t.store.nextNumber, c.gateLabel, IsAutoMergeEvent(c, "push"),
               Create(t.store, f, head, base, title).Error?, r.Continue? && IsAutoMergeEvent(c, "push"));
  }

  /** The listing, the creation, then perhaps the labelling and perhaps
      the merge: labels only third, a merge only last. */
  lemma CallShapes(calls: seq<Call>, list: Call, create: Call, n: nat, gate: string, allowed: bool,
                   failed: bool, merged: bool)
    requires list.PullsList? && create.PullsCreate?
    requires merged ==> allowed
    requires calls == [list] + [create] +
                      (if failed then [] else [IssuesAddLabels(n, [gate])] + (if merged then [PullsMerge(n)] else []))
    ensures LabelsOnlyThird(calls, n, gate) && MergeOnlyLast(calls, allowed)
  {
  }

  /** A push run attempts at most one merge, as its last call, and only
      when pushes are a trigger; whatever the platform does. */
  lemma PushMergesAtMostOnce(c: Config, f: Faults, s: Store, ref: string)
    ensures MergeOnlyLast(RunOutcome(c, f, s, Push(ref)).calls, IsAutoMergeEvent(c, "push"))
  {
    var target := Target(c, HeadOf(ref));
    if target.Some? && target.value != [] {
      RunPush(c, f, s, ref, HeadOf(ref), target.value);
      PromoteCallOrder(c, f, s, HeadOf(ref), target.value);
    }
  }

  /** In a push run, a label can only be added as the third call, right
      after the creation, to the number the platform hands out next. */
  lemma PushLabelsThird(c: Config, f: Faults, s: Store, ref: string)
    ensures LabelsOnlyThird(RunOutcome(c, f, s, Push(ref)).calls, s.nextNumber, c.gateLabel)
  {
    var target := Target(c, HeadOf(ref));
    if target.Some? && target.value != [] {
      RunPush(c, f, s, ref, HeadOf(ref), target.value);
      PromoteCallOrder(c, f, s, HeadOf(ref), target.value);
    }
  }

  /** Labels are only ever added by a push run, to the pull request that run
      has just created (the call before is the creation, and the number is
      the one the platform hands out next, which no pull request in a valid
      store has), and the label added is exactly the gate label. A pull
      request that already existed never has a label added. */
  lemma LabelsOnlyOnCreated(c: Config, f: Faults, s: Store, e: Event)
    ensures var calls := RunOutcome(c, f, s, e).calls;
            forall i :: 0 <= i < |calls| && calls[i].IssuesAddLabels? ==>
              && e.Push? && 1 <= i && calls[i - 1].PullsCreate?
              && calls[i] == IssuesAddLabels(s.nextNumber, [c.gateLabel])
              && (Valid(s) ==> forall j :: 0 <= j < |s.pulls| ==> s.pulls[j].number != calls[i].number)
  {
    var calls := RunOutcome(c, f, s, e).calls;
    match e
    case Push(ref) =>
      PushLabelsThird(c, f, s, ref);
    case PullRequestReview(_) =>
      assert FetchesAndMerges(calls);
    case CheckRun(pulls) =>
      if IsAutoMergeEvent(c, "check_run") && pulls.Some? {
        CheckRunCallKinds(c, f, Trace(s, [], []), pulls.value);
      }
      assert FetchesAndMerges(calls);
    case Other(_) =>
  }

  /** Every call in the log is a fetch or a merge. */
  predicate FetchesAndMerges(calls: seq<Call>) {
    forall i :: 0 <= i < |calls| ==> calls[i].PullsGet? || calls[i].PullsMerge?
  }

  /** The check-run loop only fetches and merges. */
  lemma {:induction false} CheckRunCallKinds(c: Config, f: Faults, t: Trace, pulls: seq<nat>)
    requires FetchesAndMerges(t.calls)
    ensures FetchesAndMerges(CheckRunOutcome(c, f, t, pulls).trace.calls)
    decreases |pulls|
  {
    if pulls != [] {
      var n := pulls[0];
      var t2 := CheckOne(c, f, t, n).trace;
      assert t2.calls == t.calls + [PullsGet(n)] || t2.calls == t.calls + [PullsGet(n), PullsMerge(n)];
      assert FetchesAndMerges(t2.calls);
      if CheckOne(c, f, t, n).Continue? {
        CheckRunCallKinds(c, f, t2, pulls[1..]);
      }
    }
  }

  /* ---------- Failures ---------- */

  /** A merge attempt is one call; if the platform rejects it, for any
      reason, nothing changes and the run is marked failed with the fixed
      message iff merges are required; the error never escapes. */
  lemma MergeFailurePolicy(c: Config, f: Faults, t: Trace, n: nat)
    ensures var r := MergeOutcome(c, f, t, n);
            var reply := Merge(t.store, f, n);
            && r.calls == t.calls + [PullsMerge(n)]
            && r.store == (if reply.Ok? then reply.store else t.store)
            && r.failures == t.failures + (if reply.Error? && c.requireMerge then [MergeFailed] else [])
  {
  }

  /** A review run fails only through its merge: with the fixed message,
      and only when merges are required. */
  lemma ReviewFailsOnlyByMerge(c: Config, f: Faults, s: Store, pull: PullPayload)
    ensures RunOutcome(c, f, s, PullRequestReview(pull)).failures ==
            if IsAutoMergeEvent(c, "pull_request_review") && HasLabel(pull.labels, c.gateLabel) &&
               Merge(s, f, pull.number).Error? && c.requireMerge
            then [MergeFailed] else []
  {
  }

  /** A failed list call aborts the push: nothing else is called, nothing
      changes, and the run fails with the error's message. */
  lemma PushListFails(c: Config, f: Faults, s: Store, ref: string, head: string, base: string)
    requires HeadOf(ref) == head && Target(c, head) == Some(base) && base != []
    requires PullsList(head, base) in f.errors
    ensures RunOutcome(c, f, s, Push(ref)) == Trace(s, [PullsList(head, base)], [f.errors[PullsList(head, base)]])
  {
    RunPush(c, f, s, ref, head, base);
  }

  /** A failed creation aborts the push before any label or merge, and the
      run fails with the error's message. */
  lemma PushCreateFails(c: Config, f: Faults, s: Store, ref: string, head: string, base: string)
    requires HeadOf(ref) == head && Target(c, head) == Some(base) && base != []
    requires PullsList(head, base) !in f.errors
    requires |Matching(s.pulls, head, base)| != 1
    requires PullsCreate(head, base, Title(head, base)) in f.errors
    ensures var create := PullsCreate(head, base, Title(head, base));
            RunOutcome(c, f, s, Push(ref)) == Trace(s, [PullsList(head, base), create], [f.errors[create]])
  {
    RunPush(c, f, s, ref, head, base);
  }

  /** A failed labelling aborts the push before any merge: the created pull
      request stays, unlabelled, and the run fails with the error's
      message. */
  lemma PushLabelFails(c: Config, f: Faults, s: Store, ref: string, head: string, base: string)
    requires HeadOf(ref) == head && Target(c, head) == Some(base) && base != []
    requires PullsList(head, base) !in f.errors
    requires |Matching(s.pulls, head, base)| != 1
    requires PullsCreate(head, base, Title(head, base)) !in f.errors
    requires IssuesAddLabels(s.nextNumber, [c.gateLabel]) in f.errors
    ensures var r := RunOutcome(c, f, s, Push(ref));
            && r.calls == CreateCalls(c, s, head, base)
            && r.failures == [f.errors[IssuesAddLabels(s.nextNumber, [c.gateLabel])]]
            && r.store.pulls == s.pulls + [PullRequest(s.nextNumber, head, base, Title(head, base), true, [])]
  {
    RunPush(c, f, s, ref, head, base);
    var t1 := Record(Trace(s, [], []), PullsList(head, base));
    assert PromoteOutcome(c, f, Trace(s, [], []), head, base) == OpenOutcome(c, f, t1, head, base);
  }

  /** Starting from no open match, on a platform without transport errors:
      pushing again after a push that opened the pull request and left it
      open (pushes are no trigger, or its merge was rejected) reuses it:
      nothing is created or labelled, the same merge is attempted again if
      pushes are a trigger, and the store is as the first run left it. */
  lemma PushTwice(c: Config, f: Faults, s: Store, ref: string, head: string, base: string)
    requires Valid(s) && Reliable(f)
    requires HeadOf(ref) == head && Target(c, head) == Some(base) && base != []
    requires Matching(s.pulls, head, base) == []
    requires !IsAutoMergeEvent(c, "push") || s.nextNumber in f.unmergeable
    ensures var s1 := RunOutcome(c, f, s, Push(ref)).store;
            var r := RunOutcome(c, f, s1, Push(ref));
            && r.store == s1
            && r.calls == [PullsList(head, base)] +
                          (if IsAutoMergeEvent(c, "push") then [PullsMerge(s.nextNumber)] else [])
  {
    var s1 := RunOutcome(c, f, s, Push(ref)).store;
    FirstPushLeavesOne(c, f, s, ref, head, base);
    var p := s1.pulls[|s.pulls|];
    PushReusedLabelled(c, f, s1, ref, head, base);
    RunPush(c, f, s1, ref, head, base);
    if IsAutoMergeEvent(c, "push") {
      assert Merge(s1, f, p.number).Error?;
    }
  }

  /** Starting from no open match, on a platform without transport errors:
      after a push that opened a pull request and left it open, that pull
      request is the one match of the branch and its target. */
  lemma FirstPushLeavesOne(c: Config, f: Faults, s: Store, ref: string, head: string, base: string)
    requires Valid(s) && Reliable(f)
    requires HeadOf(ref) == head && Target(c, head) == Some(base) && base != []
    requires Matching(s.pulls, head, base) == []
    requires !IsAutoMergeEvent(c, "push") || s.nextNumber in f.unmergeable
    ensures var s1 := RunOutcome(c, f, s, Push(ref)).store;
            && |s1.pulls| == |s.pulls| + 1
            && var p := s1.pulls[|s.pulls|];
               && Matching(s1.pulls, head, base) == [p]
               && p.number == s.nextNumber && HasLabel(p.labels, c.gateLabel)
               && IndexOf(s1.pulls, p.number) == Some(|s.pulls|)
  {
    var s1 := RunOutcome(c, f, s, Push(ref)).store;
    PushCreatedPullLabelled(c, f, s, ref, head, base);
    var p := s1.pulls[|s.pulls|];
    assert s1.pulls == s.pulls + [p];
    MatchingAppended(s.pulls, p, head, base);
    IndexOfAppended(s.pulls, p);
  }

  /* ---------- Review and check-run flows ---------- */

  /** A review event merges the reviewed pull request iff reviews are a
      trigger and the delivered labels carry the gate label; otherwise it
      makes no call at all. */
  lemma ReviewMergesIff(c: Config, f: Faults, s: Store, pull: PullPayload)
    ensures RunOutcome(c, f, s, PullRequestReview(pull)).calls ==
            if IsAutoMergeEvent(c, "pull_request_review") && HasLabel(pull.labels, c.gateLabel)
            then [PullsMerge(pull.number)] else []
  {
  }

  /** A check-run event with check runs disabled, or without a pull request
      list, or with an empty one, makes no call, changes nothing and
      succeeds. */
  lemma CheckRunSilent(c: Config, f: Faults, s: Store, pulls: Option<seq<nat>>)
    requires !IsAutoMergeEvent(c, "check_run") || pulls == None || pulls == Some([])
    ensures RunOutcome(c, f, s, CheckRun(pulls)) == Trace(s, [], [])
  {
  }

  /** An event name the action does not handle does nothing. */
  lemma OtherEventDoesNothing(c: Config, f: Faults, s: Store, name: string)
    requires name !in {"push", "pull_request_review", "check_run"}
    ensures RunOutcome(c, f, s, Other(name)) == Trace(s, [], [])
  {
  }

  /** Two stores with the same pull requests in the same places, up to
      which are open. */
  predicate SameLabels(a: Store, b: Store) {
    |a.pulls| == |b.pulls| &&
    forall i :: 0 <= i < |a.pulls| ==>
      a.pulls[i].number == b.pulls[i].number && a.pulls[i].labels == b.pulls[i].labels
  }

  lemma {:induction false} IndexOfSameLabels(a: Store, b: Store, n: nat)
    requires SameLabels(a, b)
    ensures IndexOf(a.pulls, n) == IndexOf(b.pulls, n)
    decreases |a.pulls|
  {
    if a.pulls != [] && a.pulls[0].number != n {
      IndexOfSameLabels(Store(a.pulls[1..], 0), Store(b.pulls[1..], 0), n);
    }
  }

  /** Whether the pull request numbered `n` carries the gate label in `s`. */
  predicate Labelled(s: Store, n: nat, gate: string) {
    match IndexOf(s.pulls, n)
    case None => false
    case Some(i) => HasLabel(s.pulls[i].labels, gate)
  }

  /** The calls a check run makes on its pull requests when every fetch
      succeeds: a fetch of each, in payload order, each
      followed by a merge iff that pull request carries the gate label. */
  function CheckRunPlan(s: Store, pulls: seq<nat>, gate: string): seq<Call> {
    if pulls == [] then []
    else
      [PullsGet(pulls[0])] + (if Labelled(s, pulls[0], gate) then [PullsMerge(pulls[0])] else []) +
      CheckRunPlan(s, pulls[1..], gate)
  }

  predicate MergeFailuresOnly(c: Config, failures: seq<string>) {
    forall i :: 0 <= i < |failures| ==> failures[i] == MergeFailed && c.requireMerge
  }

  /** Every fetch of these pull requests succeeds: no transport error, and
      the number is in the store. */
  predicate Fetchable(s: Store, f: Faults, pulls: seq<nat>) {
    forall i :: 0 <= i < |pulls| ==> PullsGet(pulls[i]) !in f.errors && IndexOf(s.pulls, pulls[i]).Some?
  }

  /** One turn of the loop on a fetchable pull request follows the plan. */
  lemma CheckOneFollowsPlan(c: Config, f: Faults, s: Store, t: Trace, n: nat)
    requires SameLabels(s, t.store)
    requires PullsGet(n) !in f.errors && IndexOf(s.pulls, n).Some?
    requires MergeFailuresOnly(c, t.failures)
    ensures var r := CheckOne(c, f, t, n);
            && r.Continue?
            && r.trace.calls == t.calls + [PullsGet(n)] +
                 (if Labelled(s, n, c.gateLabel) then [PullsMerge(n)] else [])
            && SameLabels(s, r.trace.store)
            && MergeFailuresOnly(c, r.trace.failures)
  {
    IndexOfSameLabels(s, t.store, n);
  }

  /** One turn of the loop whose fetch fails throws that fetch's error. */
  lemma CheckOneStops(c: Config, f: Faults, s: Store, t: Trace, n: nat)
    requires SameLabels(s, t.store)
    requires Get(s, f, n).Error?
    ensures CheckOne(c, f, t, n) == Throw(Record(t, PullsGet(n)), Get(s, f, n).message)
  {
    IndexOfSameLabels(s, t.store, n);
  }

  /** The check-run loop follows the plan; merges change no labels, so every
      fetch sees the labels the pull request had before the run, and a
      rejected merge does not stop the loop. */
  lemma {:induction false} CheckRunFollowsPlan(c: Config, f: Faults, s: Store, t: Trace, pulls: seq<nat>)
    requires SameLabels(s, t.store) && Fetchable(s, f, pulls)
    requires MergeFailuresOnly(c, t.failures)
    ensures var r := CheckRunOutcome(c, f, t, pulls);
            && r.Continue?
            && r.trace.calls == t.calls + CheckRunPlan(s, pulls, c.gateLabel)
            && SameLabels(s, r.trace.store)
            && MergeFailuresOnly(c, r.trace.failures)
    decreases |pulls|
  {
    if pulls != [] {
      var n := pulls[0];
      CheckOneFollowsPlan(c, f, s, t, n);
      var t2 := CheckOne(c, f, t, n).trace;
      CheckRunUnfold(c, f, t, pulls);
      FetchableTail(s, f, pulls);
      CheckRunFollowsPlan(c, f, s, t2, pulls[1..]);
      PlanUnfold(s, pulls, c.gateLabel, t.calls, t2.calls);
    }
  }

  /** The loop stops at the first pull request whose fetch fails: the ones
      before it follow the plan, its fetch is the last call, and the run
      throws that fetch's error. */
  lemma {:induction false} CheckRunStops(c: Config, f: Faults, s: Store, t: Trace, pulls: seq<nat>, k: nat)
    requires k < |pulls| && Fetchable(s, f, pulls[..k]) && Get(s, f, pulls[k]).Error?
    requires SameLabels(s, t.store) && MergeFailuresOnly(c, t.failures)
    ensures var r := CheckRunOutcome(c, f, t, pulls);
            && r.Throw?
            && r.message == Get(s, f, pulls[k]).message
            && r.trace.calls == t.calls + CheckRunPlan(s, pulls[..k], c.gateLabel) + [PullsGet(pulls[k])]
            && MergeFailuresOnly(c, r.trace.failures)
    decreases k
  {
    if k == 0 {
      CheckOneStops(c, f, s, t, pulls[0]);
      assert pulls[..0] == [];
    } else {
      var n := pulls[0];
      assert PullsGet(n) !in f.errors && IndexOf(s.pulls, n).Some? by {
        assert pulls[..k][0] == n;
      }
      CheckOneFollowsPlan(c, f, s, t, n);
      var t2 := CheckOne(c, f, t, n).trace;
      CheckRunUnfold(c, f, t, pulls);
      assert Fetchable(s, f, pulls[1..][..k - 1]) by {
        FetchableTail(s, f, pulls[..k]);
        assert pulls[..k][1..] == pulls[1..][..k - 1];
      }
      assert Get(s, f, pulls[1..][k - 1]).Error? by {
        assert pulls[1..][k - 1] == pulls[k];
      }
      CheckRunStops(c, f, s, t2, pulls[1..], k - 1);
      assert t2.calls + CheckRunPlan(s, pulls[..k][1..], c.gateLabel) == t.calls + CheckRunPlan(s, pulls[..k], c.gateLabel) by {
        PlanUnfold(s, pulls[..k], c.gateLabel, t.calls, t2.calls);
      }
      assert pulls[1..][k - 1] == pulls[k];
      assert pulls[..k][1..] == pulls[1..][..k - 1];
    }
  }

  /** A turn that does not throw hands its trace on to the rest of the loop. */
  lemma CheckRunUnfold(c: Config, f: Faults, t: Trace, pulls: seq<nat>)
    requires pulls != [] && CheckOne(c, f, t, pulls[0]).Continue?
    ensures CheckRunOutcome(c, f, t, pulls) == CheckRunOutcome(c, f, CheckOne(c, f, t, pulls[0]).trace, pulls[1..])
  {
  }

  lemma FetchableTail(s: Store, f: Faults, pulls: seq<nat>)
    requires pulls != [] && Fetchable(s, f, pulls)
    ensures Fetchable(s, f, pulls[1..])
  {
    forall i | 0 <= i < |pulls[1..]|
      ensures PullsGet(pulls[1..][i]) !in f.errors && IndexOf(s.pulls, pulls[1..][i]).Some?
    {
      assert pulls[1..][i] == pulls[i + 1];
    }
  }

  /** The plan's first step followed by the plan for the rest. */
  lemma PlanUnfold(s: Store, pulls: seq<nat>, gate: string, before: seq<Call>, after: seq<Call>)
    requires pulls != []
    requires after == before + [PullsGet(pulls[0])] + (if Labelled(s, pulls[0], gate) then [PullsMerge(pulls[0])] else [])
    ensures after + CheckRunPlan(s, pulls[1..], gate) == before + CheckRunPlan(s, pulls, gate)
  {
  }

  /** A check run with check runs enabled and pull requests that can all be
      fetched: each is fetched, in payload order, and merged iff it carries
      the gate label, whether or not earlier merges failed; the only
      failures are failed merges when merges are required. */
  lemma CheckRunProcessesAll(c: Config, f: Faults, s: Store, pulls: seq<nat>)
    requires IsAutoMergeEvent(c, "check_run") && Fetchable(s, f, pulls)
    ensures RunOutcome(c, f, s, CheckRun(Some(pulls))).calls == CheckRunPlan(s, pulls, c.gateLabel)
    ensures MergeFailuresOnly(c, RunOutcome(c, f, s, CheckRun(Some(pulls))).failures)
  {
    CheckRunFollowsPlan(c, f, s, Trace(s, [], []), pulls);
  }

  /** A fetch that fails aborts the check run: the later pull requests are
      not touched, and the run is marked failed with that fetch's error
      message after any failed merges before it. */
  lemma CheckRunAborts(c: Config, f: Faults, s: Store, pulls: seq<nat>, k: nat)
    requires IsAutoMergeEvent(c, "check_run")
    requires k < |pulls| && Fetchable(s, f, pulls[..k]) && Get(s, f, pulls[k]).Error?
    ensures var r := RunOutcome(c, f, s, CheckRun(Some(pulls)));
            && r.calls == CheckRunPlan(s, pulls[..k], c.gateLabel) + [PullsGet(pulls[k])]
            && |r.failures| >= 1
            && r.failures[|r.failures| - 1] == Get(s, f, pulls[k]).message
            && MergeFailuresOnly(c, r.failures[..|r.failures| - 1])
  {
    var t := Trace(s, [], []);
    CheckRunStops(c, f, s, t, pulls, k);
    var flow := CheckRunOutcome(c, f, t, pulls);
    var r := RunOutcome(c, f, s, CheckRun(Some(pulls)));
    assert r.failures == flow.trace.failures + [flow.message];
    assert r.failures[..|r.failures| - 1] == flow.trace.failures;
  }
}
