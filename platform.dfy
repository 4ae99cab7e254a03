/** The hosting platform as the action sees it through its REST client: the
    pull requests of the repository, five calls on them, and two oracles
    that decide which calls fail. Authentication, the repository owner and
    the HTTP transport are not modelled; a call either answers from the store
    or fails with a message. */
module Platform {
  import opened Options
  import opened Text
  import opened Labels

  datatype PullRequest = PullRequest(
    number: nat,
    head: string,
    base: string,
    title: string,
    open: bool,
    labels: seq<Label>)

  /** The repository's pull requests, and the number the platform gives to
      the next one created. */
  datatype Store = Store(pulls: seq<PullRequest>, nextNumber: nat)

  /** Numbers identify pull requests, and every number in use was handed
      out before `nextNumber`. */
  predicate Valid(s: Store) {
    (forall i :: 0 <= i < |s.pulls| ==> s.pulls[i].number < s.nextNumber) &&
    (forall i, j :: 0 <= i < j < |s.pulls| ==> s.pulls[i].number != s.pulls[j].number)
  }

  /** The calls the action makes, with the arguments that matter to it. */
  datatype Call =
    | PullsList(head: string, base: string)
    | PullsGet(number: nat)
    | PullsCreate(head: string, base: string, title: string)
    | IssuesAddLabels(number: nat, names: seq<string>)
    | PullsMerge(number: nat)

  /** The failure oracles: calls that fail with a transport or authorisation
      error (and its message), and pull requests whose merge the platform
      rejects (conflicts, branch protection, checks not green). */
  datatype Faults = Faults(errors: map<Call, string>, unmergeable: set<nat>)

  /** No call fails for transport reasons. */
  predicate Reliable(f: Faults) {
    f.errors == map[]
  }

  /** A call's answer with the store after it, or the message it fails with;
      a failed call changes nothing. */
  datatype Reply<T> = Ok(value: T, store: Store) | Error(message: string)

  const NotFound := "Not Found"
  const NotMergeable := "Pull Request is not mergeable"

  predicate Matches(p: PullRequest, head: string, base: string) {
    p.open && p.head == head && p.base == base
  }

  /** The open pull requests from `head` into `base`, in store order. */
  function Matching(pulls: seq<PullRequest>, head: string, base: string): (r: seq<PullRequest>)
    ensures |r| <= |pulls|
    ensures forall p :: p in r <==> p in pulls && Matches(p, head, base)
  {
    if pulls == [] then []
    else
      var rest := Matching(pulls[1..], head, base);
      assert forall p :: p in pulls <==> p == pulls[0] || p in pulls[1..];
      if Matches(pulls[0], head, base) then [pulls[0]] + rest else rest
  }

  /** The list holds each matching pull request as often as the store does,
      and no other. */
  lemma {:induction false} MatchingCounts(pulls: seq<PullRequest>, head: string, base: string)
    ensures forall p :: multiset(Matching(pulls, head, base))[p] ==
                        if Matches(p, head, base) then multiset(pulls)[p] else 0
  {
    if pulls != [] {
      MatchingCounts(pulls[1..], head, base);
      assert pulls == [pulls[0]] + pulls[1..];
      assert multiset(pulls) == multiset([pulls[0]]) + multiset(pulls[1..]);
    }
  }

  /** Where the pull request numbered `n` sits in the store. */
  function IndexOf(pulls: seq<PullRequest>, n: nat): (r: Option<nat>)
    ensures r.Some? ==> r.value < |pulls| && pulls[r.value].number == n
    ensures r.None? <==> forall i :: 0 <= i < |pulls| ==> pulls[i].number != n
  {
    if pulls == [] then None
    else if pulls[0].number == n then Some(0)
    else
      match IndexOf(pulls[1..], n)
      case None => None
      case Some(i) => Some(i + 1)
  }

  /** `pulls.list` with state "open". */
  function List(s: Store, f: Faults, head: string, base: string): Reply<seq<PullRequest>> {
    var call := PullsList(head, base);
    if call in f.errors then Error(f.errors[call]) else Ok(Matching(s.pulls, head, base), s)
  }

  /** `pulls.get`: fails for a number the store does not hold. */
  function Get(s: Store, f: Faults, n: nat): Reply<PullRequest> {
    var call := PullsGet(n);
    if call in f.errors then Error(f.errors[call])
    else
      match IndexOf(s.pulls, n)
      case None => Error(NotFound)
      case Some(i) => Ok(s.pulls[i], s)
  }

  /** `pulls.create`: a new open pull request, without labels, numbered
      `nextNumber`. */
  function Create(s: Store, f: Faults, head: string, base: string, title: string): Reply<nat> {
    var call := PullsCreate(head, base, title);
    if call in f.errors then Error(f.errors[call])
    else
      var p := PullRequest(s.nextNumber, head, base, title, true, []);
      Ok(s.nextNumber, Store(s.pulls + [p], s.nextNumber + 1))
  }

  /** The labels after adding `names`: those already present are kept once. */
  function WithNames(labels: seq<Label>, names: seq<string>): (r: seq<Label>)
    ensures forall g :: HasLabel(r, g) <==> HasLabel(labels, g) || g in names
    decreases names
  {
    if names == [] then labels
    else
      assert forall g :: g in names <==> g == names[0] || g in names[1..];
      if HasLabel(labels, names[0]) then WithNames(labels, names[1..])
      else
        var more := labels + [Label(names[0])];
        assert more[|labels|].name == names[0];
        assert forall i :: 0 <= i < |labels| ==> more[i] == labels[i];
        WithNames(more, names[1..])
  }

  /** `issues.addLabels`. */
  function AddLabels(s: Store, f: Faults, n: nat, names: seq<string>): Reply<()> {
    var call := IssuesAddLabels(n, names);
    if call in f.errors then Error(f.errors[call])
    else
      match IndexOf(s.pulls, n)
      case None => Error(NotFound)
      case Some(i) =>
        var p := s.pulls[i];
        Ok((), s.(pulls := s.pulls[i := p.(labels := WithNames(p.labels, names))]))
  }

  /** `pulls.merge`: rejected exactly when the call fails for transport
      reasons, the number is unknown, the pull request is closed, or the
      platform refuses it (conflicts, branch protection, failing checks);
      otherwise it closes exactly that pull request. */
  function Merge(s: Store, f: Faults, n: nat): Reply<()> {
    var call := PullsMerge(n);
    if call in f.errors then Error(f.errors[call])
    else
      match IndexOf(s.pulls, n)
      case None => Error(NotFound)
      case Some(i) =>
        if !s.pulls[i].open || n in f.unmergeable then Error(NotMergeable)
        else Ok((), s.(pulls := s.pulls[i := s.pulls[i].(open := false)]))
  }
}
