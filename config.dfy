/** The action's configuration: the three branch names, the two promotion
    targets, the gate label, the auto-merge trigger setting and the
    merge-failure severity, all fixed once per run. Reading them from the
    workflow is replaced by a map from input name to the value the runner
    supplies (a missing input reads as the empty string). */
module Configuration {
  import opened Options
  import opened Text

  datatype Config = Config(
    releaseBranch: string,
    devBranch: string,
    masterBranch: string,
    masterTarget: string,
    releaseTarget: string,
    gateLabel: string,
    autoMerge: string,
    requireMerge: bool)

  type Inputs = map<string, string>

  /** The value of one input, empty when it is not given. */
  function Input(inputs: Inputs, name: string): string {
    if name in inputs then inputs[name] else ""
  }

  /** `input || fallback`: an empty input takes the fallback. */
  function GetInput(inputs: Inputs, name: string, fallback: string): string {
    var input := Input(inputs, name);
    if input != [] then input else fallback
  }

  /** Every branch name, target and the label are non-empty, so a resolved
      target is never a falsy string. */
  predicate NamesGiven(c: Config) {
    c.releaseBranch != [] && c.devBranch != [] && c.masterBranch != [] &&
    c.masterTarget != [] && c.releaseTarget != [] && c.gateLabel != []
  }

  /** The configuration read at start-up, with each default in place. */
  function FromInputs(inputs: Inputs): (c: Config)
    ensures NamesGiven(c)
    ensures Input(inputs, "release") == [] ==> c.releaseBranch == "release"
    ensures Input(inputs, "dev") == [] ==> c.devBranch == "dev"
    ensures Input(inputs, "master") == [] ==> c.masterBranch == "master"
    ensures Input(inputs, "master-target") == [] ==> c.masterTarget == c.devBranch
    ensures Input(inputs, "release-target") == [] ==> c.releaseTarget == c.masterBranch
    ensures Input(inputs, "label") == [] ==> c.gateLabel == "gitflow"
    ensures Input(inputs, "auto-merge") == [] ==> c.autoMerge == "true"
    ensures c.requireMerge <==> Input(inputs, "require-merge") == "true"
    ensures Input(inputs, "release") != [] ==> c.releaseBranch == Input(inputs, "release")
    ensures Input(inputs, "dev") != [] ==> c.devBranch == Input(inputs, "dev")
    ensures Input(inputs, "master") != [] ==> c.masterBranch == Input(inputs, "master")
    ensures Input(inputs, "master-target") != [] ==> c.masterTarget == Input(inputs, "master-target")
    ensures Input(inputs, "release-target") != [] ==> c.releaseTarget == Input(inputs, "release-target")
    ensures Input(inputs, "label") != [] ==> c.gateLabel == Input(inputs, "label")
    ensures Input(inputs, "auto-merge") != [] ==> c.autoMerge == Input(inputs, "auto-merge")
  {
    var releaseBranch := GetInput(inputs, "release", "release");
    var devBranch := GetInput(inputs, "dev", "dev");
    var masterBranch := GetInput(inputs, "master", "master");
    Config(
      releaseBranch,
      devBranch,
      masterBranch,
      GetInput(inputs, "master-target", devBranch),
      GetInput(inputs, "release-target", masterBranch),
      GetInput(inputs, "label", "gitflow"),
      GetInput(inputs, "auto-merge", "true"),
      GetInput(inputs, "require-merge", "false") == "true")
  }

  /** The branch a pushed branch is promoted into: the release branch goes to
      the release target, the master branch to the master target (the release
      case is tested first), any other branch to none. */
  function Target(c: Config, head: string): (r: Option<string>)
    ensures r == None <==> head != c.releaseBranch && head != c.masterBranch
    ensures head == c.releaseBranch ==> r == Some(c.releaseTarget)
    ensures head != c.releaseBranch && head == c.masterBranch ==> r == Some(c.masterTarget)
  {
    if head == c.releaseBranch then Some(c.releaseTarget)
    else if head == c.masterBranch then Some(c.masterTarget)
    else None
  }

  /** With the default names and targets, release promotes into master and
      master into dev. */
  lemma DefaultTargets()
    ensures Target(FromInputs(map[]), "release") == Some("master")
    ensures Target(FromInputs(map[]), "master") == Some("dev")
    ensures Target(FromInputs(map[]), "dev") == None
  {
  }

  /** Every piece trimmed, in order. */
  function TrimEach(parts: seq<string>): (r: seq<string>)
    ensures |r| == |parts|
    ensures forall i :: 0 <= i < |r| ==> r[i] == Trim(parts[i])
  {
    if parts == [] then [] else [Trim(parts[0])] + TrimEach(parts[1..])
  }

  /** The entries of the auto-merge setting: split on commas, each trimmed. */
  function TriggerList(c: Config): seq<string> {
    TrimEach(Split(c.autoMerge, ','))
  }

  /** `isAutoMergeEvent`: may this event kind trigger a merge? */
  function IsAutoMergeEvent(c: Config, eventName: string): bool {
    c.autoMerge == "true" || eventName in TriggerList(c)
  }

  /** Every event kind may trigger a merge when the setting is exactly
      "true"; otherwise exactly the kinds equal to some trimmed
      comma-separated entry of the setting. */
  lemma AutoMergeEventIff(c: Config, eventName: string)
    ensures c.autoMerge == "true" ==> IsAutoMergeEvent(c, eventName)
    ensures c.autoMerge != "true" ==>
      (IsAutoMergeEvent(c, eventName) <==>
       exists i :: 0 <= i < |Split(c.autoMerge, ',')| && Trim(Split(c.autoMerge, ',')[i]) == eventName)
  {
    if c.autoMerge != "true" && IsAutoMergeEvent(c, eventName) {
      var i :| 0 <= i < |TriggerList(c)| && TriggerList(c)[i] == eventName;
      assert Trim(Split(c.autoMerge, ',')[i]) == eventName;
    }
  }

  /** A setting without a comma (other than "true") enables exactly the one
      event kind it names, ignoring surrounding white space. */
  lemma SingleTrigger(c: Config, eventName: string)
    requires c.autoMerge != "true" && ',' !in c.autoMerge
    ensures IsAutoMergeEvent(c, eventName) <==> eventName == Trim(c.autoMerge)
  {
    assert TriggerList(c) == [Trim(c.autoMerge)] by {
      SplitJoin([c.autoMerge], ',');
    }
  }

  /** A setting of two comma-separated entries enables exactly the two event
      kinds they name, each with its surrounding white space trimmed away
      ("push, check_run" enables pushes and check runs). */
  lemma TwoTriggers(c: Config, first: string, second: string, eventName: string)
    requires ',' !in first && ',' !in second
    requires c.autoMerge == first + [','] + second
    ensures IsAutoMergeEvent(c, eventName) <==> eventName == Trim(first) || eventName == Trim(second)
  {
    TwoEntries(c, first, second);
  }

  lemma TwoEntries(c: Config, first: string, second: string)
    requires ',' !in first && ',' !in second
    requires c.autoMerge == first + [','] + second
    ensures c.autoMerge != "true"
    ensures TriggerList(c) == [Trim(first), Trim(second)]
  {
    assert c.autoMerge != "true" by {
      CommaNotTrue(c.autoMerge, |first|);
    }
    assert Split(c.autoMerge, ',') == [first, second] by {
      SplitTwo(first, second);
    }
    TrimEachTwo(first, second);
  }

  lemma TrimEachTwo(first: string, second: string)
    ensures TrimEach([first, second]) == [Trim(first), Trim(second)]
  {
    assert [first, second][1..] == [second];
    assert TrimEach([second]) == [Trim(second)] by {
      assert [second][1..] == [];
    }
  }

  /** A setting with a comma is not the literal "true". */
  lemma CommaNotTrue(s: string, k: nat)
    requires k < |s| && s[k] == ','
    ensures s != "true"
  {
  }

  lemma SplitTwo(first: string, second: string)
    requires ',' !in first && ',' !in second
    ensures Split(first + [','] + second, ',') == [first, second]
  {
    SplitJoin([first, second], ',');
  }
}

/** The label gate: a pull request may be merged by the action only when one
    of its labels is named like the configured label. */
module Labels {

  /** A label as the platform reports it; only its name matters. */
  datatype Label = Label(name: string)

  /** `labels.map(labelMap)`: the names, in order. */
  function Names(labels: seq<Label>): (r: seq<string>)
    ensures |r| == |labels|
    ensures forall i :: 0 <= i < |r| ==> r[i] == labels[i].name
  {
    if labels == [] then [] else [labels[0].name] + Names(labels[1..])
  }

  /** `labels.map(labelMap).includes(gate)`. */
  function HasLabel(labels: seq<Label>, gate: string): (b: bool)
    ensures b <==> exists i :: 0 <= i < |labels| && labels[i].name == gate
  {
    gate in Names(labels)
  }
}
