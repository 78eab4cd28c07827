/** The configuration of the DMDc surrogate as derived from its input block:
    the subset checks, the output variables and the scheduling parameters. */
module DmdcConfig {
  import opened PyErrors

  /** Everything the surrogate keeps from its input. `parameters` is a set:
      the source builds it with `list(set(...))`, whose order is unspecified. */
  datatype Config = Config(
    features: seq<string>,
    targets: seq<string>,
    pivot: string,
    actuators: seq<string>,
    states: seq<string>,
    initStates: seq<string>,
    center: bool,
    rankSVD: Option<int>,
    outputs: seq<string>,
    parameters: set<string>)

  predicate SubsetOf(xs: seq<string>, ys: seq<string>) {
    forall x | x in xs :: x in ys
  }

  /** `[x for x in targets if x not in set(states) | {pivot}]` */
  function KeepOutputs(targets: seq<string>, states: seq<string>, pivot: string): (outs: seq<string>)
    ensures forall x :: x in outs <==> (x in targets && x !in states && x != pivot)
    ensures |outs| <= |targets|
  {
    if targets == [] then []
    else
      var rest := KeepOutputs(targets[1..], states, pivot);
      assert forall x | x in targets :: x == targets[0] || x in targets[1..];
      if targets[0] !in states && targets[0] != pivot then [targets[0]] + rest else rest
  }

  /** `a` is `b` with some elements left out, the others in their order. */
  predicate IsSubsequence(a: seq<string>, b: seq<string>)
    decreases |b|
  {
    if a == [] then true
    else if b == [] then false
    else (a[0] == b[0] && IsSubsequence(a[1..], b[1..])) || IsSubsequence(a, b[1..])
  }

  /** The outputs keep the order of the targets. */
  lemma {:induction false} OutputsInTargetOrder(targets: seq<string>, states: seq<string>, pivot: string)
    ensures IsSubsequence(KeepOutputs(targets, states, pivot), targets)
  {
    if targets != [] {
      OutputsInTargetOrder(targets[1..], states, pivot);
      var rest := KeepOutputs(targets[1..], states, pivot);
      if targets[0] !in states && targets[0] != pivot {
        assert ([targets[0]] + rest)[1..] == rest;
      } else if rest != [] {
        assert IsSubsequence(rest, targets[1..]);
      }
    }
  }

  /** `_handleInput`: the state variables must be targets and the
      initialisation variables must be features, otherwise an IOError is
      raised (state variables are checked first). */
  function HandleInput(features: seq<string>, targets: seq<string>, pivot: string,
                       actuators: seq<string>, states: seq<string>, initStates: seq<string>,
                       center: bool, rankSVD: Option<int>): (r: Result<Config>)
    ensures r.Err? <==> !SubsetOf(states, targets) || !SubsetOf(initStates, features)
    ensures r.Err? ==> r.error == IOError
    ensures r.Ok? ==> r.value.features == features && r.value.targets == targets && r.value.pivot == pivot
    ensures r.Ok? ==> r.value.actuators == actuators && r.value.states == states && r.value.initStates == initStates
    ensures r.Ok? ==> r.value.center == center && r.value.rankSVD == rankSVD
    ensures r.Ok? ==> r.value.outputs == KeepOutputs(targets, states, pivot)
    ensures r.Ok? ==> forall x :: x in r.value.parameters <==> (x in features && x !in actuators && x !in initStates)
  {
    if !SubsetOf(states, targets) then Err(IOError)
    else if !SubsetOf(initStates, features) then Err(IOError)
    else
      var parameters := set x | x in features && x !in actuators && x !in initStates;
      Ok(Config(features, targets, pivot, actuators, states, initStates, center, rankSVD,
                KeepOutputs(targets, states, pivot), parameters))
  }

  /** What every accepted configuration satisfies. */
  ghost predicate WellFormed(c: Config) {
    && SubsetOf(c.states, c.targets)
    && SubsetOf(c.initStates, c.features)
    && c.outputs == KeepOutputs(c.targets, c.states, c.pivot)
    && (forall x :: x in c.parameters <==> (x in c.features && x !in c.actuators && x !in c.initStates))
  }
}
