/** The DMDc surrogate object: training identifies one (A, B, C) triple per
    sample and stores it in preallocated arrays; evaluation picks a sample
    (the first, or the nearest in the scheduling parameters), propagates
    x[k+1] = A x[k] + B u[k] from the supplied initial state and observes
    y[k] = C x[k]. */
module DmdcSurrogate {
  import opened PyErrors
  import opened Matrices
  import opened DmdcConfig
  import opened DmdcIdentify
  import opened DmdcData
  import opened PyList

  /** What a successful training leaves behind. The trajectories are kept
      per sample and time step: `states[s][t]` is the state vector of
      sample `s` at time `t`. */
  datatype Trained = Trained(
    states: Tensor,
    actuators: Tensor,
    outputs: Tensor,
    parameterValues: seq<map<string, real>>,
    pivotValues: Vec,
    models: seq<Triple>,
    t0: real,
    intervals: int,
    dt: real)

  predicate ModelShaped(t: Triple, n: nat, m: nat, p: nat) {
    && t.a.Valid() && t.b.Valid() && t.c.Valid()
    && t.a.HasShape(n, n) && t.b.HasShape(n, m) && t.c.HasShape(p, n)
  }

  /** What every successfully trained surrogate satisfies: at least one
      sample, at least two time marks, at least one state, actuator and
      output, data of consistent shape and one well-shaped triple per
      sample. */
  ghost predicate BankShaped(c: Config, b: Trained) {
    var samples := |b.models|;
    var steps := |b.pivotValues|;
    && samples >= 1 && steps >= 2
    && |c.states| >= 1 && |c.actuators| >= 1 && |c.outputs| >= 1
    && |b.parameterValues| == samples
    && Shaped(b.states, samples, steps, |c.states|)
    && Shaped(b.actuators, samples, steps, |c.actuators|)
    && Shaped(b.outputs, samples, steps, |c.outputs|)
    && (forall i | 0 <= i < samples :: ModelShaped(b.models[i], |c.states|, |c.actuators|, |c.outputs|))
  }

  /** The state variables of every sample: `targetVals[:, :, index(st)]`. */
  function StateData(c: Config, tv: Tensor, samples: nat, steps: nat): (x: Tensor)
    requires WellFormed(c) && Shaped(tv, samples, steps, |c.targets|)
    ensures Shaped(x, samples, steps, |c.states|)
    ensures forall s, t, k | 0 <= s < samples && 0 <= t < steps && 0 <= k < |c.states| ::
              x[s][t][k] == tv[s][t][FirstIndex(c.targets, c.states[k])]
  {
    Select(tv, samples, steps, |c.targets|, Positions(c.states, c.targets).value)
  }

  /** The output variables of every sample. */
  function OutputData(c: Config, tv: Tensor, samples: nat, steps: nat): (y: Tensor)
    requires WellFormed(c) && Shaped(tv, samples, steps, |c.targets|)
    ensures Shaped(y, samples, steps, |c.outputs|)
    ensures forall s, t, k | 0 <= s < samples && 0 <= t < steps && 0 <= k < |c.outputs| ::
              y[s][t][k] == tv[s][t][FirstIndex(c.targets, c.outputs[k])]
  {
    assert SubsetOf(c.outputs, c.targets);
    Select(tv, samples, steps, |c.targets|, Positions(c.outputs, c.targets).value)
  }

  /** The actuator variables of every sample. */
  function ActuatorData(c: Config, fv: Tensor, samples: nat, steps: nat): (u: Tensor)
    requires Shaped(fv, samples, steps, |c.features|) && SubsetOf(c.actuators, c.features)
    ensures Shaped(u, samples, steps, |c.actuators|)
    ensures forall s, t, k | 0 <= s < samples && 0 <= t < steps && 0 <= k < |c.actuators| ::
              u[s][t][k] == fv[s][t][FirstIndex(c.features, c.actuators[k])]
  {
    Select(fv, samples, steps, |c.features|, Positions(c.actuators, c.features).value)
  }

  /** The scheduling parameters of one sample, read at its first time step. */
  function ParameterPoint(c: Config, row: Vec): (q: map<string, real>)
    requires WellFormed(c) && |row| == |c.features|
    ensures q.Keys == c.parameters
    ensures forall par | par in q :: q[par] == row[FirstIndex(c.features, par)]
  {
    map par | par in c.parameters :: row[FirstIndex(c.features, par)]
  }

  /** The table the nearest-neighbour search is fitted on, one point per
      sample (all empty when there are no scheduling parameters). */
  function ParameterTable(c: Config, fv: Tensor, samples: nat, steps: nat): (tbl: seq<map<string, real>>)
    requires WellFormed(c) && Shaped(fv, samples, steps, |c.features|)
    requires c.parameters != {} ==> steps >= 1
    ensures |tbl| == samples
  {
    if c.parameters == {} then seq(samples, _ => map[])
    else seq(samples, s requires 0 <= s < samples => ParameterPoint(c, fv[s][0]))
  }

  /** The identification of one sample from its state, actuator and output
      trajectories (centred on their first values when configured). */
  function IdentifySample(c: Config, num: Numerics, st: seq<Vec>, ac: seq<Vec>, ou: seq<Vec>): (r: Result<Triple>)
    requires num.Sound()
    requires Rows(st, |c.states|) && Rows(ac, |c.actuators|) && Rows(ou, |c.outputs|)
    requires |ac| == |st| && |ou| == |st| && (c.center ==> |st| >= 1)
    ensures r.Ok? ==> ModelShaped(r.value, |c.states|, |c.actuators|, |c.outputs|)
    ensures r.Err? ==> r.error == RuntimeError
  {
    var x1 := Earlier(st, |c.states|, c.center);
    var x2 := Later(st, |c.states|, c.center);
    var u := Earlier(ac, |c.actuators|, c.center);
    var y1 := Earlier(ou, |c.outputs|, c.center);
    IdentifiedShapes(num, x1, x2, u, y1, c.rankSVD, |c.states|, |c.actuators|, |c.outputs|, Pairs(|st|));
    EvaluateMatrices(num, x1, x2, u, y1, c.rankSVD)
  }

  ghost predicate SampleData(c: Config, st: Tensor, ac: Tensor, ou: Tensor, steps: nat) {
    && Shaped(st, |st|, steps, |c.states|)
    && Shaped(ac, |st|, steps, |c.actuators|)
    && Shaped(ou, |st|, steps, |c.outputs|)
    && (c.center ==> steps >= 1)
  }

  /** The outcome of identifying each of the first `k` samples, in
      sample order. */
  function Identified(c: Config, num: Numerics, st: Tensor, ac: Tensor, ou: Tensor, steps: nat, k: nat): (rs: seq<Result<Triple>>)
    requires num.Sound() && SampleData(c, st, ac, ou, steps) && k <= |st|
    ensures |rs| == k
    ensures forall i | 0 <= i < k :: rs[i].Ok? ==> ModelShaped(rs[i].value, |c.states|, |c.actuators|, |c.outputs|)
    ensures forall i | 0 <= i < k :: rs[i].Err? ==> rs[i].error == RuntimeError
  {
    if k == 0 then []
    else Identified(c, num, st, ac, ou, steps, k - 1) + [IdentifySample(c, num, st[k - 1], ac[k - 1], ou[k - 1])]
  }

  /** Entry `i` of the outcomes is the identification of sample `i`. */
  lemma {:induction false} IdentifiedAt(c: Config, num: Numerics, st: Tensor, ac: Tensor, ou: Tensor, steps: nat, k: nat, i: nat)
    requires num.Sound() && SampleData(c, st, ac, ou, steps) && i < k <= |st|
    ensures Identified(c, num, st, ac, ou, steps, k)[i] == IdentifySample(c, num, st[i], ac[i], ou[i])
  {
    if i < k - 1 {
      IdentifiedAt(c, num, st, ac, ou, steps, k - 1, i);
    }
  }

  /** The triples of the first `k` samples, or the error of the first
      sample whose identification fails. */
  function IdentifyAll(c: Config, num: Numerics, st: Tensor, ac: Tensor, ou: Tensor, steps: nat, k: nat): (r: Result<seq<Triple>>)
    requires num.Sound() && SampleData(c, st, ac, ou, steps) && k <= |st|
    ensures r.Ok? ==> |r.value| == k
    ensures r.Ok? ==> forall i | 0 <= i < k :: ModelShaped(r.value[i], |c.states|, |c.actuators|, |c.outputs|)
    ensures r.Err? ==> r.error == RuntimeError
  {
    AllOrFirstError(Identified(c, num, st, ac, ou, steps, |st|), k)
  }

  /** One more sample extends a successful prefix or ends it with that
      sample's error. */
  lemma IdentifyAllExtends(c: Config, num: Numerics, st: Tensor, ac: Tensor, ou: Tensor, steps: nat, k: nat, models: seq<Triple>)
    requires num.Sound() && SampleData(c, st, ac, ou, steps) && k < |st|
    requires IdentifyAll(c, num, st, ac, ou, steps, k) == Ok(models)
    ensures var t := IdentifySample(c, num, st[k], ac[k], ou[k]);
            IdentifyAll(c, num, st, ac, ou, steps, k + 1) == if t.Err? then Err(t.error) else Ok(models + [t.value])
  {
    IdentifiedAt(c, num, st, ac, ou, steps, |st|, k);
  }

  /** The checks `__trainLocal__` meets before its loop, in order: the
      parameter table at time 0 of no samples, an actuator that is not a
      feature, a pivot that is not a target, no sample at all, and an
      empty group of states, actuators or outputs (numpy cannot index a
      1-D array built from an empty list). */
  function TrainGuard(c: Config, samples: nat, steps: nat): (r: Outcome)
    ensures r.Pass? <==>
              && samples >= 1 && SubsetOf(c.actuators, c.features) && c.pivot in c.targets
              && |c.states| >= 1 && |c.actuators| >= 1 && |c.outputs| >= 1
              && (c.parameters != {} || c.center ==> steps >= 1)
    ensures r.Fail? ==> r.error in {IndexError, ValueError}
    ensures r.Fail? && samples >= 1 && steps >= 1 ==>
              (r.error == ValueError <==> !SubsetOf(c.actuators, c.features) || c.pivot !in c.targets)
  {
    var hasParameters := c.parameters != {};
    if hasParameters && steps == 0 then Fail(IndexError)
    else if hasParameters && samples == 0 then Fail(ValueError)
    else if !SubsetOf(c.actuators, c.features) then Fail(ValueError)
    else if c.pivot !in c.targets then Fail(ValueError)
    else if samples == 0 then Fail(IndexError)
    else if |c.states| == 0 || |c.actuators| == 0 || |c.outputs| == 0 || (c.center && steps == 0) then Fail(IndexError)
    else Pass
  }

  /** `__trainLocal__`, as a function of the configuration and the data.
      The exceptions arise in the order the source meets them: those of
      `TrainGuard`, a failed identification, and finally fewer than two
      time marks for the time step. */
  function TrainSpec(c: Config, num: Numerics, fv: Tensor, tv: Tensor, steps: nat): (r: Result<Trained>)
    requires WellFormed(c) && num.Sound()
    requires Shaped(fv, |fv|, steps, |c.features|) && Shaped(tv, |fv|, steps, |c.targets|)
    ensures r.Ok? ==> BankShaped(c, r.value) && |r.value.models| == |fv| && |r.value.pivotValues| == steps
    ensures r.Err? ==> r.error in {IndexError, ValueError, RuntimeError}
  {
    var samples := |fv|;
    var guard := TrainGuard(c, samples, steps);
    if guard.Fail? then Err(guard.error)
    else
      var st := StateData(c, tv, samples, steps);
      var ac := ActuatorData(c, fv, samples, steps);
      var ou := OutputData(c, tv, samples, steps);
      var models := IdentifyAll(c, num, st, ac, ou, steps, samples);
      if models.Err? then Err(models.error)
      else if steps < 2 then Err(IndexError)
      else Ok(Kept(c, fv, tv, steps, models.value))
  }

  /** The bank kept after a successful training: the selected trajectories,
      the identified triples, the parameter table, and the pivot series of
      the first sample with its start, interval count and step. */
  function Kept(c: Config, fv: Tensor, tv: Tensor, steps: nat, models: seq<Triple>): Trained
    requires WellFormed(c) && |fv| >= 1 && steps >= 2 && c.pivot in c.targets && SubsetOf(c.actuators, c.features)
    requires Shaped(fv, |fv|, steps, |c.features|) && Shaped(tv, |fv|, steps, |c.targets|)
  {
    var samples := |fv|;
    var pivot := Series(tv[0], FirstIndex(c.targets, c.pivot));
    Trained(StateData(c, tv, samples, steps), ActuatorData(c, fv, samples, steps), OutputData(c, tv, samples, steps),
            ParameterTable(c, fv, samples, steps), pivot, models, pivot[0], steps - 1, pivot[1] - pivot[0])
  }

  /** Training succeeds exactly when there is at least one sample and two
      time steps, every role names at least one variable, the actuators are
      features, the pivot is a target, and every sample is identified. */
  lemma TrainSucceeds(c: Config, num: Numerics, fv: Tensor, tv: Tensor, steps: nat)
    requires WellFormed(c) && num.Sound()
    requires Shaped(fv, |fv|, steps, |c.features|) && Shaped(tv, |fv|, steps, |c.targets|)
    ensures TrainSpec(c, num, fv, tv, steps).Ok? <==>
              && |fv| >= 1 && steps >= 2
              && |c.states| >= 1 && |c.actuators| >= 1 && |c.outputs| >= 1
              && SubsetOf(c.actuators, c.features) && c.pivot in c.targets
              && IdentifyAll(c, num, StateData(c, tv, |fv|, steps), ActuatorData(c, fv, |fv|, steps),
                             OutputData(c, tv, |fv|, steps), steps, |fv|).Ok?
  {
  }

  /** What a successful training keeps: the selected state, actuator and
      output trajectories, the identified triples, the pivot series of the
      first sample with its time marks, and the parameter table. */
  lemma TrainedFields(c: Config, num: Numerics, fv: Tensor, tv: Tensor, steps: nat)
    requires WellFormed(c) && num.Sound()
    requires Shaped(fv, |fv|, steps, |c.features|) && Shaped(tv, |fv|, steps, |c.targets|)
    requires TrainSpec(c, num, fv, tv, steps).Ok?
    ensures |fv| >= 1 && steps >= 2 && c.pivot in c.targets
    ensures var b := TrainSpec(c, num, fv, tv, steps).value;
            && b.states == StateData(c, tv, |fv|, steps)
            && b.actuators == ActuatorData(c, fv, |fv|, steps)
            && b.outputs == OutputData(c, tv, |fv|, steps)
            && b.models == IdentifyAll(c, num, b.states, b.actuators, b.outputs, steps, |fv|).value
            && b.parameterValues == ParameterTable(c, fv, |fv|, steps)
    ensures var b := TrainSpec(c, num, fv, tv, steps).value;
            && (forall t | 0 <= t < steps :: b.pivotValues[t] == tv[0][t][FirstIndex(c.targets, c.pivot)])
            && b.t0 == b.pivotValues[0] && b.intervals == steps - 1 && b.dt == b.pivotValues[1] - b.pivotValues[0]
  {
  }

  /** Each trained triple is the identification of its own sample. */
  lemma TrainedPerSample(c: Config, num: Numerics, fv: Tensor, tv: Tensor, steps: nat, s: nat)
    requires WellFormed(c) && num.Sound()
    requires Shaped(fv, |fv|, steps, |c.features|) && Shaped(tv, |fv|, steps, |c.targets|)
    requires TrainSpec(c, num, fv, tv, steps).Ok? && s < |fv|
    ensures var b := TrainSpec(c, num, fv, tv, steps).value;
            IdentifySample(c, num, b.states[s], b.actuators[s], b.outputs[s]) == Ok(b.models[s])
  {
    var b := TrainSpec(c, num, fv, tv, steps).value;
    IdentifiedAt(c, num, b.states, b.actuators, b.outputs, steps, |fv|, s);
  }

  /** The nearest-neighbour search fitted on labels `0 .. S-1` answers one
      of those labels. */
  type Nearest = (seq<map<string, real>>, map<string, real>) -> int

  ghost predicate NearestInRange(nearest: Nearest) {
    forall tbl: seq<map<string, real>>, q: map<string, real> | |tbl| >= 1 :: 0 <= nearest(tbl, q) < |tbl|
  }

  /** The sample whose triple evaluates a request: the first one without
      scheduling parameters, else the nearest in the parameter values. */
  function ChosenSample(c: Config, b: Trained, fv: Tensor, nearest: Nearest): (index: nat)
    requires WellFormed(c) && BankShaped(c, b) && NearestInRange(nearest)
    requires |fv| >= 1 && |fv[0]| >= 1 && |fv[0][0]| == |c.features|
    ensures index < |b.models|
    ensures c.parameters == {} ==> index == 0
  {
    if c.parameters == {} then 0 else nearest(b.parameterValues, ParameterPoint(c, fv[0][0]))
  }

  /** The prepared rollout: the chosen sample, the positions of the
      actuators among the features, the (centred) initial state and
      inputs, and the references added back at the end. */
  datatype Setup = Setup(index: nat, actIdx: seq<nat>, x0: Vec, us: seq<Vec>, xRef: Vec, yRef: Vec)

  /** The (centred) value of a vector: `v - ref` when centring. */
  function Centred(v: Vec, ref: Vec, center: bool): (r: Vec)
    requires |v| == |ref|
    ensures |r| == |v|
  {
    if center then Sub(v, ref) else v
  }

  /** The inverse of `Centred`. */
  function Decentred(v: Vec, ref: Vec, center: bool): (r: Vec)
    requires |v| == |ref|
    ensures |r| == |v|
  {
    if center then Add(v, ref) else v
  }

  /** Adding the reference back undoes the centring. */
  lemma CentringRoundTrip(v: Vec, ref: Vec, center: bool)
    requires |v| == |ref|
    ensures Decentred(Centred(v, ref, center), ref, center) == v
  {
    if center {
      assert forall i | 0 <= i < |v| :: Add(Sub(v, ref), ref)[i] == v[i];
    }
  }

  /** The initial state of the request, centred on the first state of
      the chosen sample when configured. */
  function InitialState(c: Config, b: Trained, request: seq<Vec>, index: nat): (x0: Vec)
    requires WellFormed(c) && BankShaped(c, b) && index < |b.models|
    requires |request| >= 1 && |request[0]| == |c.features| && |c.initStates| == |c.states|
    ensures |x0| == |c.states|
  {
    Centred(Pick(request[0], Positions(c.initStates, c.features).value),
            Reference(b.states[index], |c.states|, c.center), c.center)
  }

  /** The actuator vectors of the request, centred on the first actuator
      values of the chosen sample when configured. */
  function Inputs(c: Config, b: Trained, request: seq<Vec>, steps: nat, index: nat): (us: seq<Vec>)
    requires WellFormed(c) && BankShaped(c, b) && index < |b.models|
    requires SubsetOf(c.actuators, c.features) && Rows(request, |c.features|) && |request| == steps
    ensures |us| == steps && forall t | 0 <= t < steps :: |us[t]| == |c.actuators|
  {
    var actIdx := Positions(c.actuators, c.features).value;
    var uRef := Reference(b.actuators[index], |c.actuators|, c.center);
    seq(steps, t requires 0 <= t < steps => Centred(Pick(request[t], actIdx), uRef, c.center))
  }

  /** The checks of `__evaluateLocal__` before the rollout, in the order
      the source meets them. Only a single request evaluates: the initial
      state of every request is written into the slot of the first. */
  function EvalSetup(c: Config, b: Trained, fv: Tensor, steps: nat, nearest: Nearest): (r: Result<Setup>)
    requires WellFormed(c) && BankShaped(c, b) && NearestInRange(nearest)
    requires Shaped(fv, |fv|, steps, |c.features|)
    ensures r.Ok? <==> steps >= 1 && |fv| == 1 && SubsetOf(c.actuators, c.features) && |c.initStates| == |c.states|
    ensures r.Ok? ==> r.value.index == ChosenSample(c, b, fv, nearest)
    ensures r.Ok? ==> r.value.x0 == InitialState(c, b, fv[0], r.value.index)
    ensures r.Ok? ==> r.value.us == Inputs(c, b, fv[0], steps, r.value.index)
    ensures r.Ok? ==> r.value.xRef == Reference(b.states[r.value.index], |c.states|, c.center)
    ensures r.Ok? ==> r.value.yRef == Reference(b.outputs[r.value.index], |c.outputs|, c.center)
    ensures r.Ok? ==> r.value.actIdx == Positions(c.actuators, c.features).value
    ensures r.Ok? ==> IndicesBelow(r.value.actIdx, |c.features|) && |r.value.actIdx| == |c.actuators|
    ensures r.Ok? ==> |r.value.x0| == |c.states| && |r.value.xRef| == |c.states| && |r.value.yRef| == |c.outputs|
    ensures r.Ok? ==> |r.value.us| == steps && forall t | 0 <= t < steps :: |r.value.us[t]| == |c.actuators|
    ensures r.Err? ==> r.error in {IndexError, ValueError}
  {
    var hasParameters := c.parameters != {};
    if hasParameters && steps == 0 then Err(IndexError)
    else if hasParameters && |fv| == 0 then Err(ValueError)
    else if !SubsetOf(c.actuators, c.features) then Err(ValueError)
    else if |c.initStates| == 0 || steps == 0 then Err(IndexError)
    else if |fv| != 1 || |c.initStates| != |c.states| then Err(ValueError)
    else
      var index := ChosenSample(c, b, fv, nearest);
      Ok(Setup(index, Positions(c.actuators, c.features).value,
               InitialState(c, b, fv[0], index), Inputs(c, b, fv[0], steps, index),
               Reference(b.states[index], |c.states|, c.center),
               Reference(b.outputs[index], |c.outputs|, c.center)))
  }

  /** The self-propagation x[0] = x0, x[k+1] = A x[k] + B u[k]. */
  function Rollout(a: Mat, b: Mat, x0: Vec, us: seq<Vec>, steps: nat): (xs: seq<Vec>)
    requires a.Valid() && b.Valid() && a.HasShape(|x0|, |x0|) && b.rows == |x0|
    requires steps >= 1 && steps - 1 <= |us| && forall t | 0 <= t < |us| :: |us[t]| == b.cols
    ensures |xs| == steps && xs[0] == x0
    ensures forall t | 0 <= t < steps :: |xs[t]| == |x0|
    ensures forall t | 0 <= t < steps - 1 :: xs[t + 1] == Add(MatVec(a, xs[t]), MatVec(b, us[t]))
  {
    if steps == 1 then [x0]
    else
      var prev := Rollout(a, b, x0, us, steps - 1);
      prev + [Add(MatVec(a, prev[steps - 2]), MatVec(b, us[steps - 2]))]
  }

  /** The returned dictionary: the actuator signals as given, then the
      predicted states, then the observed outputs, then the time marks;
      a later entry replaces an earlier one of the same name. */
  function Assemble(c: Config, b: Trained, request: seq<Vec>, xs: seq<Vec>, ys: seq<Vec>): (r: map<string, Vec>)
    requires SubsetOf(c.actuators, c.features) && Rows(request, |c.features|)
    requires Rows(xs, |c.states|) && Rows(ys, |c.outputs|) && |xs| == |request| && |ys| == |request|
    ensures forall x :: x in r <==> x in c.actuators || x in c.states || x in c.outputs || x == c.pivot
    ensures r[c.pivot] == b.pivotValues
  {
    var echoed := map a | a in c.actuators :: Series(request, FirstIndex(c.features, a));
    var predicted := map s | s in c.states :: Series(xs, FirstIndex(c.states, s));
    var observed := map o | o in c.outputs :: Series(ys, FirstIndex(c.outputs, o));
    (echoed + predicted + observed)[c.pivot := b.pivotValues]
  }

  /** A trajectory with the reference added back at every step when
      centring, unchanged otherwise. */
  function Decentre(xs: seq<Vec>, ref: Vec, center: bool): (zs: seq<Vec>)
    requires forall t | 0 <= t < |xs| :: |xs[t]| == |ref|
    ensures |zs| == |xs| && forall t | 0 <= t < |xs| :: zs[t] == Decentred(xs[t], ref, center)
    ensures !center ==> zs == xs
  {
    if center then seq(|xs|, t requires 0 <= t < |xs| => Add(xs[t], ref)) else xs
  }

  /** The observations y[k] = C x[k]. */
  function Project(cm: Mat, xs: seq<Vec>): (ys: seq<Vec>)
    requires cm.Valid() && forall t | 0 <= t < |xs| :: |xs[t]| == cm.cols
    ensures |ys| == |xs| && forall t | 0 <= t < |xs| :: ys[t] == MatVec(cm, xs[t])
  {
    seq(|xs|, t requires 0 <= t < |xs| => MatVec(cm, xs[t]))
  }

  /** Which group supplies the entry of a name: the time marks for the
      pivot, else the outputs, else the states, else the actuators. */
  lemma AssembledEntry(c: Config, b: Trained, request: seq<Vec>, xs: seq<Vec>, ys: seq<Vec>, x: string)
    requires SubsetOf(c.actuators, c.features) && Rows(request, |c.features|)
    requires Rows(xs, |c.states|) && Rows(ys, |c.outputs|) && |xs| == |request| && |ys| == |request|
    requires x in c.actuators || x in c.states || x in c.outputs
    requires x != c.pivot
    ensures var r := Assemble(c, b, request, xs, ys);
            && (x in c.outputs ==> r[x] == Series(ys, FirstIndex(c.outputs, x)))
            && (x !in c.outputs && x in c.states ==> r[x] == Series(xs, FirstIndex(c.states, x)))
            && (x !in c.outputs && x !in c.states ==> r[x] == Series(request, FirstIndex(c.features, x)))
            && |r[x]| == |request|
  {
  }

  /** `__evaluateLocal__` for one request on a trained bank. */
  function EvaluateModel(c: Config, b: Trained, fv: Tensor, steps: nat, nearest: Nearest): (r: Result<map<string, Vec>>)
    requires WellFormed(c) && BankShaped(c, b) && NearestInRange(nearest)
    requires Shaped(fv, |fv|, steps, |c.features|)
    ensures r.Ok? <==> steps >= 1 && |fv| == 1 && SubsetOf(c.actuators, c.features) && |c.initStates| == |c.states|
    ensures r.Ok? ==> forall x :: x in r.value <==> x in c.actuators || x in c.states || x in c.outputs || x == c.pivot
    ensures r.Ok? ==> r.value[c.pivot] == b.pivotValues
    ensures r.Err? ==> r.error in {IndexError, ValueError}
  {
    var s :- EvalSetup(c, b, fv, steps, nearest);
    var model := b.models[s.index];
    var xs := Rollout(model.a, model.b, s.x0, s.us, steps);
    Ok(Assemble(c, b, fv[0], Decentre(xs, s.xRef, c.center), Decentre(Project(model.c, xs), s.yRef, c.center)))
  }

  /** What each returned series is, for the chosen sample's triple
      (A, B, C) and the rollout x of A and B from the request's (centred)
      initial state under its (centred) actuator vectors: an output is a
      row of C x, a state a component of x, each with the reference added
      back, and any other actuator is echoed from the request; every
      series covers the requested time steps. */
  lemma EvaluatedEntry(c: Config, b: Trained, fv: Tensor, steps: nat, nearest: Nearest, x: string)
    requires WellFormed(c) && BankShaped(c, b) && NearestInRange(nearest)
    requires Shaped(fv, |fv|, steps, |c.features|)
    requires EvaluateModel(c, b, fv, steps, nearest).Ok?
    requires x in c.actuators || x in c.states || x in c.outputs
    requires x != c.pivot
    ensures var index := ChosenSample(c, b, fv, nearest);
            var model := b.models[index];
            var xs := Rollout(model.a, model.b, InitialState(c, b, fv[0], index), Inputs(c, b, fv[0], steps, index), steps);
            var r := EvaluateModel(c, b, fv, steps, nearest).value;
            && |r[x]| == steps
            && (x in c.outputs ==> forall t | 0 <= t < steps ::
                  r[x][t] == Decentred(MatVec(model.c, xs[t]), Reference(b.outputs[index], |c.outputs|, c.center), c.center)[FirstIndex(c.outputs, x)])
            && (x !in c.outputs && x in c.states ==> forall t | 0 <= t < steps ::
                  r[x][t] == Decentred(xs[t], Reference(b.states[index], |c.states|, c.center), c.center)[FirstIndex(c.states, x)])
            && (x !in c.outputs && x !in c.states ==> forall t | 0 <= t < steps ::
                  r[x][t] == fv[0][t][FirstIndex(c.features, x)])
  {
    var s := EvalSetup(c, b, fv, steps, nearest).value;
    var model := b.models[s.index];
    var xs := Rollout(model.a, model.b, s.x0, s.us, steps);
    AssembledEntry(c, b, fv[0], Decentre(xs, s.xRef, c.center), Decentre(Project(model.c, xs), s.yRef, c.center), x);
  }

  /** The first predicted value of every state variable is the value of
      its initialisation variable in the request. */
  lemma StartsAtInitialState(c: Config, b: Trained, fv: Tensor, steps: nat, nearest: Nearest, s: string)
    requires WellFormed(c) && BankShaped(c, b) && NearestInRange(nearest)
    requires Shaped(fv, |fv|, steps, |c.features|)
    requires s in c.states && s != c.pivot
    requires EvaluateModel(c, b, fv, steps, nearest).Ok?
    ensures |c.initStates| == |c.states| && steps >= 1 && |fv| == 1
    ensures FirstIndex(c.states, s) < |c.initStates| && c.initStates[FirstIndex(c.states, s)] in c.features
    ensures s in EvaluateModel(c, b, fv, steps, nearest).value && |EvaluateModel(c, b, fv, steps, nearest).value[s]| == steps
    ensures EvaluateModel(c, b, fv, steps, nearest).value[s][0]
              == fv[0][0][FirstIndex(c.features, c.initStates[FirstIndex(c.states, s)])]
  {
    assert s !in c.outputs;
    EvaluatedEntry(c, b, fv, steps, nearest, s);
    var index := ChosenSample(c, b, fv, nearest);
    var xRef := Reference(b.states[index], |c.states|, c.center);
    var raw := Pick(fv[0][0], Positions(c.initStates, c.features).value);
    CentringRoundTrip(raw, xRef, c.center);
    assert Decentred(InitialState(c, b, fv[0], index), xRef, c.center) == raw;
  }

  /** An actuator that is neither a state, an output nor the pivot is
      returned exactly as supplied. */
  lemma ActuatorsEchoed(c: Config, b: Trained, fv: Tensor, steps: nat, nearest: Nearest, a: string)
    requires WellFormed(c) && BankShaped(c, b) && NearestInRange(nearest)
    requires Shaped(fv, |fv|, steps, |c.features|)
    requires a in c.actuators && a !in c.states && a !in c.outputs && a != c.pivot
    requires EvaluateModel(c, b, fv, steps, nearest).Ok?
    ensures |fv| == 1 && a in c.features
    ensures a in EvaluateModel(c, b, fv, steps, nearest).value && |EvaluateModel(c, b, fv, steps, nearest).value[a]| == steps
    ensures forall t | 0 <= t < steps ::
              EvaluateModel(c, b, fv, steps, nearest).value[a][t] == fv[0][t][FirstIndex(c.features, a)]
  {
    EvaluatedEntry(c, b, fv, steps, nearest, a);
  }

  /** The control input the source actually feeds to B at step t: the
      value of the first actuator (feature column `first`) alone. */
  function AsWrittenInputs(request: seq<Vec>, first: nat, steps: nat): (us: seq<Vec>)
    requires |request| >= steps && forall t | 0 <= t < steps :: first < |request[t]|
    ensures |us| == steps && forall t | 0 <= t < steps :: us[t] == [request[t][first]]
  {
    seq(steps, t requires 0 <= t < steps => [request[t][first]])
  }

  /** The rollout as written, with numpy's check of `B.dot(u)`. */
  function AsWrittenRollout(a: Mat, b: Mat, x0: Vec, us: seq<Vec>, steps: nat): (r: Result<seq<Vec>>)
    requires a.Valid() && b.Valid() && a.HasShape(|x0|, |x0|) && b.rows == |x0|
    requires steps >= 1 && steps - 1 <= |us|
    ensures r.Ok? ==> |r.value| == steps && forall t | 0 <= t < steps :: |r.value[t]| == |x0|
    ensures r.Err? ==> r.error == ValueError
  {
    if steps == 1 then Ok([x0])
    else
      var prev := AsWrittenRollout(a, b, x0, us, steps - 1);
      if prev.Err? then prev
      else
        var bu := Apply(b, us[steps - 2]);
        if bu.Err? then Err(bu.error)
        else Ok(prev.value + [Add(MatVec(a, prev.value[steps - 2]), bu.value)])
  }

  /** As written, a model with two or more actuators cannot be evaluated
      over two or more time steps: the first product B u raises. */
  lemma {:induction false} AsWrittenRejectsSeveralActuators(a: Mat, b: Mat, x0: Vec, request: seq<Vec>, first: nat, steps: nat)
    requires a.Valid() && b.Valid() && a.HasShape(|x0|, |x0|) && b.rows == |x0|
    requires |request| >= steps && forall t | 0 <= t < steps :: first < |request[t]|
    requires b.cols >= 2 && steps >= 2
    ensures AsWrittenRollout(a, b, x0, AsWrittenInputs(request, first, steps), steps) == Err(ValueError)
  {
    var us := AsWrittenInputs(request, first, steps);
    if steps == 2 {
      assert Apply(b, us[0]).Err?;
    } else {
      var vs := AsWrittenInputs(request, first, steps - 1);
      AsWrittenRejectsSeveralActuators(a, b, x0, request, first, steps - 1);
      assert us[..steps - 2] == vs[..steps - 2];
      AsWrittenPrefix(a, b, x0, us, vs, steps - 1);
    }
  }

  /** The as-written rollout over `k` steps only reads the first `k - 1`
      inputs. */
  lemma {:induction false} AsWrittenPrefix(a: Mat, b: Mat, x0: Vec, us: seq<Vec>, vs: seq<Vec>, k: nat)
    requires a.Valid() && b.Valid() && a.HasShape(|x0|, |x0|) && b.rows == |x0|
    requires k >= 1 && k - 1 <= |us| && k - 1 <= |vs| && us[..k - 1] == vs[..k - 1]
    ensures AsWrittenRollout(a, b, x0, us, k) == AsWrittenRollout(a, b, x0, vs, k)
  {
    if k > 1 {
      assert us[..k - 2] == us[..k - 1][..k - 2];
      assert vs[..k - 2] == vs[..k - 1][..k - 2];
      AsWrittenPrefix(a, b, x0, us, vs, k - 1);
      assert us[k - 2] == us[..k - 1][k - 2];
      assert vs[k - 2] == vs[..k - 1][k - 2];
    }
  }

  /** With a single actuator the as-written input is the full actuator
      vector, and the as-written rollout is the corrected one. */
  lemma AsWrittenAgreesForOneActuator(a: Mat, b: Mat, x0: Vec, request: seq<Vec>, width: nat, actIdx: seq<nat>, steps: nat)
    requires a.Valid() && b.Valid() && a.HasShape(|x0|, |x0|) && b.rows == |x0| && b.cols == 1
    requires Rows(request, width) && |request| >= steps >= 1
    requires |actIdx| == 1 && actIdx[0] < width
    ensures var us := seq(steps, t requires 0 <= t < steps => Pick(request[t], actIdx));
            && AsWrittenInputs(request, actIdx[0], steps) == us
            && AsWrittenRollout(a, b, x0, us, steps) == Ok(Rollout(a, b, x0, us, steps))
  {
    var us := seq(steps, t requires 0 <= t < steps => Pick(request[t], actIdx));
    assert forall t | 0 <= t < steps :: AsWrittenInputs(request, actIdx[0], steps)[t] == us[t];
    RolloutAgrees(a, b, x0, us, steps);
  }

  lemma {:induction false} RolloutAgrees(a: Mat, b: Mat, x0: Vec, us: seq<Vec>, steps: nat)
    requires a.Valid() && b.Valid() && a.HasShape(|x0|, |x0|) && b.rows == |x0|
    requires steps >= 1 && steps - 1 <= |us| && forall t | 0 <= t < |us| :: |us[t]| == b.cols
    ensures AsWrittenRollout(a, b, x0, us, steps) == Ok(Rollout(a, b, x0, us, steps))
  {
    if steps > 1 {
      RolloutAgrees(a, b, x0, us, steps - 1);
    }
  }

  /** The loop of `__trainLocal__`: one slot per sample is allocated for
      A, B and C and filled with that sample's identified triple; the
      first failed identification aborts the loop. */
  method FillSlots(c: Config, num: Numerics, st: Tensor, ac: Tensor, ou: Tensor, steps: nat)
    returns (r: Outcome, a: array<Mat>, b: array<Mat>, cm: array<Mat>)
    requires num.Sound() && SampleData(c, st, ac, ou, steps)
    ensures fresh(a) && fresh(b) && fresh(cm)
    ensures a.Length == |st| && b.Length == |st| && cm.Length == |st|
    ensures var spec := IdentifyAll(c, num, st, ac, ou, steps, |st|);
            && (r.Pass? <==> spec.Ok?)
            && (r.Fail? ==> r.error == spec.error)
            && (r.Pass? ==> forall i | 0 <= i < |st| :: Triple(a[i], b[i], cm[i]) == spec.value[i])
  {
    var samples := |st|;
    var n, m, p := |c.states|, |c.actuators|, |c.outputs|;
    a := new Mat[samples](_ => Zeros(n, n));
    b := new Mat[samples](_ => Zeros(n, m));
    cm := new Mat[samples](_ => Zeros(p, n));
    ghost var models: seq<Triple> := [];
    var smp := 0;
    while smp < samples
      invariant 0 <= smp <= samples
      invariant IdentifyAll(c, num, st, ac, ou, steps, smp) == Ok(models)
      invariant |models| == smp && Stored(a, b, cm, models)
    {
      var step;
      step, models := IdentifyInto(c, num, st, ac, ou, steps, smp, a, b, cm, models);
      if step.Fail? {
        return step, a, b, cm;
      }
      smp := smp + 1;
    }
    r := Pass;
  }

  /** One pass of the loop of `__trainLocal__`: sample `smp` is identified
      and its triple stored, or its failure ends the training. */
  method IdentifyInto(c: Config, num: Numerics, st: Tensor, ac: Tensor, ou: Tensor, steps: nat, smp: nat,
                      a: array<Mat>, b: array<Mat>, cm: array<Mat>, ghost models: seq<Triple>)
    returns (r: Outcome, ghost next: seq<Triple>)
    requires num.Sound() && SampleData(c, st, ac, ou, steps) && smp < |st|
    requires a != b && b != cm && a != cm && a.Length == |st| && b.Length == |st| && cm.Length == |st|
    requires IdentifyAll(c, num, st, ac, ou, steps, smp) == Ok(models) && |models| == smp && Stored(a, b, cm, models)
    modifies a, b, cm
    ensures r.Fail? ==> IdentifyAll(c, num, st, ac, ou, steps, |st|) == Err(r.error)
    ensures r.Pass? ==> IdentifyAll(c, num, st, ac, ou, steps, smp + 1) == Ok(next)
    ensures r.Pass? ==> |next| == smp + 1 && Stored(a, b, cm, next)
  {
    var t := IdentifySample(c, num, st[smp], ac[smp], ou[smp]);
    IdentifyAllExtends(c, num, st, ac, ou, steps, smp, models);
    if t.Err? {
      FirstErrorStands(Identified(c, num, st, ac, ou, steps, |st|), smp + 1, |st|);
      return Fail(t.error), models;
    }
    Store(a, b, cm, models, smp, t.value);
    r, next := Pass, models + [t.value];
  }

  /** `__trainLocal__` up to the assignments to the surrogate's fields:
      the checks, the selected data, the filled slots, the parameter
      table and the time marks. */
  method TrainSlots(c: Config, num: Numerics, fv: Tensor, tv: Tensor, steps: nat)
    returns (r: Result<Trained>, a: array<Mat>, b: array<Mat>, cm: array<Mat>)
    requires WellFormed(c) && num.Sound()
    requires Shaped(fv, |fv|, steps, |c.features|) && Shaped(tv, |fv|, steps, |c.targets|)
    ensures fresh(a) && fresh(b) && fresh(cm)
    ensures r == TrainSpec(c, num, fv, tv, steps)
    ensures r.Ok? ==> a.Length == b.Length == cm.Length == |fv| && r.value.models == Slots(a[..], b[..], cm[..])
  {
    var samples := |fv|;
    var guard := TrainGuard(c, samples, steps);
    if guard.Fail? {
      r := Err(guard.error);
      a, b, cm := new Mat[0], new Mat[0], new Mat[0];
      return;
    }
    var st := StateData(c, tv, samples, steps);
    var ac := ActuatorData(c, fv, samples, steps);
    var ou := OutputData(c, tv, samples, steps);
    var filled;
    filled, a, b, cm := FillSlots(c, num, st, ac, ou, steps);
    if filled.Fail? {
      r := Err(filled.error);
      return;
    }
    if steps < 2 {
      r := Err(IndexError);
      return;
    }
    SlotsHold(a, b, cm, IdentifyAll(c, num, st, ac, ou, steps, samples).value);
    r := Ok(Kept(c, fv, tv, steps, Slots(a[..], b[..], cm[..])));
  }

  /** Three slot arrays that hold `models` slot by slot are `models`. */
  lemma SlotsHold(a: array<Mat>, b: array<Mat>, cm: array<Mat>, models: seq<Triple>)
    requires a.Length == b.Length == cm.Length == |models|
    requires forall i | 0 <= i < |models| :: Triple(a[i], b[i], cm[i]) == models[i]
    ensures Slots(a[..], b[..], cm[..]) == models
  {
  }

  /** The triples held by three parallel slot arrays. */
  function Slots(a: seq<Mat>, b: seq<Mat>, c: seq<Mat>): (ts: seq<Triple>)
    requires |a| == |b| == |c|
    ensures |ts| == |a| && forall i | 0 <= i < |a| :: ts[i] == Triple(a[i], b[i], c[i])
  {
    seq(|a|, i requires 0 <= i < |a| => Triple(a[i], b[i], c[i]))
  }

  /** The slots before `|models|` hold the triples of `models`. */
  ghost predicate Stored(a: array<Mat>, b: array<Mat>, cm: array<Mat>, models: seq<Triple>)
    reads a, b, cm
  {
    && |models| <= a.Length && |models| <= b.Length && |models| <= cm.Length
    && forall i | 0 <= i < |models| :: Triple(a[i], b[i], cm[i]) == models[i]
  }

  /** Writes triple `t` into the first free slot. */
  method Store(a: array<Mat>, b: array<Mat>, cm: array<Mat>, ghost models: seq<Triple>, k: nat, t: Triple)
    requires a != b && b != cm && a != cm
    requires Stored(a, b, cm, models) && k == |models|
    requires k < a.Length && k < b.Length && k < cm.Length
    modifies a, b, cm
    ensures Stored(a, b, cm, models + [t])
  {
    a[k] := t.a;
    b[k] := t.b;
    cm[k] := t.c;
  }

  /** The propagation loop of `__evaluateLocal__`: x[0] = x0,
      x[i+1] = A x[i] + B u[i] and y[i] = C x[i], written step by step
      into arrays of the evaluation length. */
  method RolloutInto(a: Mat, b: Mat, cm: Mat, x0: Vec, us: seq<Vec>, steps: nat)
    returns (evalX: array<Vec>, evalY: array<Vec>)
    requires a.Valid() && b.Valid() && cm.Valid() && a.HasShape(|x0|, |x0|) && b.rows == |x0| && cm.cols == |x0|
    requires steps >= 1 && steps - 1 <= |us| && forall t | 0 <= t < |us| :: |us[t]| == b.cols
    ensures fresh(evalX) && fresh(evalY) && evalX != evalY
    ensures evalX[..] == Rollout(a, b, x0, us, steps)
    ensures evalY[..] == Project(cm, Rollout(a, b, x0, us, steps))
  {
    ghost var xs := Rollout(a, b, x0, us, steps);
    evalX := new Vec[steps];
    evalY := new Vec[steps];
    evalX[0] := x0;
    evalY[0] := MatVec(cm, x0);
    var i := 0;
    while i + 1 < steps
      invariant 0 <= i < steps
      invariant forall t | 0 <= t <= i :: evalX[t] == xs[t] && evalY[t] == MatVec(cm, xs[t])
    {
      evalX[i + 1] := Add(MatVec(a, evalX[i]), MatVec(b, us[i]));
      evalY[i + 1] := MatVec(cm, evalX[i + 1]);
      i := i + 1;
    }
    assert evalX[..] == xs;
    assert evalY[..] == Project(cm, xs);
  }

  /** `evalX = evalX + ref`: the reference added back at every step. */
  method DecentreInPlace(v: array<Vec>, ref: Vec)
    requires forall t | 0 <= t < v.Length :: |v[t]| == |ref|
    modifies v
    ensures v[..] == Decentre(old(v[..]), ref, true)
  {
    ghost var before := v[..];
    var k := 0;
    while k < v.Length
      invariant 0 <= k <= v.Length
      invariant forall t | 0 <= t < k :: v[t] == Add(before[t], ref)
      invariant forall t | k <= t < v.Length :: v[t] == before[t]
    {
      v[k] := Add(v[k], ref);
      k := k + 1;
    }
    assert v[..] == Decentre(before, ref, true);
  }

  /** The surrogate object. The triples live in arrays allocated by
      training, one slot per sample. */
  class Dmdc {
    const config: Config
    const num: Numerics
    var trained: bool
    var stateVals: Tensor
    var actuatorVals: Tensor
    var outputVals: Tensor
    var parameterValues: seq<map<string, real>>
    var pivotValues: Vec
    var atilde: array<Mat>
    var btilde: array<Mat>
    var ctilde: array<Mat>
    var t0: real
    var intervals: int
    var dt: real

    ghost predicate Valid()
      reads this, atilde, btilde, ctilde
    {
      && WellFormed(config) && num.Sound()
      && atilde.Length == btilde.Length == ctilde.Length
      && (trained ==> BankShaped(config, Bank()))
    }

    /** The trained state as a value. */
    function Bank(): (b: Trained)
      reads this, atilde, btilde, ctilde
      requires atilde.Length == btilde.Length == ctilde.Length
      ensures |b.models| == atilde.Length
    {
      Trained(stateVals, actuatorVals, outputVals, parameterValues, pivotValues,
              Slots(atilde[..], btilde[..], ctilde[..]), t0, intervals, dt)
    }

    constructor (config: Config, num: Numerics)
      requires WellFormed(config) && num.Sound()
      ensures Valid() && !trained && this.config == config && this.num == num
    {
      this.config := config;
      this.num := num;
      trained := false;
      atilde := new Mat[0];
      btilde := new Mat[0];
      ctilde := new Mat[0];
    }

    /** `__trainLocal__`: the data are selected, one slot per sample is
        allocated for A, B and C, and the slots are filled sample by
        sample. A failure leaves the surrogate untrained. */
    method Train(fv: Tensor, tv: Tensor, steps: nat) returns (r: Outcome)
      requires Valid()
      requires Shaped(fv, |fv|, steps, |config.features|) && Shaped(tv, |fv|, steps, |config.targets|)
      modifies this
      ensures Valid()
      ensures var spec := TrainSpec(config, num, fv, tv, steps);
              && (r.Pass? <==> spec.Ok?)
              && (r.Fail? ==> r.error == spec.error && !trained)
              && (r.Pass? ==> trained && Bank() == spec.value)
    {
      trained := false;
      var filled, a, b, c := TrainSlots(config, num, fv, tv, steps);
      if filled.Err? {
        return Fail(filled.error);
      }
      Install(filled.value, a, b, c);
      r := Pass;
    }

    /** The assignments that end a successful training. */
    method Install(bank: Trained, a: array<Mat>, b: array<Mat>, c: array<Mat>)
      requires a.Length == b.Length == c.Length && bank.models == Slots(a[..], b[..], c[..])
      modifies this
      ensures atilde.Length == btilde.Length == ctilde.Length && trained
      ensures stateVals == bank.states && actuatorVals == bank.actuators && outputVals == bank.outputs
      ensures parameterValues == bank.parameterValues && pivotValues == bank.pivotValues
      ensures Slots(atilde[..], btilde[..], ctilde[..]) == bank.models
      ensures t0 == bank.t0 && intervals == bank.intervals && dt == bank.dt
      ensures Bank() == bank
    {
      stateVals, actuatorVals, outputVals := bank.states, bank.actuators, bank.outputs;
      parameterValues, pivotValues := bank.parameterValues, bank.pivotValues;
      atilde, btilde, ctilde := a, b, c;
      t0, intervals, dt := bank.t0, bank.intervals, bank.dt;
      trained := true;
    }

    /** `__evaluateLocal__`: the rollout is written step by step into
        preallocated arrays, then the references are added back. */
    method Evaluate(fv: Tensor, steps: nat, nearest: Nearest) returns (r: Result<map<string, Vec>>)
      requires Valid() && trained && NearestInRange(nearest)
      requires Shaped(fv, |fv|, steps, |config.features|)
      ensures r == EvaluateModel(config, Bank(), fv, steps, nearest)
    {
      var bank := Bank();
      var setup := EvalSetup(config, bank, fv, steps, nearest);
      if setup.Err? {
        return Err(setup.error);
      }
      var s := setup.value;
      var model := Triple(atilde[s.index], btilde[s.index], ctilde[s.index]);
      assert model == bank.models[s.index];
      ghost var xs := Rollout(model.a, model.b, s.x0, s.us, steps);
      var evalX, evalY := RolloutInto(model.a, model.b, model.c, s.x0, s.us, steps);
      if config.center {
        DecentreInPlace(evalX, s.xRef);
        DecentreInPlace(evalY, s.yRef);
      }
      assert evalX[..] == Decentre(xs, s.xRef, config.center);
      assert evalY[..] == Decentre(Project(model.c, xs), s.yRef, config.center);
      assert Bank() == bank;
      r := Ok(Assemble(config, bank, fv[0], evalX[..], evalY[..]));
    }
  }
}
