/** The export of a trained DMDc surrogate: which names a request may ask
    for, which scalars and which per-sample blocks are written, and the
    errors of an unknown name or an untrained surrogate. The XML writer is
    modelled as the list of entries it receives, in order. */
module DmdcExport {
  import opened PyErrors
  import opened PyStr
  import opened PyList
  import opened Matrices
  import opened DmdcConfig
  import opened DmdcData
  import opened DmdcIdentify
  import opened DmdcSurrogate

  /** The names `writeXML` accepts, spelled as the source spells them. */
  const What: seq<string> := ["dmdType", "rankSVD", "acturators",
                              "stateVariables", "outputs", "initStateVariables",
                              "Atilde", "Btilde", "Ctilde", "UNorm", "XNorm", "YNorm",
                              "XLast", "dmdTimeScale"]

  /** The names written before the per-sample blocks, in the order written. */
  const HeaderNames: seq<string> := ["dmdType", "rankSVD", "acturators", "stateVariables",
                                     "initStateVariables", "outputs", "dmdTimeScale"]

  /** The blocks written for each sample, in the order written. */
  const BlockNames: seq<string> := ["UNorm", "XNorm", "XLast", "YNorm", "Atilde", "Btilde", "Ctilde"]

  const Target: string := "DMDcModel"

  const Description: string :=
    " This XML file contains the main information of the DMDC ROM."
    + " The method is explained in:"
    + " Proctor, Joshua L., Steven L. Brunton, and J. Nathan Kutz. "
    + " \"Dynamic mode decomposition with control.\" "
    + " SIAM Journal on Applied Dynamical Systems 15, no. 1 (2016): 142-161."

  /** What an entry carries; number formatting is not modelled. */
  datatype Value = Text(text: string) | Number(n: int) | Reals(reals: Vec) | Matrix(m: Mat)

  /** A scalar node under a target, or one realization of a per-sample
      block with its attributes (the scheduling parameters) and sample. */
  datatype Entry =
    | Scalar(target: string, name: string, value: Value)
    | Realization(node: string, attrs: map<string, real>, sample: nat, value: Value)

  /** The entries handed to the writer, and the exception that ended the
      export, if any. */
  datatype Written = Written(entries: seq<Entry>, error: Option<Error>)

  /** `writeXMLPreamble`: the description, once trained. */
  function Preamble(trained: bool): (r: Result<Entry>)
    ensures r.Ok? <==> trained
    ensures r.Ok? ==> r.value == Scalar("ROM", "description", Text(Description))
    ensures r.Err? ==> r.error == RuntimeError
  {
    if !trained then Err(RuntimeError) else Ok(Scalar("ROM", "description", Text(Description)))
  }

  /** `for s in skip: if s in readWhat: readWhat.remove(s)` */
  function SkipAll(readWhat: seq<string>, skip: seq<string>): (r: seq<string>)
  {
    if skip == [] then readWhat
    else if skip[0] in readWhat then SkipAll(RemoveFirst(readWhat, skip[0]), skip[1..])
    else SkipAll(readWhat, skip[1..])
  }

  /** Each skipped name removes one occurrence of itself, as long as one
      is left: the result is the multiset difference. */
  lemma {:induction false} SkipIsDifference(readWhat: seq<string>, skip: seq<string>)
    ensures multiset(SkipAll(readWhat, skip)) == multiset(readWhat) - multiset(skip)
  {
    if skip != [] {
      var s := skip[0];
      assert skip == [s] + skip[1..];
      if s in readWhat {
        RemoveFirstCounts(readWhat, s);
        SkipIsDifference(RemoveFirst(readWhat, s), skip[1..]);
      } else {
        SkipIsDifference(readWhat, skip[1..]);
        assert multiset(readWhat)[s] == 0;
      }
    }
  }

  /** The requested names: the full list when no targets are given, less
      the skipped ones; a name outside the list is an IOError. */
  function Selection(targets: Option<seq<string>>, skip: Option<seq<string>>): (r: Result<seq<string>>)
    ensures r.Ok? ==> forall x | x in r.value :: x in What
    ensures r.Err? ==> r.error == IOError
  {
    var requested := if targets.None? then What else targets.value;
    var skipped := if skip.None? then [] else skip.value;
    var readWhat := SkipAll(requested, skipped);
    if forall x | x in readWhat :: x in What then Ok(readWhat) else Err(IOError)
  }

  /** A name survives the skipping exactly when it is requested more
      often than it is skipped. */
  lemma SurvivesSkip(requested: seq<string>, skipped: seq<string>, x: string)
    ensures x in SkipAll(requested, skipped) <==> multiset(requested)[x] > multiset(skipped)[x]
  {
    SkipIsDifference(requested, skipped);
    assert x in SkipAll(requested, skipped) <==> x in multiset(SkipAll(requested, skipped));
  }

  /** Some name outside `allowed` survives the skipping exactly when one
      is requested more often than it is skipped. */
  lemma {:induction false} SurvivorOutside(requested: seq<string>, skipped: seq<string>, allowed: seq<string>)
    ensures (exists x | x in SkipAll(requested, skipped) :: x !in allowed)
              <==> exists x | x !in allowed :: multiset(requested)[x] > multiset(skipped)[x]
  {
    if exists x | x in SkipAll(requested, skipped) :: x !in allowed {
      var x :| x in SkipAll(requested, skipped) && x !in allowed;
      SurvivesSkip(requested, skipped, x);
    }
    if exists x | x !in allowed :: multiset(requested)[x] > multiset(skipped)[x] {
      var x :| x !in allowed && multiset(requested)[x] > multiset(skipped)[x];
      SurvivesSkip(requested, skipped, x);
    }
  }

  /** With explicit targets, the selection fails exactly when a name
      outside the list is requested more often than it is skipped. */
  lemma UnknownNameRejected(targets: seq<string>, skip: Option<seq<string>>)
    ensures var skipped := if skip.None? then [] else skip.value;
            Selection(Some(targets), skip).Err? <==> exists x | x !in What :: multiset(targets)[x] > multiset(skipped)[x]
  {
    SurvivorOutside(targets, if skip.None? then [] else skip.value, What);
  }

  /** A successful selection holds each requested name as often as it is
      requested and not skipped. */
  lemma SelectedCounts(targets: Option<seq<string>>, skip: Option<seq<string>>)
    requires Selection(targets, skip).Ok?
    ensures var requested := if targets.None? then What else targets.value;
            var skipped := if skip.None? then [] else skip.value;
            multiset(Selection(targets, skip).value) == multiset(requested) - multiset(skipped)
  {
    SkipIsDifference(if targets.None? then What else targets.value, if skip.None? then [] else skip.value);
  }

  /** Without targets every listed name is requested, so the selection
      never fails. */
  lemma DefaultSelectionAccepted(skip: Option<seq<string>>)
    ensures Selection(None, skip).Ok?
  {
    SkipKeepsWithin(What, if skip.None? then [] else skip.value);
  }

  /** Skipping only removes names. */
  lemma SkipKeepsWithin(requested: seq<string>, skipped: seq<string>)
    ensures forall x | x in SkipAll(requested, skipped) :: x in requested
  {
    forall x | x in SkipAll(requested, skipped)
      ensures x in requested
    {
      SurvivesSkip(requested, skipped, x);
    }
  }

  /** The scalar written for a header name. */
  function HeaderValue(c: Config, dmdType: string, timeScale: Vec, name: string): (v: Value)
    ensures name == "rankSVD" ==> v == Number(if c.rankSVD.None? then -1 else c.rankSVD.value)
    ensures name == "acturators" ==> v == Text(Join(c.actuators, " "))
    ensures name == "stateVariables" ==> v == Text(Join(c.states, " "))
    ensures name == "initStateVariables" ==> v == Text(Join(c.initStates, " "))
    ensures name == "outputs" ==> v == Text(Join(c.outputs, " "))
  {
    match name
    case "dmdType" => Text(dmdType)
    case "rankSVD" => Number(if c.rankSVD.None? then -1 else c.rankSVD.value)
    case "acturators" => Text(Join(c.actuators, " "))
    case "stateVariables" => Text(Join(c.states, " "))
    case "initStateVariables" => Text(Join(c.initStates, " "))
    case "outputs" => Text(Join(c.outputs, " "))
    case _ => Reals(timeScale)
  }

  /** The scalars of the requested header names, in the order of `names`. */
  function HeaderFrom(c: Config, dmdType: string, timeScale: Vec, what: seq<string>, names: seq<string>): (r: seq<Entry>)
    ensures forall e | e in r :: e.Scalar? && e.target == Target && e.name in names && e.name in what
                                && e.value == HeaderValue(c, dmdType, timeScale, e.name)
    ensures forall n | n in names && n in what :: exists e | e in r :: e.name == n
  {
    if names == [] then []
    else
      var rest := HeaderFrom(c, dmdType, timeScale, what, names[1..]);
      var e := Scalar(Target, names[0], HeaderValue(c, dmdType, timeScale, names[0]));
      assert forall n | n in names :: n == names[0] || n in names[1..];
      if names[0] in what then [e] + rest else rest
  }

  /** The scalars written before the per-sample loop. */
  function Header(c: Config, dmdType: string, timeScale: Vec, what: seq<string>): (r: seq<Entry>)
  {
    HeaderFrom(c, dmdType, timeScale, what, HeaderNames)
  }

  /** A header name is written exactly when it is requested, with its value. */
  lemma HeaderWritten(c: Config, dmdType: string, timeScale: Vec, what: seq<string>, n: string)
    requires n in HeaderNames
    ensures (exists e | e in Header(c, dmdType, timeScale, what) :: e.name == n) <==> n in what
    ensures forall e | e in Header(c, dmdType, timeScale, what) ::
              e.Scalar? && e.target == Target && e.value == HeaderValue(c, dmdType, timeScale, e.name)
  {
  }

  /** Whether a block is written for every sample: the norms only when
      centring, `Btilde` under the `Atilde` request, `Ctilde` only with
      outputs. */
  predicate Emitted(c: Config, what: seq<string>, node: string) {
    match node
    case "UNorm" => "UNorm" in what && c.center
    case "XNorm" => "XNorm" in what && c.center
    case "YNorm" => "YNorm" in what && c.center
    case "XLast" => "XLast" in what
    case "Atilde" => "Atilde" in what
    case "Btilde" => "Atilde" in what
    case "Ctilde" => "Ctilde" in what && |c.outputs| > 0
    case _ => false
  }

  /** What the block writer indexes: one entry per sample in every
      array, non-empty first rows, and states as long as the pivot. */
  ghost predicate Exportable(b: Trained) {
    var samples := |b.models|;
    && |b.parameterValues| == samples && |b.states| == samples
    && |b.actuators| == samples && |b.outputs| == samples && |b.pivotValues| >= 1
    && forall s | 0 <= s < samples ::
         |b.actuators[s]| >= 1 && |b.states[s]| == |b.pivotValues| && |b.outputs[s]| >= 1
  }

  lemma BankExportable(c: Config, b: Trained)
    requires BankShaped(c, b)
    ensures Exportable(b)
  {
  }

  /** The data of a block for a sample: the first actuator, state or
      output values, the last state values, or one of the triple. */
  function BlockValue(c: Config, b: Trained, node: string, smp: nat): (v: Value)
    requires Exportable(b) && smp < |b.models|
  {
    match node
    case "UNorm" => Reals(b.actuators[smp][0])
    case "XNorm" => Reals(b.states[smp][0])
    case "XLast" => Reals(b.states[smp][|b.pivotValues| - 1])
    case "YNorm" => Reals(b.outputs[smp][0])
    case "Atilde" => Matrix(b.models[smp].a)
    case "Btilde" => Matrix(b.models[smp].b)
    case _ => Matrix(b.models[smp].c)
  }

  /** The emitted blocks among `names` for one sample, in the order of `names`. */
  function BlocksFrom(c: Config, b: Trained, what: seq<string>, smp: nat, names: seq<string>): (r: seq<Entry>)
    requires Exportable(b) && smp < |b.models|
    ensures forall e | e in r :: && e.Realization? && e.sample == smp && e.attrs == b.parameterValues[smp]
                                 && e.node in names && Emitted(c, what, e.node)
                                 && e.value == BlockValue(c, b, e.node, smp)
    ensures forall node | node in names && Emitted(c, what, node) :: exists e | e in r :: e.node == node
  {
    if names == [] then []
    else
      var rest := BlocksFrom(c, b, what, smp, names[1..]);
      var e := Realization(names[0], b.parameterValues[smp], smp, BlockValue(c, b, names[0], smp));
      assert forall n | n in names :: n == names[0] || n in names[1..];
      if Emitted(c, what, names[0]) then [e] + rest else rest
  }

  /** The blocks of one sample, in the order the source writes them. */
  function SampleBlocks(c: Config, b: Trained, what: seq<string>, smp: nat): (r: seq<Entry>)
    requires Exportable(b) && smp < |b.models|
  {
    BlocksFrom(c, b, what, smp, BlockNames)
  }

  /** A block is written for a sample exactly when `Emitted` says so,
      carrying that sample's scheduling parameters and data. */
  lemma SampleBlockRule(c: Config, b: Trained, what: seq<string>, smp: nat, node: string)
    requires Exportable(b) && smp < |b.models|
    ensures (exists e | e in SampleBlocks(c, b, what, smp) :: e.node == node) <==> Emitted(c, what, node)
    ensures Emitted(c, what, node) ==> exists e | e in SampleBlocks(c, b, what, smp) :: e.Realization? && e.node == node && e.sample == smp
    ensures forall e | e in SampleBlocks(c, b, what, smp) ::
              && e.Realization? && e.sample == smp && e.attrs == b.parameterValues[smp]
              && e.value == BlockValue(c, b, e.node, smp)
  {
    assert Emitted(c, what, node) ==> node in BlockNames;
  }

  /** The blocks of the first `k` samples, sample after sample. */
  function Blocks(c: Config, b: Trained, what: seq<string>, k: nat): (r: seq<Entry>)
    requires Exportable(b) && k <= |b.models|
    ensures forall e | e in r :: && e.Realization? && e.sample < k && e.attrs == b.parameterValues[e.sample]
                                 && Emitted(c, what, e.node) && e.value == BlockValue(c, b, e.node, e.sample)
  {
    if k == 0 then [] else Blocks(c, b, what, k - 1) + SampleBlocks(c, b, what, k - 1)
  }

  /** A block written for a sample stays in the blocks of every longer
      prefix of the samples. */
  lemma {:induction false} EveryBlockWritten(c: Config, b: Trained, what: seq<string>, k: nat, smp: nat, node: string)
    requires Exportable(b) && smp < k <= |b.models|
    requires exists e | e in SampleBlocks(c, b, what, smp) :: e.Realization? && e.node == node && e.sample == smp
    ensures exists e | e in Blocks(c, b, what, k) :: e.Realization? && e.node == node && e.sample == smp
  {
    if smp < k - 1 {
      EveryBlockWritten(c, b, what, k - 1, smp, node);
    }
  }

  /** `writeXML`: the selection, the header scalars, then the blocks of
      every sample. An unknown name fails before anything is written; an
      untrained surrogate fails after the header, at its state array. */
  function Export(c: Config, dmdType: string, timeScale: Vec, trained: bool, b: Trained,
                  targets: Option<seq<string>>, skip: Option<seq<string>>): (w: Written)
    requires trained ==> BankShaped(c, b)
    ensures Selection(targets, skip).Err? ==> w == Written([], Some(IOError))
    ensures Selection(targets, skip).Ok? && !trained ==>
              w == Written(Header(c, dmdType, timeScale, Selection(targets, skip).value), Some(AttributeError))
    ensures w.error.None? <==> Selection(targets, skip).Ok? && trained
    ensures w.error.None? ==> && Exportable(b)
                              && w.entries == Header(c, dmdType, timeScale, Selection(targets, skip).value)
                                              + Blocks(c, b, Selection(targets, skip).value, |b.models|)
  {
    var sel := Selection(targets, skip);
    if sel.Err? then Written([], Some(IOError))
    else
      var head := Header(c, dmdType, timeScale, sel.value);
      if !trained then Written(head, Some(AttributeError))
      else BankExportable(c, b); Written(head + Blocks(c, b, sel.value, |b.models|), None)
  }

  /** The block rules of a successful export: a block is written for a
      sample exactly when `Emitted` says so, carrying that sample's
      scheduling parameters and data. */
  lemma BlockWritten(c: Config, dmdType: string, timeScale: Vec, b: Trained,
                     targets: Option<seq<string>>, skip: Option<seq<string>>, smp: nat, node: string)
    requires BankShaped(c, b) && smp < |b.models|
    requires Selection(targets, skip).Ok?
    ensures var w := Export(c, dmdType, timeScale, true, b, targets, skip);
            (exists e | e in w.entries :: e.Realization? && e.node == node && e.sample == smp)
              <==> Emitted(c, Selection(targets, skip).value, node)
    ensures var w := Export(c, dmdType, timeScale, true, b, targets, skip);
            forall e | e in w.entries && e.Realization? ::
              && e.attrs == b.parameterValues[e.sample]
              && e.value == BlockValue(c, b, e.node, e.sample)
  {
    BankExportable(c, b);
    var what := Selection(targets, skip).value;
    var head := Header(c, dmdType, timeScale, what);
    var blocks := Blocks(c, b, what, |b.models|);
    assert forall e | e in head + blocks :: e in head || e in blocks;
    if Emitted(c, what, node) {
      SampleBlockRule(c, b, what, smp, node);
      EveryBlockWritten(c, b, what, |b.models|, smp, node);
      var e :| e in blocks && e.Realization? && e.node == node && e.sample == smp;
      assert e in head + blocks;
    }
  }

  /** The loop of `writeXML` over the skipped names: each one present is
      removed once, in the order given. */
  method RemoveSkipped(requested: seq<string>, skipped: seq<string>) returns (readWhat: seq<string>)
    ensures readWhat == SkipAll(requested, skipped)
  {
    readWhat := requested;
    var i := 0;
    while i < |skipped|
      invariant 0 <= i <= |skipped|
      invariant SkipAll(readWhat, skipped[i..]) == SkipAll(requested, skipped)
    {
      assert skipped[i..] == [skipped[i]] + skipped[i + 1..];
      if skipped[i] in readWhat {
        readWhat := RemoveFirst(readWhat, skipped[i]);
      }
      i := i + 1;
    }
    assert skipped[i..] == [];
  }

  /** The selection step of `writeXML`: the skip loop, then the check
      that every remaining name is one the writer knows. The list the loop
      shortened is returned as well: when the caller passed `targets`, it is
      that very list. */
  method SelectNames(targets: Option<seq<string>>, skip: Option<seq<string>>)
    returns (r: Result<seq<string>>, readWhat: seq<string>)
    ensures r == Selection(targets, skip)
    ensures readWhat == SkipAll(if targets.None? then What else targets.value, SkipList(skip))
  {
    readWhat := RemoveSkipped(if targets.None? then What else targets.value, SkipList(skip));
    if exists x | x in readWhat :: x !in What {
      return Err(IOError), readWhat;
    }
    return Ok(readWhat), readWhat;
  }

  function SkipList(skip: Option<seq<string>>): seq<string> {
    if skip.None? then [] else skip.value
  }

  /** The rank setting after `writeXML` has passed its selection check: an
      unset rank is stored as -1 for good. */
  function PersistedRank(c: Config): (c': Config)
    ensures c'.rankSVD.Some? && (c.rankSVD.Some? ==> c' == c)
    ensures c' == c.(rankSVD := c'.rankSVD)
  {
    c.(rankSVD := Some(if c.rankSVD.None? then -1 else c.rankSVD.value))
  }

  /** Storing -1 for an unset rank does not change what a later export
      writes. */
  lemma PersistedRankExportsSame(c: Config, dmdType: string, timeScale: Vec, trained: bool, b: Trained,
                                 targets: Option<seq<string>>, skip: Option<seq<string>>)
    requires trained ==> BankShaped(c, b)
    ensures trained ==> BankShaped(PersistedRank(c), b)
    ensures Export(PersistedRank(c), dmdType, timeScale, trained, b, targets, skip)
         == Export(c, dmdType, timeScale, trained, b, targets, skip)
  {
    var c' := PersistedRank(c);
    var sel := Selection(targets, skip);
    if sel.Ok? {
      HeaderFromSameRank(c, dmdType, timeScale, sel.value, HeaderNames);
      if trained {
        BankExportable(c, b);
        BlocksSameRank(c, b, sel.value, |b.models|);
      }
    }
  }

  lemma {:induction false} HeaderFromSameRank(c: Config, dmdType: string, timeScale: Vec, what: seq<string>, names: seq<string>)
    ensures HeaderFrom(PersistedRank(c), dmdType, timeScale, what, names) == HeaderFrom(c, dmdType, timeScale, what, names)
  {
    if names != [] {
      HeaderFromSameRank(c, dmdType, timeScale, what, names[1..]);
      assert HeaderValue(PersistedRank(c), dmdType, timeScale, names[0]) == HeaderValue(c, dmdType, timeScale, names[0]);
    }
  }

  lemma {:induction false} BlocksSameRank(c: Config, b: Trained, what: seq<string>, k: nat)
    requires Exportable(b) && k <= |b.models|
    ensures Blocks(PersistedRank(c), b, what, k) == Blocks(c, b, what, k)
  {
    if k > 0 {
      BlocksSameRank(c, b, what, k - 1);
      BlocksFromSameRank(c, b, what, k - 1, BlockNames);
    }
  }

  lemma {:induction false} BlocksFromSameRank(c: Config, b: Trained, what: seq<string>, smp: nat, names: seq<string>)
    requires Exportable(b) && smp < |b.models|
    ensures BlocksFrom(PersistedRank(c), b, what, smp, names) == BlocksFrom(c, b, what, smp, names)
  {
    if names != [] {
      BlocksFromSameRank(c, b, what, smp, names[1..]);
    }
  }

  /** `writeXML`: the selection, the header scalars, then the loop that
      writes the blocks sample by sample. Besides the entries it returns the
      state the call leaves behind: the configuration, whose unset rank
      became -1 once the selection passed, and the caller's `targets` list,
      from which the skip loop removed the skipped names even when the
      selection then failed. */
  method WriteXml(c: Config, dmdType: string, timeScale: Vec, trained: bool, b: Trained,
                  targets: Option<seq<string>>, skip: Option<seq<string>>)
    returns (entries: seq<Entry>, error: Option<Error>, config: Config, targetsAfter: Option<seq<string>>)
    requires trained ==> BankShaped(c, b)
    ensures Written(entries, error) == Export(c, dmdType, timeScale, trained, b, targets, skip)
    ensures config == if Selection(targets, skip).Ok? then PersistedRank(c) else c
    ensures targetsAfter == if targets.None? then None else Some(SkipAll(targets.value, SkipList(skip)))
  {
    var selected, readWhat := SelectNames(targets, skip);
    targetsAfter := if targets.None? then None else Some(readWhat);
    config := c;
    if selected.Err? {
      return [], Some(IOError), config, targetsAfter;
    }
    config := PersistedRank(c);
    entries := Header(c, dmdType, timeScale, readWhat);
    if !trained {
      return entries, Some(AttributeError), config, targetsAfter;
    }
    BankExportable(c, b);
    var smp := 0;
    while smp < |b.models|
      invariant 0 <= smp <= |b.models|
      invariant entries == Header(c, dmdType, timeScale, readWhat) + Blocks(c, b, readWhat, smp)
    {
      entries := entries + SampleBlocks(c, b, readWhat, smp);
      smp := smp + 1;
    }
    error := None;
  }
}
