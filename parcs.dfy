/** The PARCS code interface: reading the run sequence, sorting the input
    files by type, building the run command, and the rule that decides that
    a run which ended with return code 0 failed nevertheless. */
module Parcs {
  import opened PyErrors
  import opened PyStr

  /** A RAVEN input file as the interface sees it: its type, its printed
      form (`str(file)`, whose second word is the path) and its base name. */
  datatype InputFile = InputFile(fileType: string, display: string, base: string)

  /** The `<sequence>` node: its text may be missing. */
  datatype XmlNode = XmlNode(text: Option<string>)

  /** The three kinds of input file. */
  datatype Kind = DataFile | MainInput | Perturbation

  /** The file's type, stripped and lower-cased, decides its kind; every
      type other than "parcsdata" and "input" is a perturbation file. */
  function KindOf(f: InputFile): Kind {
    var t := StrippedLower(f.fileType);
    if t == "parcsdata" then DataFile else if t == "input" then MainInput else Perturbation
  }

  /** The kind is decided by the normalised type name exactly as written. */
  lemma KindByName(f: InputFile)
    ensures var t := Lower(Strip(f.fileType));
            KindOf(f) == if t == "parcsdata" then DataFile else if t == "input" then MainInput else Perturbation
  {
    var t := Lower(Strip(f.fileType));
    StrippedLowerIsLowerStrip(f.fileType);
  }

  /** The files of one kind, in input order. */
  function OfKind(files: seq<InputFile>, k: Kind): (r: seq<InputFile>)
    ensures |r| <= |files|
  {
    if files == [] then []
    else
      var n := |files| - 1;
      OfKind(files[..n], k) + (if KindOf(files[n]) == k then [files[n]] else [])
  }

  /** Every file lands in exactly one of the three lists. */
  lemma {:induction false} KindsPartition(files: seq<InputFile>)
    ensures |OfKind(files, DataFile)| + |OfKind(files, MainInput)| + |OfKind(files, Perturbation)| == |files|
    decreases |files|
  {
    if files != [] {
      KindsPartition(files[..|files| - 1]);
    }
  }

  /** The list of a kind holds files of that kind only, taken from the input. */
  lemma {:induction false} OfKindSound(files: seq<InputFile>, k: Kind)
    ensures forall f | f in OfKind(files, k) :: f in files && KindOf(f) == k
    decreases |files|
  {
    if files != [] {
      OfKindSound(files[..|files| - 1], k);
    }
  }

  /** A file of a kind is in the list of that kind. */
  lemma {:induction false} OfKindHolds(files: seq<InputFile>, k: Kind, i: nat)
    requires i < |files| && KindOf(files[i]) == k
    ensures files[i] in OfKind(files, k)
    decreases |files|
  {
    var n := |files| - 1;
    var rest := OfKind(files[..n], k);
    var all := OfKind(files, k);
    assert rest <= all;
    if i < n {
      OfKindHolds(files[..n], k, i);
      assert files[..n][i] == files[i];
      var j :| 0 <= j < |rest| && rest[j] == files[i];
      assert all[j] == files[i];
    } else {
      assert all == rest + [files[n]];
      assert all[|rest|] == files[i];
    }
  }

  /** The dictionary `findInps` returns. */
  datatype InputDict = InputDict(data: seq<InputFile>, perturb: seq<InputFile>, input: seq<InputFile>)

  /** The sequence read from the `<sequence>` node: `parcs` when there is
      no node; otherwise its text split at commas, each entry stripped. A
      node without text has no `split` (AttributeError). */
  function ReadSequence(node: Option<XmlNode>): (r: Result<seq<string>>)
    ensures node.None? ==> r == Ok(["parcs"])
    ensures node.Some? && node.value.text.None? ==> r == Err(AttributeError)
    ensures node.Some? && node.value.text.Some? ==> r.Ok?
  {
    if node.None? then Ok(["parcs"])
    else if node.value.text.None? then Err(AttributeError)
    else Ok(StripAll(Split(node.value.text.value, ',')))
  }

  /** A sequence read from text has one entry more than the text has
      commas, none of them empty of meaning around the commas: each is the
      stripped piece between two commas, and the pieces joined back with
      commas give the text. */
  lemma ReadSequenceEntries(text: string)
    ensures var r := ReadSequence(Some(XmlNode(Some(text))));
            var pieces := Split(text, ',');
            && r.Ok? && |r.value| == CountChar(text, ',') + 1
            && (forall i | 0 <= i < |r.value| :: r.value[i] == Strip(pieces[i]) && ',' !in r.value[i])
            && Join(pieces, ",") == text
  {
    SplitCount(text, ',');
    JoinSplit(text, ',');
    var pieces := Split(text, ',');
    forall i | 0 <= i < |pieces|
      ensures ',' !in Strip(pieces[i])
    {
      StripInside(pieces[i], ',');
    }
  }

  /** Stripping only removes characters. */
  lemma StripInside(s: string, c: char)
    requires c !in s
    ensures c !in Strip(s)
  {
    var l := LStrip(s);
    assert forall x | x in l :: x in s;
    var r := RStrip(l);
    assert forall x | x in r :: x in l;
  }

  /** The last `n` lines, or all of them when there are fewer. */
  function LastLines(lines: seq<string>, n: nat): (r: seq<string>)
    ensures |r| == if |lines| < n then |lines| else n
    ensures r == lines[|lines| - |r|..]
  {
    if |lines| <= n then lines else lines[|lines| - n..]
  }

  /** Some line among the first `k` contains `word`. */
  function AnyContains(lines: seq<string>, word: string, k: nat): (b: bool)
    requires k <= |lines|
    ensures b <==> exists i | 0 <= i < k :: Contains(lines[i], word)
  {
    if k == 0 then false else AnyContains(lines, word, k - 1) || Contains(lines[k - 1], word)
  }

  /** `checkForOutputFailure` on the message file's lines (`None` when it
      cannot be opened): a missing file is a failure; otherwise the run
      failed exactly when one of the last 20 lines contains "ERROR". */
  function CheckForOutputFailure(messages: Option<seq<string>>): (failure: bool)
    ensures messages.None? ==> failure
    ensures messages.Some? ==>
              var ls := messages.value;
              (failure <==> exists i | |ls| - 20 <= i < |ls| && 0 <= i :: Contains(ls[i], "ERROR"))
  {
    if messages.None? then true
    else
      var ls := messages.value;
      TailContains(ls, 20, "ERROR");
      AnyContains(LastLines(ls, 20), "ERROR", |LastLines(ls, 20)|)
  }

  /** A line of the last `n` contains `word` exactly when some line at
      index `|ls| - n` or later does. */
  lemma TailContains(ls: seq<string>, n: nat, word: string)
    ensures var tail := LastLines(ls, n);
            (exists i | 0 <= i < |tail| :: Contains(tail[i], word))
            <==> (exists i | |ls| - n <= i < |ls| && 0 <= i :: Contains(ls[i], word))
  {
    if exists i | 0 <= i < |LastLines(ls, n)| :: Contains(LastLines(ls, n)[i], word) {
      TailHitInWhole(ls, n, word);
    }
    if exists i | |ls| - n <= i < |ls| && 0 <= i :: Contains(ls[i], word) {
      WholeHitInTail(ls, n, word);
    }
  }

  lemma TailHitInWhole(ls: seq<string>, n: nat, word: string)
    requires exists i | 0 <= i < |LastLines(ls, n)| :: Contains(LastLines(ls, n)[i], word)
    ensures exists i | |ls| - n <= i < |ls| && 0 <= i :: Contains(ls[i], word)
  {
    var tail := LastLines(ls, n);
    var j :| 0 <= j < |tail| && Contains(tail[j], word);
    var k := |ls| - |tail| + j;
    assert tail[j] == ls[k];
    assert |ls| - n <= k < |ls| && 0 <= k && Contains(ls[k], word);
  }

  lemma WholeHitInTail(ls: seq<string>, n: nat, word: string)
    requires exists i | |ls| - n <= i < |ls| && 0 <= i :: Contains(ls[i], word)
    ensures exists i | 0 <= i < |LastLines(ls, n)| :: Contains(LastLines(ls, n)[i], word)
  {
    var tail := LastLines(ls, n);
    var j :| |ls| - n <= j < |ls| && 0 <= j && Contains(ls[j], word);
    var k := j - (|ls| - |tail|);
    assert ls[j] == tail[k];
    assert 0 <= k < |tail| && Contains(tail[k], word);
  }

  /** An error reported before the last 20 lines is not seen: twenty
      clean lines after it make the run a success. */
  lemma EarlyErrorsIgnored(before: seq<string>, clean: seq<string>)
    requires |clean| == 20 && forall i | 0 <= i < 20 :: !Contains(clean[i], "ERROR")
    ensures !CheckForOutputFailure(Some(before + clean))
  {
    var ls := before + clean;
    forall i | |ls| - 20 <= i < |ls| && 0 <= i
      ensures !Contains(ls[i], "ERROR")
    {
      assert ls[i] == clean[i - |before|];
    }
  }

  /** The path of the main input relative to its directory:
      `path.replace(dirname(path) + '/', '').strip()`. */
  function RelativeInput(path: string): string {
    Strip(ReplaceAll(path, Dirname(path) + "/", ""))
  }

  /** A bare file name is its own relative input, up to surrounding spaces. */
  lemma RelativeOfBareName(name: string)
    requires '/' !in name
    ensures RelativeInput(name) == Strip(name)
  {
    assert Dirname(name) == "";
    assert Dirname(name) + "/" == "/";
    NoOccurrence(name, "/", '/');
    ReplaceAbsent(name, "/", "");
  }

  /** A name under a directory is relative to that directory. */
  lemma RelativeOfNestedName(dir: string, name: string)
    requires '/' !in dir && dir != [] && '/' !in name
    ensures RelativeInput(dir + "/" + name) == Strip(name)
  {
    var p := dir + "/" + name;
    DirnameOfNested(dir, name);
    ReplaceLeadingDir(dir, name);
  }

  /** The directory of `dir/name` is `dir`. */
  lemma DirnameOfNested(dir: string, name: string)
    requires '/' !in dir && dir != [] && '/' !in name
    ensures Dirname(dir + "/" + name) == dir
  {
    var p := dir + "/" + name;
    var k := |dir| + 1;
    forall i | k <= i < |p|
      ensures p[i] != '/'
    {
      assert p[i] == name[i - k];
    }
    LastSlashAfter(p, k);
    var head := p[..k];
    assert head == dir + "/";
    assert head[0] != '/';
    assert head[..|head| - 1] == dir;
    assert TrimTrailingSlashes(head) == TrimTrailingSlashes(dir);
  }

  /** Removing the leading `dir/` from `dir/name` leaves `name`. */
  lemma ReplaceLeadingDir(dir: string, name: string)
    requires '/' !in name
    ensures ReplaceAll(dir + "/" + name, dir + "/", "") == name
  {
    var pat := dir + "/";
    var p := pat + name;
    assert p[..|pat|] == pat && p[|pat|..] == name;
    NoOccurrence(name, pat, '/');
    ReplaceAbsent(name, pat, "");
  }

  /** When `p[k - 1]` is the last slash, the last slash ends at `k`. */
  lemma {:induction false} LastSlashAfter(p: string, k: nat)
    requires 0 < k <= |p| && p[k - 1] == '/' && forall i | k <= i < |p| :: p[i] != '/'
    ensures LastSlashEnd(p) == k
    decreases |p|
  {
    if |p| > k {
      LastSlashAfter(p[..|p| - 1], k);
    }
  }

  /** A pattern holding a character the text lacks does not occur in it. */
  lemma NoOccurrence(s: string, pat: string, c: char)
    requires c in pat && c !in s
    ensures !Contains(s, pat)
  {
    forall i | 0 <= i <= |s| - |pat|
      ensures !OccursAt(s, pat, i)
    {
      var j :| 0 <= j < |pat| && pat[j] == c;
    }
  }

  /** A run command: how to run it and the command line. */
  datatype Command = Command(mode: string, line: string)

  /** The interface object: the run sequence and the output roots by
      (lower-cased) sequence entry, with the keys' insertion order. */
  class ParcsInterface {
    var sequence: seq<string>
    var outputRoot: map<string, string>
    var rootOrder: seq<string>

    /** The keys of `outputRoot` are listed once each, in insertion order. */
    predicate Valid()
      reads this
    {
      (forall i, j | 0 <= i < j < |rootOrder| :: rootOrder[i] != rootOrder[j])
      && (forall k | k in outputRoot :: k in rootOrder)
      && (forall k | k in rootOrder :: k in outputRoot)
    }

    constructor()
      ensures Valid() && sequence == [] && outputRoot == map[] && rootOrder == []
    {
      sequence, outputRoot, rootOrder := [], map[], [];
    }

    /** `_readMoreXML`: the sequence is read from the node. */
    method ReadMoreXml(node: Option<XmlNode>) returns (r: Outcome)
      requires Valid()
      modifies this
      ensures Valid() && outputRoot == old(outputRoot) && rootOrder == old(rootOrder)
      ensures var s := ReadSequence(node);
              && (s.Ok? ==> r == Pass && sequence == s.value)
              && (s.Err? ==> r == Fail(s.error) && sequence == old(sequence))
    {
      var read := ReadSequence(node);
      if read.Err? {
        return Fail(read.error);
      }
      sequence := read.value;
      r := Pass;
    }

    /** `findInps`: the files sorted by kind; more than one of any kind, or
        no data or perturbation file, raises IOError. A missing main input
        is allowed here. */
    static method FindInps(files: seq<InputFile>) returns (r: Result<InputDict>)
      ensures var d := OfKind(files, DataFile);
              var p := OfKind(files, Perturbation);
              var m := OfKind(files, MainInput);
              && (r.Ok? <==> |d| == 1 && |p| == 1 && |m| <= 1)
              && (r.Ok? ==> r.value == InputDict(d, p, m))
              && (r.Err? ==> r.error == IOError)
    {
      var data, perturb, input := [], [], [];
      for i := 0 to |files|
        invariant data == OfKind(files[..i], DataFile)
        invariant perturb == OfKind(files[..i], Perturbation)
        invariant input == OfKind(files[..i], MainInput)
      {
        assert files[..i + 1][..i] == files[..i];
        var kind := KindOf(files[i]);
        if kind == DataFile {
          data := data + [files[i]];
        } else if kind == MainInput {
          input := input + [files[i]];
        } else {
          perturb := perturb + [files[i]];
        }
      }
      assert files[..|files|] == files;
      if |perturb| > 1 || |data| > 1 || |input| > 1 {
        return Err(IOError);
      }
      if |perturb| < 1 || |data| < 1 {
        return Err(IOError);
      }
      r := Ok(InputDict(data, perturb, input));
    }

    /** `generateCommand`: one parallel command running the executable on
        the main input's relative path; the main input's base name becomes
        the output root of the first sequence entry (lower-cased), and the
        root of the most recently added entry is returned. A missing main
        input, a printed form without a path, or an empty sequence raises
        IndexError. */
    method GenerateCommand(files: seq<InputFile>, executable: string) returns (r: Result<(seq<Command>, string)>)
      requires Valid()
      modifies this
      ensures Valid() && sequence == old(sequence)
      ensures r.Ok? ==> |OfKind(files, MainInput)| == 1 && |sequence| > 0 && |Words(OfKind(files, MainInput)[0].display)| >= 2
      ensures r.Ok? ==>
                var main := OfKind(files, MainInput)[0];
                var key := Lower(sequence[0]);
                && r.value.0 == [Command("parallel", executable + " " + RelativeInput(Words(main.display)[1]))]
                && outputRoot == old(outputRoot)[key := main.base]
                && rootOrder == old(rootOrder) + (if key in old(outputRoot) then [] else [key])
                && r.value.1 == outputRoot[rootOrder[|rootOrder| - 1]]
                && (key !in old(outputRoot) || old(rootOrder)[|old(rootOrder)| - 1] == key ==> r.value.1 == main.base)
      ensures r.Err? ==> outputRoot == old(outputRoot) && rootOrder == old(rootOrder)
      ensures var d := OfKind(files, DataFile);
              var p := OfKind(files, Perturbation);
              var m := OfKind(files, MainInput);
              && (!(|d| == 1 && |p| == 1 && |m| <= 1) ==> r == Err(IOError))
              && (|d| == 1 && |p| == 1 && |m| <= 1 ==>
                    (r.Err? <==> |m| == 0 || |Words(m[0].display)| < 2 || |sequence| == 0)
                    && (r.Err? ==> r.error == IndexError))
    {
      var found := FindInps(files);
      if found.Err? {
        return Err(found.error);
      }
      var inputDict := found.value;
      if |inputDict.input| == 0 {
        return Err(IndexError);
      }
      var words := Words(inputDict.input[0].display);
      if |words| < 2 {
        return Err(IndexError);
      }
      var parcsInput := words[1];
      var workingDir := Dirname(parcsInput);
      parcsInput := Strip(ReplaceAll(parcsInput, workingDir + "/", ""));
      if |sequence| == 0 {
        return Err(IndexError);
      }
      var key := Lower(sequence[0]);
      if key !in outputRoot {
        rootOrder := rootOrder + [key];
      }
      outputRoot := outputRoot[key := inputDict.input[0].base];
      var commands := [Command("parallel", executable + " " + parcsInput)];
      r := Ok((commands, outputRoot[rootOrder[|rootOrder| - 1]]));
    }
  }
}
