/** The AccelerateCFD code interface: the `(x,y,z)` probe coordinates read
    from `<outputLocations>`, the lookup of input files by type, the fixed
    command sequence of a reduced-order run, the refusal of dynamic event
    trees, and the names of the probe variables written to the results. */
module AccelerateCfd {
  import opened PyErrors
  import opened PyStr

  /** A RAVEN input file as the interface sees it: its type and base name. */
  datatype InputFile = InputFile(fileType: string, base: string)

  /** The `<coordinates>` node: its text may be missing. */
  datatype CoordinatesNode = CoordinatesNode(text: Option<string>)

  /** A child of the interface's XML node: its tag and the `<coordinates>`
      node found under it, if any. */
  datatype Child = Child(tag: string, coordinates: Option<CoordinatesNode>)

  /** A run command: how to run it and the command line. */
  datatype Command = Command(mode: string, line: string)

  // ---------------------------------------------------------------------
  // Coordinate tokens

  /** One whitespace-free token `(x,y,z)`: it must be bracketed, and once
      every parenthesis is removed it must split at commas into exactly
      three parts, which are stripped. Anything else is an IOError. */
  function ParseToken(tok: string): (r: Result<seq<string>>)
    ensures r.Ok? ==> |r.value| == 3
    ensures r.Err? ==> r.error == IOError
  {
    if !StartsWith(tok, "(") || !EndsWith(tok, ")") then Err(IOError)
    else
      var parts := Split(RemoveChar(RemoveChar(tok, ')'), '('), ',');
      if |parts| != 3 then Err(IOError) else Ok(StripAll(parts))
  }

  /** A token is accepted exactly when it is bracketed and holds two commas. */
  lemma TokenAccepted(tok: string)
    ensures ParseToken(tok).Ok? <==> StartsWith(tok, "(") && EndsWith(tok, ")") && CountChar(tok, ',') == 2
  {
    var inner := RemoveChar(RemoveChar(tok, ')'), '(');
    SplitCount(inner, ',');
    RemoveCharCount(tok, ')', ',');
    RemoveCharCount(RemoveChar(tok, ')'), '(', ',');
  }

  /** The token written for a point. */
  function FormatToken(x: string, y: string, z: string): string {
    "(" + x + "," + y + "," + z + ")"
  }

  /** A coordinate that can be written inside a token and read back. */
  predicate PlainCoordinate(x: string) {
    '(' !in x && ')' !in x && ',' !in x && !HasSpace(x)
  }

  /** Removing the parentheses from a bracketed text without others
      leaves the text. */
  lemma Unbracketed(inner: string)
    requires '(' !in inner && ')' !in inner
    ensures RemoveChar(RemoveChar("(" + inner + ")", ')'), '(') == inner
  {
    RemoveCharConcat("(" + inner, ")", ')');
    RemoveCharConcat("(", inner, ')');
    RemoveCharAbsent(inner, ')');
    assert RemoveChar("(" + inner + ")", ')') == "(" + inner;
    RemoveCharConcat("(", inner, '(');
    RemoveCharAbsent(inner, '(');
  }

  /** Three comma-free parts joined by commas split back into themselves. */
  lemma SplitThree(x: string, y: string, z: string)
    requires ',' !in x && ',' !in y && ',' !in z
    ensures Split(x + [','] + y + [','] + z, ',') == [x, y, z]
  {
    assert x + [','] + y + [','] + z == x + [','] + (y + [','] + z);
    SplitConcat(x, y + [','] + z, ',');
    SplitConcat(y, z, ',');
    SplitNoSeparator(x, ',');
    SplitNoSeparator(y, ',');
    SplitNoSeparator(z, ',');
  }

  /** Reading a written point gives back its three coordinates. */
  lemma ParseFormatted(x: string, y: string, z: string)
    requires PlainCoordinate(x) && PlainCoordinate(y) && PlainCoordinate(z)
    ensures ParseToken(FormatToken(x, y, z)) == Ok([x, y, z])
  {
    assert FormatToken(x, y, z) == "(" + (x + [','] + y + [','] + z) + ")";
    ParseThree(x, y, z);
  }

  lemma ParseThree(x: string, y: string, z: string)
    requires PlainCoordinate(x) && PlainCoordinate(y) && PlainCoordinate(z)
    ensures ParseToken("(" + (x + [','] + y + [','] + z) + ")") == Ok([x, y, z])
  {
    var inner := x + [','] + y + [','] + z;
    SplitThree(x, y, z);
    ParseBracketed(inner);
    StripThree(x, y, z);
  }

  /** A bracketed text without other parentheses parses as its
      comma-separated parts, stripped, when there are three of them. */
  lemma ParseBracketed(inner: string)
    requires '(' !in inner && ')' !in inner
    ensures |Split(inner, ',')| == 3 ==> ParseToken("(" + inner + ")") == Ok(StripAll(Split(inner, ',')))
  {
    var tok := "(" + inner + ")";
    assert tok[..1] == "(" && tok[|tok| - 1..] == ")";
    Unbracketed(inner);
  }

  lemma StripThree(x: string, y: string, z: string)
    requires !HasSpace(x) && !HasSpace(y) && !HasSpace(z)
    ensures StripAll([x, y, z]) == [x, y, z]
  {
    var parts := [x, y, z];
    StripPlain(x);
    StripPlain(y);
    StripPlain(z);
    assert forall i | 0 <= i < 3 :: Strip(parts[i]) == parts[i];
  }

  /** The reading of each token, in order. */
  function ParseEach(tokens: seq<string>): (r: seq<Result<seq<string>>>)
    ensures |r| == |tokens|
  {
    if tokens == [] then [] else [ParseToken(tokens[0])] + ParseEach(tokens[1..])
  }

  lemma {:induction false} ParseEachAt(tokens: seq<string>, i: nat)
    requires i < |tokens|
    ensures ParseEach(tokens)[i] == ParseToken(tokens[i])
  {
    if i > 0 {
      ParseEachAt(tokens[1..], i - 1);
    }
  }

  /** `np.atleast_2d` over the rows: no rows at all become one empty row. */
  function AtLeast2d(rows: seq<seq<string>>): seq<seq<string>> {
    if rows == [] then [[]] else rows
  }

  /** The coordinate rows read from the text of `<coordinates>`. */
  function Rows(text: string): Result<seq<seq<string>>> {
    var tokens := Words(text);
    var parsed := AllOrFirstError(ParseEach(tokens), |tokens|);
    if parsed.Err? then Err(parsed.error) else Ok(AtLeast2d(parsed.value))
  }

  /** A point written with spaces after its commas falls apart into
      several tokens, and the first of them is refused. */
  lemma SpacedPointRefused(x: string, rest: string)
    requires x != [] && !HasSpace(x) && ')' !in x
    ensures Rows("(" + x + ", " + rest) == Err(IOError)
  {
    var text := "(" + x + ", " + rest;
    var first := "(" + x + ",";
    var k := |first|;
    forall i | 0 <= i < k
      ensures !IsSpace(text[i])
    {
      if 0 < i < k - 1 {
        assert text[i] == x[i - 1];
      }
    }
    assert IsSpace(text[k]);
    WordLengthStops(text, k);
    assert text[..k] == first;
    assert Words(text) == [first] + Words(text[k..]);
    assert first[|first| - 1] == ',';
    assert ParseToken(first) == Err(IOError);
    ParseEachAt(Words(text), 0);
  }

  /** The word starting a string runs up to its first whitespace. */
  lemma {:induction false} WordLengthStops(s: string, k: nat)
    requires k < |s| && IsSpace(s[k]) && forall i | 0 <= i < k :: !IsSpace(s[i])
    ensures WordLength(s) == k
    decreases k
  {
    if k > 0 {
      WordLengthStops(s[1..], k - 1);
    }
  }

  /** The `<coordinates>` node of one `<outputLocations>` child: a missing
      node is an IOError, a node without text has no `split`. */
  function ChildRows(c: Child): Result<seq<seq<string>>> {
    if c.coordinates.None? then Err(IOError)
    else if c.coordinates.value.text.None? then Err(AttributeError)
    else Rows(c.coordinates.value.text.value)
  }

  /** The `inputCoords` entry after some children, and the error that
      stopped the reading, if any. */
  datatype Locations = Locations(coords: Option<seq<seq<string>>>, error: Option<Error>)

  /** What one child contributes: nothing unless it is an
      `<outputLocations>` node, otherwise the reading of its coordinates. */
  function Reading(c: Child): Option<Result<seq<seq<string>>>> {
    if c.tag == "outputLocations" then Some(ChildRows(c)) else None
  }

  function Readings(children: seq<Child>): (r: seq<Option<Result<seq<seq<string>>>>>)
    ensures |r| == |children|
  {
    if children == [] then [] else [Reading(children[0])] + Readings(children[1..])
  }

  lemma {:induction false} ReadingsAt(children: seq<Child>, i: nat)
    requires i < |children|
    ensures Readings(children)[i] == Reading(children[i])
  {
    if i > 0 {
      ReadingsAt(children[1..], i - 1);
    }
  }

  /** `_readMoreXML` over the readings of the first `k` children: every
      `<outputLocations>` child replaces the coordinates; the first bad one
      stops the reading. */
  function Scan(rs: seq<Option<Result<seq<seq<string>>>>>, k: nat): Locations
    requires k <= |rs|
  {
    if k == 0 then Locations(None, None)
    else
      var prev := Scan(rs, k - 1);
      if prev.error.Some? || rs[k - 1].None? then prev
      else if rs[k - 1].value.Err? then Locations(prev.coords, Some(rs[k - 1].value.error))
      else Locations(Some(rs[k - 1].value.value), None)
  }

  /** Without an error, the coordinates come from the last
      `<outputLocations>` child, and there are none without such a child. */
  lemma {:induction false} LastLocationsWin(rs: seq<Option<Result<seq<seq<string>>>>>, k: nat)
    requires k <= |rs|
    ensures var l := Scan(rs, k);
            l.error.None? ==>
              && (l.coords.None? <==> forall i | 0 <= i < k :: rs[i].None?)
              && (l.coords.Some? ==>
                    exists i | 0 <= i < k :: rs[i] == Some(Ok(l.coords.value)) && forall j | i < j < k :: rs[j].None?)
  {
    if k > 0 {
      LastLocationsWin(rs, k - 1);
      var l := Scan(rs, k);
      if l.error.None? && rs[k - 1].Some? {
        assert rs[k - 1] == Some(Ok(l.coords.value));
      }
    }
  }

  /** The reading fails exactly when some `<outputLocations>` child is bad,
      and then with the error of the first such child. */
  lemma {:induction false} LocationsFail(rs: seq<Option<Result<seq<seq<string>>>>>, k: nat)
    requires k <= |rs|
    ensures var l := Scan(rs, k);
            && (l.error.Some? <==> exists i | 0 <= i < k :: rs[i].Some? && rs[i].value.Err?)
            && (l.error.Some? ==>
                  exists i | 0 <= i < k :: rs[i] == Some(Err(l.error.value)) && forall j | 0 <= j < i :: !(rs[j].Some? && rs[j].value.Err?))
  {
    if k > 0 {
      LocationsFail(rs, k - 1);
    }
  }

  // ---------------------------------------------------------------------
  // Input files by type

  /** The files whose stripped, lower-cased type is `inputType` lower-cased,
      in input order. */
  function OfType(files: seq<InputFile>, inputType: string): (r: seq<InputFile>)
    ensures |r| <= |files|
  {
    if files == [] then []
    else
      var n := |files| - 1;
      OfType(files[..n], inputType) + (if TypeIs(files[n], inputType) then [files[n]] else [])
  }

  /** `inputFile.getType().strip().lower() == inputType.lower()` */
  predicate TypeIs(f: InputFile, inputType: string) {
    SameText(StrippedLower(f.fileType), Lower(inputType))
  }

  lemma TypeIsMeans(f: InputFile, inputType: string)
    ensures TypeIs(f, inputType) <==> Lower(Strip(f.fileType)) == Lower(inputType)
  {
    StrippedLowerIsLowerStrip(f.fileType);
    SameTextIsEquality(StrippedLower(f.fileType), Lower(inputType));
  }

  /** A file is selected exactly when its type matches; selection keeps
      the input order, since it distributes over concatenation. */
  lemma {:induction false} OfTypeMembers(files: seq<InputFile>, inputType: string)
    ensures forall f | f in OfType(files, inputType) :: f in files && TypeIs(f, inputType)
    ensures forall i | 0 <= i < |files| && TypeIs(files[i], inputType) :: files[i] in OfType(files, inputType)
    decreases |files|
  {
    if files != [] {
      var n := |files| - 1;
      OfTypeMembers(files[..n], inputType);
      forall i | 0 <= i < n
        ensures files[i] == files[..n][i]
      {
      }
    }
  }

  lemma {:induction false} OfTypeConcat(a: seq<InputFile>, b: seq<InputFile>, inputType: string)
    ensures OfType(a + b, inputType) == OfType(a, inputType) + OfType(b, inputType)
    decreases |b|
  {
    if b == [] {
      assert a + b == a;
    } else {
      var n := |b| - 1;
      var x := b[n];
      var t := if TypeIs(x, inputType) then [x] else [];
      assert (a + b)[..|a| + n] == a + b[..n] && (a + b)[|a| + n] == x;
      assert OfType(a + b, inputType) == OfType(a + b[..n], inputType) + t;
      assert OfType(b, inputType) == OfType(b[..n], inputType) + t;
      OfTypeConcat(a, b[..n], inputType);
      ConcatAssoc(OfType(a, inputType), OfType(b[..n], inputType), t);
    }
  }

  /** No file of any type is selected from an empty list, and a file whose
      type does not match is never selected. */
  lemma OfTypeSkips(f: InputFile, inputType: string)
    requires Lower(Strip(f.fileType)) != Lower(inputType)
    ensures OfType([f], inputType) == []
  {
    TypeIsMeans(f, inputType);
    assert [f][..0] == [];
  }

  // ---------------------------------------------------------------------
  // The command sequence

  /** The ten steps of a reduced-order run; the `cd` enters the case
      directory `rom/<romType>_<romName>/system` and the later ones climb
      back out. */
  function PodCommands(romType: string, romName: string): seq<Command> {
    [ Command("parallel", "podPrecompute -parallel"),
      Command("parallel", "podROM -i podInputs.xml -parallel"),
      Command("parallel", "podFlowReconstruct -parallel"),
      Command("parallel", "podPostProcess aVelocityFOM -parallel"),
      CdInto("rom/" + romType + "_" + romName + "/" + "system"),
      Command("serial", "rm  controlDict"),
      Command("serial", "cp controlDict.2 controlDict"),
      CdInto("../"),
      Command("parallel", "postProcess -parallel"),
      CdInto("../..") ]
  }

  /** The serial command `cd <path>`. */
  function CdInto(path: string): Command {
    Command("serial", "cd " + path)
  }

  /** Levels one path component moves: `..` climbs, `` and `.` stay. */
  function StepDepth(part: string): int {
    if part == ".." then -1 else if part == "" || part == "." then 0 else 1
  }

  /** Levels a relative path moves. */
  function PathDepth(parts: seq<string>): int {
    if parts == [] then 0 else PathDepth(parts[..|parts| - 1]) + StepDepth(parts[|parts| - 1])
  }

  /** Levels a command moves the working directory: only `cd` moves it. */
  function CommandDepth(c: Command): int {
    if IsCd(c.line) then CdDepth(c.line) else 0
  }

  /** Levels a `cd` line moves: the depth of the path after `cd `. */
  function CdDepth(line: string): int
    requires IsCd(line)
  {
    PathDepth(Split(line[3..], '/'))
  }

  /** The line is a `cd` command: it starts with `cd `. */
  predicate IsCd(line: string) {
    |line| >= 3 && line[0] == 'c' && line[1] == 'd' && line[2] == ' '
  }

  /** Depth below the working directory after the first `k` commands. */
  function DepthAfter(cmds: seq<Command>, k: nat): int
    requires k <= |cmds|
  {
    if k == 0 then 0 else DepthAfter(cmds, k - 1) + CommandDepth(cmds[k - 1])
  }

  /** Entering the case's `system` directory goes three levels down. */
  lemma CdIntoSystem(romType: string, romName: string)
    requires '/' !in romType && '/' !in romName
    ensures CommandDepth(CdInto("rom/" + romType + "_" + romName + "/" + "system")) == 3
  {
    var case_ := romType + "_" + romName;
    var path := "rom/" + romType + "_" + romName + "/" + "system";
    assert path == "rom" + ['/'] + (case_ + ['/'] + "system");
    assert case_[|romType|] == '_';
    CdIntoDepth(path);
    SystemPathDepth(case_);
  }

  /** A `cd` command moves by the depth of its path. */
  lemma CdIntoDepth(path: string)
    ensures CommandDepth(CdInto(path)) == PathDepth(Split(path, '/'))
  {
    var line := "cd " + path;
    assert line[0] == 'c' && line[1] == 'd' && line[2] == ' ';
    assert line[3..] == path;
  }

  /** `rom/<case>/system` is three levels deep when the case name is a
      single, non-empty, ordinary component. */
  lemma SystemPathDepth(case_: string)
    requires '/' !in case_ && case_ != "" && case_ != "." && case_ != ".."
    ensures PathDepth(Split("rom" + ['/'] + (case_ + ['/'] + "system"), '/')) == 3
  {
    var rom, system := "rom", "system";
    assert '/' !in rom && '/' !in system;
    SplitThreeParts(rom, case_, system, '/');
    PathDepthThree(rom, case_, system);
    assert StepDepth(rom) == 1 && StepDepth(case_) == 1 && StepDepth(system) == 1;
  }

  lemma SplitThreeParts(a: string, b: string, c: string, sep: char)
    requires sep !in a && sep !in b && sep !in c
    ensures Split(a + [sep] + (b + [sep] + c), sep) == [a, b, c]
  {
    SplitConcat(a, b + [sep] + c, sep);
    SplitConcat(b, c, sep);
    SplitNoSeparator(a, sep);
    SplitNoSeparator(b, sep);
    SplitNoSeparator(c, sep);
  }

  lemma PathDepthThree(a: string, b: string, c: string)
    ensures PathDepth([a, b, c]) == StepDepth(a) + StepDepth(b) + StepDepth(c)
  {
    var p := [a, b, c];
    assert p[..2] == [a, b] && [a, b][..1] == [a] && [a][..0] == [];
    calc {
      PathDepth(p);
      PathDepth([a, b]) + StepDepth(c);
      PathDepth([a]) + StepDepth(b) + StepDepth(c);
      PathDepth([]) + StepDepth(a) + StepDepth(b) + StepDepth(c);
    }
  }

  /** `cd ../` climbs one level, `cd ../..` two. */
  lemma CdUp()
    ensures CommandDepth(CdInto("../")) == -1
    ensures CommandDepth(CdInto("../..")) == -2
  {
    CdIntoDepth("../");
    CdIntoDepth("../..");
    assert "../" == ".." + ['/'] + "";
    assert "../.." == ".." + ['/'] + "..";
    PathDepthTwo("..", "");
    PathDepthTwo("..", "..");
  }

  /** Two slash-free components joined by one slash. */
  lemma PathDepthTwo(first: string, last: string)
    requires '/' !in first && '/' !in last
    ensures PathDepth(Split(first + ['/'] + last, '/')) == StepDepth(first) + StepDepth(last)
  {
    SplitNoSeparator(first, '/');
    SplitNoSeparator(last, '/');
    SplitConcat(first, last, '/');
    var parts := Split(first + ['/'] + last, '/');
    assert parts == [first, last];
    assert parts[..1] == [first] && [first][..0] == [];
    calc {
      PathDepth(parts);
      PathDepth([first]) + StepDepth(last);
      PathDepth([]) + StepDepth(first) + StepDepth(last);
    }
  }

  /** The `cd` test is Python's `startswith("cd ")`. */
  lemma IsCdStartsWith(line: string)
    ensures IsCd(line) <==> StartsWith(line, "cd ")
  {
    if StartsWith(line, "cd ") {
      assert line[..3][0] == 'c' && line[..3][1] == 'd' && line[..3][2] == ' ';
    }
  }

  /** For a ROM type and name without slashes, the pod steps run in the
      working directory, the control dictionary is swapped three levels
      down in `rom/<type>_<name>/system`, `postProcess` runs two levels
      down in the case directory, and the sequence ends back where it
      started. */
  lemma PodCommandsDepth(romType: string, romName: string)
    requires '/' !in romType && '/' !in romName
    ensures var cmds := PodCommands(romType, romName);
            && |cmds| == 10
            && DepthAfter(cmds, 4) == 0
            && DepthAfter(cmds, 5) == 3 && DepthAfter(cmds, 7) == 3
            && DepthAfter(cmds, 8) == 2 && cmds[8].line == "postProcess -parallel"
            && DepthAfter(cmds, 10) == 0
  {
    PodStepDepths(romType, romName);
    DepthWalk(PodCommands(romType, romName));
  }

  /** Running depths of ten commands that move by 0, 0, 0, 0, 3, 0, 0,
      -1, 0, -2 levels. */
  lemma DepthWalk(cmds: seq<Command>)
    requires |cmds| == 10
    requires CommandDepth(cmds[0]) == 0 && CommandDepth(cmds[1]) == 0
             && CommandDepth(cmds[2]) == 0 && CommandDepth(cmds[3]) == 0
             && CommandDepth(cmds[4]) == 3
             && CommandDepth(cmds[5]) == 0 && CommandDepth(cmds[6]) == 0
             && CommandDepth(cmds[7]) == -1
             && CommandDepth(cmds[8]) == 0
             && CommandDepth(cmds[9]) == -2
    ensures DepthAfter(cmds, 4) == 0
    ensures DepthAfter(cmds, 5) == 3 && DepthAfter(cmds, 7) == 3
    ensures DepthAfter(cmds, 8) == 2
    ensures DepthAfter(cmds, 10) == 0
  {
    assert DepthAfter(cmds, 4) == 0 by {
      assert DepthAfter(cmds, 1) == 0;
      assert DepthAfter(cmds, 2) == 0;
      assert DepthAfter(cmds, 3) == 0;
    }
    assert DepthAfter(cmds, 7) == 3 by {
      assert DepthAfter(cmds, 5) == 3;
      assert DepthAfter(cmds, 6) == 3;
    }
    assert DepthAfter(cmds, 8) == 2;
    assert DepthAfter(cmds, 9) == 2;
  }

  /** How far each of the ten commands moves the working directory. */
  lemma PodStepDepths(romType: string, romName: string)
    requires '/' !in romType && '/' !in romName
    ensures var cmds := PodCommands(romType, romName);
            && |cmds| == 10
            && CommandDepth(cmds[0]) == 0 && CommandDepth(cmds[1]) == 0
            && CommandDepth(cmds[2]) == 0 && CommandDepth(cmds[3]) == 0
            && CommandDepth(cmds[4]) == 3
            && CommandDepth(cmds[5]) == 0 && CommandDepth(cmds[6]) == 0
            && CommandDepth(cmds[7]) == -1
            && CommandDepth(cmds[8]) == 0
            && CommandDepth(cmds[9]) == -2
  {
    PodStepsStay(romType, romName);
    SwapStepsStay(romType, romName);
    CdStepsMove(romType, romName);
  }

  /** The four pod tools run where they are started. */
  lemma PodStepsStay(romType: string, romName: string)
    ensures var cmds := PodCommands(romType, romName);
            && CommandDepth(cmds[0]) == 0 && CommandDepth(cmds[1]) == 0
            && CommandDepth(cmds[2]) == 0 && CommandDepth(cmds[3]) == 0
  {
    var cmds := PodCommands(romType, romName);
    NotCdStays(cmds[0]);
    NotCdStays(cmds[1]);
    NotCdStays(cmds[2]);
    NotCdStays(cmds[3]);
  }

  /** Swapping the control dictionary and post-processing stay put. */
  lemma SwapStepsStay(romType: string, romName: string)
    ensures var cmds := PodCommands(romType, romName);
            CommandDepth(cmds[5]) == 0 && CommandDepth(cmds[6]) == 0 && CommandDepth(cmds[8]) == 0
  {
    var cmds := PodCommands(romType, romName);
    NotCdStays(cmds[5]);
    NotCdStays(cmds[6]);
    NotCdStays(cmds[8]);
  }

  /** The three `cd` steps go down three levels and climb one, then two. */
  lemma CdStepsMove(romType: string, romName: string)
    requires '/' !in romType && '/' !in romName
    ensures var cmds := PodCommands(romType, romName);
            CommandDepth(cmds[4]) == 3 && CommandDepth(cmds[7]) == -1 && CommandDepth(cmds[9]) == -2
  {
    CdIntoSystem(romType, romName);
    CdUp();
  }

  /** A command whose first two letters are not `cd` stays put. */
  lemma NotCdStays(c: Command)
    requires |c.line| >= 2 && (c.line[0] != 'c' || c.line[1] != 'd')
    ensures CommandDepth(c) == 0
  {
  }

  // ---------------------------------------------------------------------
  // Sampler guard

  /** `createNewInput` refuses every sampler whose type, lower-cased,
      mentions a dynamic event tree. */
  predicate SamplerRefused(samplerType: string) {
    Contains(Lower(samplerType), "dynamiceventtree")
  }

  /** The refusal ignores case, wherever the words appear. */
  lemma RefusedAnyCase(pre: string, mid: string, post: string)
    requires Lower(mid) == "dynamiceventtree"
    ensures SamplerRefused(pre + mid + post)
  {
    LowerConcat(pre + mid, post);
    LowerConcat(pre, mid);
    var l := Lower(pre + mid + post);
    assert l[|pre|..|pre| + 16] == Lower(mid);
    assert OccursAt(l, "dynamiceventtree", |pre|);
  }

  // ---------------------------------------------------------------------
  // Probe variable names

  /** Python's `repr` of a printable string: double quotes when it holds
      a single quote and no double quote, single quotes otherwise; the
      backslash and the chosen quote are escaped. */
  function Repr(s: string): string {
    var q := if '\'' in s && '"' !in s then '"' else '\'';
    [q] + Escape(s, q) + [q]
  }

  function Escape(s: string, q: char): string {
    if s == [] then []
    else (if s[0] == '\\' || s[0] == q then ['\\', s[0]] else [s[0]]) + Escape(s[1..], q)
  }

  lemma {:induction false} EscapePlain(s: string, q: char)
    requires '\\' !in s && q !in s
    ensures Escape(s, q) == s
  {
    if s != [] {
      EscapePlain(s[1..], q);
      assert s == [s[0]] + s[1..];
    }
  }

  /** `str(tuple(row))` for a row of strings. */
  function TupleRepr(row: seq<string>): string {
    "(" + Join(ReprAll(row), ", ") + (if |row| == 1 then ",)" else ")")
  }

  function ReprAll(row: seq<string>): (r: seq<string>)
    ensures |r| == |row| && forall i | 0 <= i < |row| :: r[i] == Repr(row[i])
  {
    if row == [] then [] else [Repr(row[0])] + ReprAll(row[1..])
  }

  /** The replacements applied to a probe name, character by character:
      spaces, single quotes and parentheses are dropped, commas and dots
      become underscores. `MangleIsReplaceChain` shows it is the chain of
      `replace` calls. */
  function Mangle(s: string): string {
    if s == [] then [] else MangleChar(s[0]) + Mangle(s[1..])
  }

  function MangleChar(c: char): string {
    if c == ' ' || c == '\'' || c == '(' || c == ')' then []
    else if c == ',' || c == '.' then "_"
    else [c]
  }

  /** The source's chain of replacements. */
  function ReplaceChain(s: string): string {
    ReplaceChar(ReplaceChar(RemoveChar(RemoveChar(RemoveChar(RemoveChar(s, ' '), '\''), '('), ')'), ',', '_'), '.', '_')
  }

  lemma {:induction false} MangleIsReplaceChain(s: string)
    ensures Mangle(s) == ReplaceChain(s)
  {
    if s != [] {
      MangleIsReplaceChain(s[1..]);
      var h := [s[0]];
      assert s == h + s[1..];
      MangleConcat(h, s[1..]);
      ReplaceChainConcat(h, s[1..]);
    }
  }

  lemma ReplaceChainConcat(a: string, b: string)
    ensures ReplaceChain(a + b) == ReplaceChain(a) + ReplaceChain(b)
  {
    RemoveCharConcat(a, b, ' ');
    var a1, b1 := RemoveChar(a, ' '), RemoveChar(b, ' ');
    RemoveCharConcat(a1, b1, '\'');
    var a2, b2 := RemoveChar(a1, '\''), RemoveChar(b1, '\'');
    RemoveCharConcat(a2, b2, '(');
    var a3, b3 := RemoveChar(a2, '('), RemoveChar(b2, '(');
    RemoveCharConcat(a3, b3, ')');
    var a4, b4 := RemoveChar(a3, ')'), RemoveChar(b3, ')');
    ReplaceCharConcat(a4, b4, ',', '_');
    ReplaceCharConcat(ReplaceChar(a4, ',', '_'), ReplaceChar(b4, ',', '_'), '.', '_');
  }

  /** A mangled name holds none of the replaced characters. */
  lemma {:induction false} MangleClean(s: string)
    ensures var r := Mangle(s);
            ' ' !in r && '\'' !in r && '(' !in r && ')' !in r && ',' !in r && '.' !in r
  {
    if s != [] {
      MangleClean(s[1..]);
    }
  }

  lemma {:induction false} MangleConcat(a: string, b: string)
    ensures Mangle(a + b) == Mangle(a) + Mangle(b)
  {
    if a == [] {
      assert a + b == b;
    } else {
      MangleConcat(a[1..], b);
      var h := MangleChar(a[0]);
      assert (a + b)[0] == a[0] && (a + b)[1..] == a[1..] + b;
      assert Mangle(a + b) == h + Mangle(a[1..] + b);
      ConcatAssoc(h, Mangle(a[1..]), Mangle(b));
    }
  }

  /** A string with none of the replaced characters is left as it is. */
  lemma {:induction false} ManglePlain(s: string)
    requires ' ' !in s && '\'' !in s && '(' !in s && ')' !in s && ',' !in s && '.' !in s
    ensures Mangle(s) == s
  {
    if s != [] {
      ManglePlain(s[1..]);
      assert Mangle(s) == MangleChar(s[0]) + Mangle(s[1..]);
      assert MangleChar(s[0]) == [s[0]];
      assert s == [s[0]] + s[1..];
    }
  }

  /** The name of a probe: the field class, a dash and the coordinates. */
  function ProbeName(fieldClass: string, row: seq<string>): string {
    Mangle(fieldClass + "-" + TupleRepr(row))
  }

  /** A string without quotes or backslashes is shown in single quotes. */
  lemma ReprPlain(s: string)
    requires '\'' !in s && '\\' !in s
    ensures Repr(s) == "'" + s + "'"
  {
    EscapePlain(s, '\'');
  }

  /** The quotes around a plain coordinate vanish from its mangled form. */
  lemma MangleQuoted(x: string)
    ensures Mangle("'" + x + "'") == Mangle(x)
  {
    MangleConcat("'" + x, "'");
    MangleConcat("'", x);
  }

  function MangleAll(parts: seq<string>): (r: seq<string>)
    ensures |r| == |parts| && forall i | 0 <= i < |parts| :: r[i] == Mangle(parts[i])
  {
    if parts == [] then [] else [Mangle(parts[0])] + MangleAll(parts[1..])
  }

  /** Mangling text joined by `, ` joins the mangled parts with `_`. */
  lemma {:induction false} MangleJoin(parts: seq<string>)
    ensures Mangle(Join(parts, ", ")) == Join(MangleAll(parts), "_")
  {
    if |parts| > 1 {
      MangleJoin(parts[1..]);
      var rest := Join(parts[1..], ", ");
      MangleConcat(parts[0] + ", ", rest);
      MangleConcat(parts[0], ", ");
      assert Mangle(", ") == "_";
      assert MangleAll(parts)[1..] == MangleAll(parts[1..]);
    }
  }

  /** A probe's name is the mangled class, a dash, and the mangled shown
      coordinates joined by `_` (with a trailing `_` for a one-element
      tuple, whose form ends in `,)`). */
  lemma ProbeNameParts(fieldClass: string, row: seq<string>)
    ensures ProbeName(fieldClass, row)
            == Mangle(fieldClass) + "-" + Join(MangleAll(ReprAll(row)), "_") + (if |row| == 1 then "_" else "")
  {
    var a := fieldClass + "-";
    MangleConcat(a, TupleRepr(row));
    MangleDash(fieldClass);
    MangleTuple(row);
    ConcatAssoc(Mangle(a), Join(MangleAll(ReprAll(row)), "_"), if |row| == 1 then "_" else "");
  }

  /** The dash after the field class survives mangling. */
  lemma MangleDash(fieldClass: string)
    ensures Mangle(fieldClass + "-") == Mangle(fieldClass) + "-"
  {
    MangleConcat(fieldClass, "-");
    assert Mangle("-") == "-";
  }

  /** A mangled tuple form is its mangled items joined by `_`, with a
      trailing `_` left by the comma of a one-element tuple. */
  lemma MangleTuple(row: seq<string>)
    ensures Mangle(TupleRepr(row)) == Join(MangleAll(ReprAll(row)), "_") + (if |row| == 1 then "_" else "")
  {
    var j := Join(ReprAll(row), ", ");
    assert TupleRepr(row) == "(" + j + (if |row| == 1 then ",)" else ")");
    MangleWrapped(j, |row| == 1);
    MangleJoin(ReprAll(row));
  }

  /** Mangling drops the brackets of a tuple form and turns the comma of a
      one-element tuple into `_`. */
  lemma MangleWrapped(j: string, single: bool)
    ensures Mangle("(" + j + (if single then ",)" else ")")) == Mangle(j) + (if single then "_" else "")
  {
    var tail := if single then ",)" else ")";
    var mt := if single then "_" else "";
    var mj := Mangle(j);
    assert Mangle("(" + j) == mj by {
      MangleConcat("(", j);
      MangleOne('(');
      assert [] + mj == mj;
    }
    assert Mangle(tail) == mt by {
      MangleOne(')');
      if single {
        assert tail == [','] + [')'];
        MangleConcat([','], [')']);
        MangleOne(',');
        assert "_" + [] == mt;
      }
    }
    MangleConcat("(" + j, tail);
  }

  lemma MangleOne(c: char)
    ensures Mangle([c]) == MangleChar(c)
  {
    assert [c][1..] == [];
  }

  /** For coordinates without quotes or backslashes, a probe's name is the
      mangled class, a dash, and the mangled coordinates joined by `_`. */
  lemma ProbeNameJoined(fieldClass: string, x: string, y: string, z: string)
    requires forall c | c in [x, y, z] :: '\'' !in c && '\\' !in c
    ensures ProbeName(fieldClass, [x, y, z]) == Mangle(fieldClass) + "-" + Mangle(x) + "_" + Mangle(y) + "_" + Mangle(z)
  {
    assert '\'' !in x && '\\' !in x && '\'' !in y && '\\' !in y && '\'' !in z && '\\' !in z;
    ProbeNameParts(fieldClass, [x, y, z]);
    MangledQuotes(x, y, z);
    var mx, my, mz := Mangle(x), Mangle(y), Mangle(z);
    JoinThree(mx, my, mz, "_");
    var a := Mangle(fieldClass) + "-";
    var j := mx + "_" + my + "_" + mz;
    assert a + j + "" == a + j;
    ConcatAssoc(a, mx + "_" + my + "_", mz);
    ConcatAssoc(a, mx + "_" + my, "_");
    ConcatAssoc(a, mx + "_", my);
    ConcatAssoc(a, mx, "_");
  }

  lemma JoinThree(x: string, y: string, z: string, sep: string)
    ensures Join([x, y, z], sep) == x + sep + y + sep + z
  {
    var s := [x, y, z];
    assert s[1..] == [y, z] && s[1..][1..] == [z];
    assert Join([y, z], sep) == y + sep + z;
    assert Join(s, sep) == x + sep + (y + sep + z);
    ConcatAssoc(x + sep, y + sep, z);
    ConcatAssoc(x + sep, y, sep);
  }

  lemma MangledQuotes(x: string, y: string, z: string)
    requires '\'' !in x && '\\' !in x && '\'' !in y && '\\' !in y && '\'' !in z && '\\' !in z
    ensures MangleAll(ReprAll([x, y, z])) == [Mangle(x), Mangle(y), Mangle(z)]
  {
    ReprPlain(x);
    ReprPlain(y);
    ReprPlain(z);
    MangleQuoted(x);
    MangleQuoted(y);
    MangleQuoted(z);
  }

  /** For plain names the probe name is literally `class-x_y_z`. */
  lemma PlainProbeName(fieldClass: string, x: string, y: string, z: string)
    requires forall c | c in [fieldClass, x, y, z] :: ' ' !in c && '\'' !in c && '(' !in c && ')' !in c && ',' !in c && '.' !in c && '\\' !in c
    ensures ProbeName(fieldClass, [x, y, z]) == fieldClass + "-" + x + "_" + y + "_" + z
  {
    ProbeNameJoined(fieldClass, x, y, z);
    ManglePlain(fieldClass);
    ManglePlain(x);
    ManglePlain(y);
    ManglePlain(z);
  }

  /** The variables one probe adds: `-x`, `-y`, `-z` for a vector field,
      the name alone for a scalar field. */
  function RowNames(fieldClass: string, row: seq<string>, vector: bool): seq<string> {
    var p := ProbeName(fieldClass, row);
    if vector then [p + "-x", p + "-y", p + "-z"] else [p]
  }

  function ProbeNames(fieldClass: string, rows: seq<seq<string>>, vector: bool): seq<string> {
    if rows == [] then []
    else ProbeNames(fieldClass, rows[..|rows| - 1], vector) + RowNames(fieldClass, rows[|rows| - 1], vector)
  }

  /** The result keys after registering `names` one by one: a name already
      present is not added again. */
  function AddKeys(keys: seq<string>, names: seq<string>): seq<string> {
    if names == [] then keys
    else
      var prev := AddKeys(keys, names[..|names| - 1]);
      var name := names[|names| - 1];
      if name in prev then prev else prev + [name]
  }

  predicate Distinct(keys: seq<string>) {
    forall i, j | 0 <= i < j < |keys| :: keys[i] != keys[j]
  }

  /** Registering keeps the old keys in front, adds exactly the new names,
      and keeps the keys distinct. */
  lemma {:induction false} AddKeysSpec(keys: seq<string>, names: seq<string>)
    ensures var r := AddKeys(keys, names);
            && keys <= r
            && (forall k | k in r :: k in keys || k in names)
            && (forall k | k in names :: k in r)
            && (Distinct(keys) ==> Distinct(r))
    decreases |names|
  {
    if names != [] {
      var front := names[..|names| - 1];
      AddKeysSpec(keys, front);
      forall k | k in front
        ensures k in names
      {
      }
    }
  }

  lemma {:induction false} AddKeysConcat(keys: seq<string>, a: seq<string>, b: seq<string>)
    ensures AddKeys(keys, a + b) == AddKeys(AddKeys(keys, a), b)
    decreases |b|
  {
    if b == [] {
      assert a + b == a;
    } else {
      var n := |b| - 1;
      assert (a + b)[..|a| + n] == a + b[..n];
      AddKeysConcat(keys, a, b[..n]);
    }
  }

  /** The probe keys `finalizeCodeOutput` adds to the results for one field
      over all the coordinate rows, in the order it adds them. */
  method RegisterProbes(keys: seq<string>, fieldClass: string, rows: seq<seq<string>>, vector: bool)
    returns (out: seq<string>)
    ensures out == AddKeys(keys, ProbeNames(fieldClass, rows, vector))
  {
    out := keys;
    for i := 0 to |rows|
      invariant out == AddKeys(keys, ProbeNames(fieldClass, rows[..i], vector))
    {
      assert rows[..i + 1][..i] == rows[..i];
      var names := RowNames(fieldClass, rows[i], vector);
      AddKeysConcat(keys, ProbeNames(fieldClass, rows[..i], vector), names);
      for j := 0 to |names|
        invariant out == AddKeys(AddKeys(keys, ProbeNames(fieldClass, rows[..i], vector)), names[..j])
      {
        assert names[..j + 1][..j] == names[..j];
        if names[j] !in out {
          out := out + [names[j]];
        }
      }
      assert names[..|names|] == names;
    }
    assert rows[..|rows|] == rows;
  }

  // ---------------------------------------------------------------------
  // The interface object

  /** The interface: the probe coordinates read from its XML node, and the
      ROM type and name that `initialize` reads from the input file. */
  class AcceleratedCfd {
    var inputCoords: Option<seq<seq<string>>>
    var romType: string
    var romName: string

    constructor(romType: string, romName: string)
      ensures this.inputCoords.None? && this.romType == romType && this.romName == romName
    {
      this.inputCoords := None;
      this.romType := romType;
      this.romName := romName;
    }

    /** The rows of one `<coordinates>` text, token after token. */
    static method ParseCoordinates(text: string) returns (r: Result<seq<seq<string>>>)
      ensures r == Rows(text)
    {
      var coordinates := Words(text);
      ghost var readings := ParseEach(coordinates);
      var cds := [];
      for i := 0 to |coordinates|
        invariant AllOrFirstError(readings, i) == Ok(cds)
      {
        var xyz := ParseToken(coordinates[i]);
        ParseEachAt(coordinates, i);
        if xyz.Err? {
          FirstErrorStands(readings, i + 1, |coordinates|);
          return Err(xyz.error);
        }
        cds := cds + [xyz.value];
      }
      r := Ok(AtLeast2d(cds));
    }

    /** `_readMoreXML`: the locations are cleared, then every
        `<outputLocations>` child sets the coordinates; the first bad one
        raises. */
    method ReadMoreXml(children: seq<Child>) returns (r: Outcome)
      modifies this
      ensures romType == old(romType) && romName == old(romName)
      ensures var l := Scan(Readings(children), |children|);
              && inputCoords == l.coords
              && r == (if l.error.Some? then Fail(l.error.value) else Pass)
    {
      inputCoords := None;
      ghost var rs := Readings(children);
      for i := 0 to |children|
        invariant Scan(rs, i) == Locations(inputCoords, None)
        invariant romType == old(romType) && romName == old(romName)
      {
        var child := children[i];
        ReadingsAt(children, i);
        if child.tag == "outputLocations" {
          if child.coordinates.None? {
            LocationsStop(rs, i + 1, |children|);
            return Fail(IOError);
          }
          var text := child.coordinates.value.text;
          if text.None? {
            LocationsStop(rs, i + 1, |children|);
            return Fail(AttributeError);
          }
          var rows := ParseCoordinates(text.value);
          if rows.Err? {
            LocationsStop(rs, i + 1, |children|);
            return Fail(rows.error);
          }
          inputCoords := Some(rows.value);
        }
      }
      r := Pass;
    }

    /** `findInps`: the files of the requested type, in order; none is an
        IOError. */
    static method FindInps(files: seq<InputFile>, inputType: string) returns (r: Result<seq<InputFile>>)
      ensures OfType(files, inputType) == [] ==> r == Err(IOError)
      ensures OfType(files, inputType) != [] ==> r == Ok(OfType(files, inputType))
    {
      var podDictInput := [];
      var wanted := Lower(inputType);
      for i := 0 to |files|
        invariant podDictInput == OfType(files[..i], inputType)
      {
        assert files[..i + 1][..i] == files[..i];
        if SameText(StrippedLower(files[i].fileType), wanted) {
          podDictInput := podDictInput + [files[i]];
        }
      }
      assert files[..|files|] == files;
      if |podDictInput| == 0 {
        return Err(IOError);
      }
      r := Ok(podDictInput);
    }

    /** `generateCommand`: the ten steps of a reduced-order run, and the
        output root `out~` followed by the first input file's base name;
        without an input file, an IOError. */
    method GenerateCommand(files: seq<InputFile>) returns (r: Result<(seq<Command>, string)>)
      ensures r.Err? <==> OfType(files, "input") == []
      ensures r.Err? ==> r.error == IOError
      ensures r.Ok? ==> r.value.0 == PodCommands(romType, romName)
      ensures r.Ok? ==> r.value.1 == "out~" + OfType(files, "input")[0].base
    {
      var inputToPerturb := FindInps(files, "input");
      if inputToPerturb.Err? {
        return Err(inputToPerturb.error);
      }
      var outputfile := "out~" + inputToPerturb.value[0].base;
      r := Ok((PodCommands(romType, romName), outputfile));
    }

    /** `createNewInput`: a dynamic event tree sampler is refused; the
        current and the original files must both hold an input file. The
        rewriting of the input's contents is not part of this model; the
        current files are returned. */
    method CreateNewInput(current: seq<InputFile>, original: seq<InputFile>, samplerType: string)
      returns (r: Result<seq<InputFile>>)
      ensures r.Err? <==> SamplerRefused(samplerType) || OfType(current, "input") == [] || OfType(original, "input") == []
      ensures r.Err? ==> r.error == IOError
      ensures r.Ok? ==> r.value == current
    {
      if Contains(Lower(samplerType), "dynamiceventtree") {
        return Err(IOError);
      }
      var currentInputs := FindInps(current, "input");
      if currentInputs.Err? {
        return Err(currentInputs.error);
      }
      var originalInputs := FindInps(original, "input");
      if originalInputs.Err? {
        return Err(originalInputs.error);
      }
      r := Ok(current);
    }
  }

  /** Once a child fails, later children change nothing. */
  lemma {:induction false} LocationsStop(rs: seq<Option<Result<seq<seq<string>>>>>, j: nat, k: nat)
    requires j <= k <= |rs| && Scan(rs, j).error.Some?
    ensures Scan(rs, k) == Scan(rs, j)
    decreases k
  {
    if k > j {
      LocationsStop(rs, j, k - 1);
    }
  }
}
