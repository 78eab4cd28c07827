/** The parts of the simulation driver that carry logic of their own: the
    quote-aware command splitter, the core-count bookkeeping and the
    `printInput` normalisation that update the run-info block, the thread
    post-command of the default simulation mode, and entity lookup and step
    validation. */
module SimulationCore {
  import opened PyErrors
  import opened PyStr

  // ---------------------------------------------------------------------------
  // splitCommand

  predicate IsQuote(c: char) {
    c == '"' || c == '\''
  }

  predicate HasQuote(s: string) {
    exists i | 0 <= i < |s| :: IsQuote(s[i])
  }

  /** The variables of the splitter's loop: the tokens found so far, the token
      being built, and whether the scan is inside quotes. */
  datatype SplitState = SplitState(tokens: seq<string>, buffer: string, inQuote: bool)

  const StartState := SplitState([], "", false)

  /** One iteration of the splitter's loop on character `c`. */
  function SplitStep(st: SplitState, c: char): SplitState {
    if InWhitespace(c) && !st.inQuote then
      (if |st.buffer| > 0 then SplitState(st.tokens + [st.buffer], "", st.inQuote) else st)
    else if IsQuote(c) then
      SplitState(st.tokens, st.buffer, !st.inQuote)
    else
      SplitState(st.tokens, st.buffer + [c], st.inQuote)
  }

  /** The loop run over `s` from state `st`. */
  function Advance(s: string, st: SplitState): SplitState
    decreases |s|
  {
    if s == [] then st else Advance(s[1..], SplitStep(st, s[0]))
  }

  /** After the loop, a non-empty buffer is the last token. */
  function Flush(st: SplitState): seq<string> {
    if |st.buffer| > 0 then st.tokens + [st.buffer] else st.tokens
  }

  function SplitCommandSpec(s: string): seq<string> {
    Flush(Advance(s, StartState))
  }

  /** `splitCommand(s)`: the character loop of the source, proved to compute
      `SplitCommandSpec`. */
  method SplitCommand(s: string) returns (retList: seq<string>)
    ensures retList == SplitCommandSpec(s)
    ensures forall k | 0 <= k < |retList| :: retList[k] != [] && !HasQuote(retList[k])
  {
    var n := 0;
    retList := [];
    var inQuote := false;
    var buffer := "";
    while n < |s|
      invariant 0 <= n <= |s|
      invariant Advance(s[n..], SplitState(retList, buffer, inQuote)) == Advance(s, StartState)
    {
      var current := s[n];
      assert s[n..][1..] == s[n + 1..];
      if InWhitespace(current) && !inQuote {
        if |buffer| > 0 {
          retList := retList + [buffer];
          buffer := "";
        }
      } else if IsQuote(current) {
        if inQuote {
          inQuote := false;
        } else {
          inQuote := true;
        }
      } else {
        buffer := buffer + [current];
      }
      n := n + 1;
    }
    if |buffer| > 0 {
      retList := retList + [buffer];
    }
    TokensWellFormed(s);
  }

  /** Running the loop over `a + b` is running it over `a`, then over `b`. */
  lemma {:induction false} AdvanceAppend(a: string, b: string, st: SplitState)
    ensures Advance(a + b, st) == Advance(b, Advance(a, st))
    decreases |a|
  {
    if a == [] {
      assert a + b == b;
    } else {
      assert (a + b)[0] == a[0];
      assert (a + b)[1..] == a[1..] + b;
      AdvanceAppend(a[1..], b, SplitStep(st, a[0]));
    }
  }

  /** What the loop keeps true of its variables: the tokens are non-empty and
      quote-free, and so is the buffer. */
  ghost predicate CleanState(st: SplitState) {
    && (forall k | 0 <= k < |st.tokens| :: st.tokens[k] != [] && !HasQuote(st.tokens[k]))
    && !HasQuote(st.buffer)
  }

  lemma {:induction false} AdvanceClean(s: string, st: SplitState)
    requires CleanState(st)
    ensures CleanState(Advance(s, st))
    decreases |s|
  {
    if s != [] {
      var c := s[0];
      var st' := SplitStep(st, c);
      assert CleanState(st') by {
        if !(InWhitespace(c) && !st.inQuote) && !IsQuote(c) {
          forall i | 0 <= i < |st.buffer + [c]| ensures !IsQuote((st.buffer + [c])[i]) {
            if i < |st.buffer| {
              assert (st.buffer + [c])[i] == st.buffer[i];
            }
          }
        }
      }
      AdvanceClean(s[1..], st');
    }
  }

  /** No returned token is empty and no token contains a quote character. */
  lemma TokensWellFormed(s: string)
    ensures forall k | 0 <= k < |SplitCommandSpec(s)| :: SplitCommandSpec(s)[k] != [] && !HasQuote(SplitCommandSpec(s)[k])
  {
    AdvanceClean(s, StartState);
  }

  /** The unquoted words that open the documented example. */
  lemma ExamplePlainWords(s: string)
    requires s == "ab bc c 'el f' \"bar foo\" "
    ensures Advance(s[..8], StartState) == SplitState(["ab", "bc", "c"], "", false)
  {
    ExampleTwoWords(s);
    assert s[6] == 'c';
    assert s[7] == ' ';
    assert s[6..7] == "c";
    TakeToken("c", ["ab", "bc"], s, 6);
  }

  lemma ExampleTwoWords(s: string)
    requires s == "ab bc c 'el f' \"bar foo\" "
    ensures Advance(s[..6], StartState) == SplitState(["ab", "bc"], "", false)
  {
    ExampleFirstWord(s);
    assert s[3] == 'b';
    assert s[4] == 'c';
    assert s[5] == ' ';
    assert s[3..5] == "bc";
    TakeToken("bc", ["ab"], s, 3);
  }

  lemma ExampleFirstWord(s: string)
    requires s == "ab bc c 'el f' \"bar foo\" "
    ensures Advance(s[..3], StartState) == SplitState(["ab"], "", false)
  {
    assert s[0] == 'a';
    assert s[1] == 'b';
    assert s[2] == ' ';
    assert s[..0] == [];
    assert s[0..2] == "ab";
    TakeToken("ab", [], s, 0);
  }

  /** The single-quoted word of the documented example. */
  lemma ExampleSingleQuoted(s: string)
    requires s == "ab bc c 'el f' \"bar foo\" "
    ensures Advance(s[..15], StartState) == SplitState(["ab", "bc", "c", "el f"], "", false)
  {
    ExamplePlainWords(s);
    assert s[8] == '\'';
    assert s[13] == '\'';
    assert s[14] == ' ';
    assert s[9] == 'e';
    assert s[10] == 'l';
    assert s[11] == ' ';
    assert s[12] == 'f';
    assert s[9..13] == "el f";
    TakeQuotedToken("el f", ["ab", "bc", "c"], s, 8);
  }

  /** The example of the splitter's documentation. */
  lemma DocumentedExample(s: string)
    requires s == "ab bc c 'el f' \"bar foo\" "
    ensures SplitCommandSpec(s) == ["ab", "bc", "c", "el f", "bar foo"]
  {
    ExampleSingleQuoted(s);
    assert s[15] == '"';
    assert s[23] == '"';
    assert s[24] == ' ';
    assert s[16] == 'b';
    assert s[17] == 'a';
    assert s[18] == 'r';
    assert s[19] == ' ';
    assert s[20] == 'f';
    assert s[21] == 'o';
    assert s[22] == 'o';
    assert s[16..23] == "bar foo";
    TakeQuotedToken("bar foo", ["ab", "bc", "c", "el f"], s, 15);
    assert s[..25] == s;
  }

  /** From a state with an empty buffer, a plain word followed by whitespace
      becomes one more token. */
  lemma TakeToken(w: string, toks: seq<string>, s: string, n: nat)
    requires n + |w| < |s| && s[n..n + |w|] == w && InWhitespace(s[n + |w|])
    requires w != [] && !HasSpace(w) && !HasQuote(w)
    requires Advance(s[..n], StartState) == SplitState(toks, "", false)
    ensures Advance(s[..n + |w| + 1], StartState) == SplitState(toks + [w], "", false)
  {
    var st := TakeWord(w, SplitState(toks, "", false), s, n);
    assert "" + w == w;
    st := TakeSpace(st, s, n + |w|);
  }

  /** From a state with an empty buffer, a quoted text followed by whitespace
      becomes one more token. */
  lemma TakeQuotedToken(w: string, toks: seq<string>, s: string, n: nat)
    requires n + |w| + 2 < |s| && IsQuote(s[n]) && s[n + 1..n + 1 + |w|] == w
    requires IsQuote(s[n + 1 + |w|]) && InWhitespace(s[n + 2 + |w|])
    requires w != [] && !HasQuote(w)
    requires Advance(s[..n], StartState) == SplitState(toks, "", false)
    ensures Advance(s[..n + |w| + 3], StartState) == SplitState(toks + [w], "", false)
  {
    var st := TakeQuote(SplitState(toks, "", false), s, n);
    st := TakeQuoted(w, st, s, n + 1);
    assert "" + w == w;
    st := TakeQuote(st, s, n + 1 + |w|);
    st := TakeSpace(st, s, n + 2 + |w|);
  }

  /** Extends a proof that `st == Advance(s[..n], StartState)` over a word
      `w` of `s` that has neither whitespace nor quotes. */
  lemma TakeWord(w: string, st: SplitState, s: string, n: nat) returns (st': SplitState)
    requires n + |w| <= |s| && s[n..n + |w|] == w && !HasSpace(w) && !HasQuote(w)
    requires st == Advance(s[..n], StartState)
    ensures st' == Advance(s[..n + |w|], StartState)
    ensures st' == SplitState(st.tokens, st.buffer + w, st.inQuote)
  {
    AdvanceAppend(s[..n], w, StartState);
    assert s[..n] + w == s[..n + |w|];
    st' := SplitState(st.tokens, st.buffer + w, st.inQuote);
    AdvanceWord(w, st);
  }

  /** The same over a text inside quotes. */
  lemma TakeQuoted(w: string, st: SplitState, s: string, n: nat) returns (st': SplitState)
    requires n + |w| <= |s| && s[n..n + |w|] == w && !HasQuote(w) && st.inQuote
    requires st == Advance(s[..n], StartState)
    ensures st' == Advance(s[..n + |w|], StartState)
    ensures st' == SplitState(st.tokens, st.buffer + w, true)
  {
    AdvanceAppend(s[..n], w, StartState);
    assert s[..n] + w == s[..n + |w|];
    st' := SplitState(st.tokens, st.buffer + w, true);
    InsideQuotes(w, st.tokens, st.buffer);
  }

  /** The same over one whitespace character outside quotes. */
  lemma TakeSpace(st: SplitState, s: string, n: nat) returns (st': SplitState)
    requires n < |s| && InWhitespace(s[n]) && !st.inQuote
    requires st == Advance(s[..n], StartState)
    ensures st' == Advance(s[..n + 1], StartState)
    ensures st' == SplitStep(st, s[n])
  {
    AdvanceAppend(s[..n], [s[n]], StartState);
    assert s[..n] + [s[n]] == s[..n + 1];
    st' := SplitStep(st, s[n]);
    assert Advance([s[n]], st) == Advance([], st');
  }

  /** The same over one quote character. */
  lemma TakeQuote(st: SplitState, s: string, n: nat) returns (st': SplitState)
    requires n < |s| && IsQuote(s[n])
    requires st == Advance(s[..n], StartState)
    ensures st' == Advance(s[..n + 1], StartState)
    ensures st' == SplitState(st.tokens, st.buffer, !st.inQuote)
  {
    AdvanceAppend(s[..n], [s[n]], StartState);
    assert s[..n] + [s[n]] == s[..n + 1];
    st' := SplitStep(st, s[n]);
    assert Advance([s[n]], st) == Advance([], st');
  }

  /** Characters that are neither whitespace nor quotes go to the buffer. */
  lemma {:induction false} AdvanceWord(w: string, st: SplitState)
    requires !HasSpace(w) && !HasQuote(w)
    ensures Advance(w, st) == SplitState(st.tokens, st.buffer + w, st.inQuote)
    decreases |w|
  {
    if w == [] {
      assert st.buffer + w == st.buffer;
    } else {
      assert !IsQuote(w[0]) && !IsSpace(w[0]);
      assert !HasQuote(w[1..]) && !HasSpace(w[1..]) by {
        forall i | 0 <= i < |w[1..]| ensures !IsQuote(w[1..][i]) && !IsSpace(w[1..][i]) {
          assert w[1..][i] == w[i + 1];
        }
      }
      AdvanceWord(w[1..], SplitStep(st, w[0]));
      assert st.buffer + [w[0]] + w[1..] == st.buffer + w;
    }
  }

  /** Inside quotes whitespace is kept: a quoted, non-empty, quote-free text
      is one token, whether or not its closing quote is present. */
  lemma QuotedTextIsOneToken(w: string, closed: bool)
    requires w != [] && !HasQuote(w)
    ensures SplitCommandSpec("'" + w + (if closed then "'" else "")) == [w]
  {
    var tail := if closed then "'" else "";
    OpenQuoted(w);
    AdvanceAppend("'" + w, tail, StartState);
    assert Advance(tail, SplitState([], w, true)) == if closed then SplitState([], w, false) else SplitState([], w, true);
  }

  /** An opening quote and a quote-free text leave that text in the buffer. */
  lemma OpenQuoted(w: string)
    requires !HasQuote(w)
    ensures Advance("'" + w, StartState) == SplitState([], w, true)
  {
    assert Advance("'", StartState) == SplitState([], "", true);
    AdvanceAppend("'", w, StartState);
    InsideQuotes(w, [], "");
    assert "" + w == w;
  }

  /** Inside quotes every non-quote character, whitespace included, goes to
      the buffer. */
  lemma {:induction false} InsideQuotes(w: string, toks: seq<string>, buf: string)
    requires !HasQuote(w)
    ensures Advance(w, SplitState(toks, buf, true)) == SplitState(toks, buf + w, true)
    decreases |w|
  {
    if w == [] {
      assert buf + w == buf;
    } else {
      assert !IsQuote(w[0]);
      assert !HasQuote(w[1..]) by {
        forall i | 0 <= i < |w[1..]| ensures !IsQuote(w[1..][i]) {
          assert w[1..][i] == w[i + 1];
        }
      }
      InsideQuotes(w[1..], toks, buf + [w[0]]);
      assert buf + [w[0]] + w[1..] == buf + w;
    }
  }

  /** Every character of `s` that `str.isspace` accepts is also in
      `string.whitespace`, so the two notions of whitespace agree on `s`. */
  predicate PlainSpacing(s: string) {
    forall i | 0 <= i < |s| :: IsSpace(s[i]) ==> InWhitespace(s[i])
  }

  /** Outside quotes only whitespace separates tokens: on quote-free input
      whose whitespace is all in `string.whitespace`, the splitter agrees
      with Python's `str.split()`. */
  lemma SplitWithoutQuotesIsWords(s: string)
    requires !HasQuote(s) && PlainSpacing(s)
    ensures SplitCommandSpec(s) == Words(s)
  {
    OutsideQuotes(s, [], "");
    assert "" + s == s;
  }

  /** Without `PlainSpacing` the two differ: a character such as the file
      separator '\x1c', whitespace to `str.isspace` but not in
      `string.whitespace`, stays inside the splitter's token while
      `str.split()` cuts there. */
  lemma SplitKeepsOtherSpaces(a: string, c: char, b: string)
    requires a != [] && !HasSpace(a) && !HasQuote(a)
    requires b != [] && !HasSpace(b) && !HasQuote(b)
    requires IsSpace(c) && !InWhitespace(c)
    ensures SplitCommandSpec(a + [c] + b) == [a + [c] + b]
    ensures Words(a + [c] + b) == [a, b]
  {
    SplitterKeeps(a, c, b);
    WordsAfterWord(a, [c] + b);
    assert a + ([c] + b) == a + [c] + b;
    assert ([c] + b)[1..] == b;
    WordsOfWord(b);
  }

  lemma SplitterKeeps(a: string, c: char, b: string)
    requires !HasSpace(a) && !HasQuote(a) && !HasSpace(b) && !HasQuote(b)
    requires !InWhitespace(c) && !IsQuote(c) && a != []
    ensures SplitCommandSpec(a + [c] + b) == [a + [c] + b]
  {
    var ac := a + [c];
    var st1, st2 := SplitState([], a, false), SplitState([], ac, false);
    AdvanceWord(a, StartState);
    assert "" + a == a;
    assert SplitStep(st1, c) == st2;
    assert Advance([c], st1) == Advance([], st2);
    AdvanceAppend(a, [c], StartState);
    assert Advance(ac, StartState) == st2;
    AdvanceWord(b, st2);
    AdvanceAppend(ac, b, StartState);
    assert Advance(ac + b, StartState) == SplitState([], ac + b, false);
  }

  lemma {:induction false} OutsideQuotes(s: string, toks: seq<string>, buf: string)
    requires !HasQuote(s) && PlainSpacing(s) && !HasSpace(buf)
    ensures Flush(Advance(s, SplitState(toks, buf, false))) == toks + Words(buf + s)
    decreases |s|
  {
    if s == [] {
      assert buf + s == buf;
      WordsOfWord(buf);
    } else {
      var c := s[0];
      QuoteFreeTail(s);
      if IsSpace(c) {
        OutsideQuotesAtSpace(s, toks, buf);
      } else {
        SpaceFreeExtend(buf, c);
        OutsideQuotes(s[1..], toks, buf + [c]);
        assert buf + [c] + s[1..] == buf + s;
      }
    }
  }

  /** The step of `OutsideQuotes` at a whitespace character. */
  lemma {:induction false} OutsideQuotesAtSpace(s: string, toks: seq<string>, buf: string)
    requires s != [] && InWhitespace(s[0]) && !HasQuote(s[1..]) && PlainSpacing(s[1..]) && !HasSpace(buf)
    ensures Flush(Advance(s, SplitState(toks, buf, false))) == toks + Words(buf + s)
    decreases |s|, 0
  {
    var st := SplitState(toks, buf, false);
    var next := if |buf| > 0 then SplitState(toks + [buf], "", false) else st;
    assert SplitStep(st, s[0]) == next;
    assert Advance(s, st) == Advance(s[1..], next);
    assert "" + s[1..] == s[1..];
    OutsideQuotes(s[1..], next.tokens, "");
    WordsAfterWord(buf, s);
  }

  lemma QuoteFreeTail(s: string)
    requires s != [] && !HasQuote(s) && PlainSpacing(s)
    ensures !IsQuote(s[0]) && !HasQuote(s[1..])
    ensures (IsSpace(s[0]) ==> InWhitespace(s[0])) && PlainSpacing(s[1..])
  {
    forall i | 0 <= i < |s[1..]| ensures !IsQuote(s[1..][i]) && (IsSpace(s[1..][i]) ==> InWhitespace(s[1..][i])) {
      assert s[1..][i] == s[i + 1];
    }
  }

  lemma SpaceFreeExtend(buf: string, c: char)
    requires !HasSpace(buf) && !IsSpace(c)
    ensures !HasSpace(buf + [c])
  {
    forall i | 0 <= i < |buf + [c]| ensures !IsSpace((buf + [c])[i]) {
      if i < |buf| { assert (buf + [c])[i] == buf[i]; }
    }
  }

  lemma {:induction false} WordLengthOfWord(w: string, s: string)
    requires !HasSpace(w)
    requires s == [] || IsSpace(s[0])
    ensures WordLength(w + s) == |w|
    decreases |w|
  {
    if w != [] {
      assert (w + s)[0] == w[0];
      assert (w + s)[1..] == w[1..] + s;
      assert !HasSpace(w[1..]) by {
        forall i | 0 <= i < |w[1..]| ensures !IsSpace(w[1..][i]) {
          assert w[1..][i] == w[i + 1];
        }
      }
      WordLengthOfWord(w[1..], s);
    } else {
      assert w + s == s;
    }
  }

  lemma WordsOfWord(w: string)
    requires !HasSpace(w)
    ensures Words(w) == if w == [] then [] else [w]
  {
    if w != [] {
      WordLengthOfWord(w, "");
      assert w + "" == w;
      assert w[|w|..] == [];
    }
  }

  lemma WordsAfterWord(w: string, s: string)
    requires !HasSpace(w) && s != [] && IsSpace(s[0])
    ensures Words(w + s) == (if w == [] then [] else [w]) + Words(s[1..])
  {
    if w == [] {
      assert w + s == s;
    } else {
      WordLengthOfWord(w, s);
      assert (w + s)[..|w|] == w;
      assert (w + s)[|w|..] == s;
    }
  }

  // ---------------------------------------------------------------------------
  // The run-info block

  /** The `printInput` entry: absent/false, or the name of the duplicate file. */
  datatype PrintInput = NoPrint | PrintTo(fileName: string)

  const DefaultThreadParameter := "--n-threads=%NUM_CPUS%"

  predicate IsXmlExtension(e: string) {
    |e| == 4 && Lower(e) == ".xml"
  }

  /** `t` ends in ".xml" in some capitalisation. */
  predicate HasXmlExtension(t: string) {
    |t| >= 4 && IsXmlExtension(t[|t| - 4..])
  }

  /** The stripped `printInput` text without one trailing ".xml" in any case:
      the stripped text is the stem itself, or the stem followed by such an
      extension. */
  function InputStem(text: Option<string>): (stem: string)
    ensures stem == [] || !IsSpace(stem[0])
    ensures text.None? ==> stem == []
    ensures text.Some? ==> var t := Strip(text.value);
                           StartsWith(t, stem) && (if HasXmlExtension(t) then |t| == |stem| + 4 else t == stem)
  {
    var t := if text.None? then "" else Strip(text.value);
    if HasXmlExtension(t) then t[..|t| - 4] else t
  }

  /** `printInput` normalisation of the RunInfo reader: strip, drop one
      trailing ".xml" in any case, then a false-string disables the copy, an
      empty name falls back to "duplicated_input.xml", and anything else gets
      ".xml" appended. `utils.stringIsFalse` is not part of this model and is
      passed in as `isFalse`. */
  function PrintInputName(text: Option<string>, isFalse: string -> bool): (r: PrintInput)
    ensures r.PrintTo? ==> EndsWith(r.fileName, ".xml")
    ensures r == NoPrint <==> isFalse(InputStem(text))
  {
    var stem := InputStem(text);
    if isFalse(stem) then NoPrint
    else if |stem| < 1 then PrintTo("duplicated_input.xml")
    else PrintTo(stem + ".xml")
  }

  /** A name given with any capitalisation of ".xml" keeps its stem and gets
      a lower-case ".xml". */
  lemma PrintInputDropsExtension(stem: string, ext: string, isFalse: string -> bool)
    requires IsXmlExtension(ext)
    requires stem != [] && !IsSpace(stem[0]) && !isFalse(stem)
    ensures PrintInputName(Some(stem + ext), isFalse) == PrintTo(stem + ".xml")
  {
    var t := stem + ext;
    assert !IsSpace(t[0]);
    assert t[|t| - 1] == ext[3];
    assert !IsSpace(t[|t| - 1]) by {
      assert Lower(ext)[3] == LowerChar(ext[3]) == 'l';
    }
    StripClean(t);
    assert t[|t| - 4..] == ext;
    assert t[..|t| - 4] == stem;
    assert InputStem(Some(t)) == stem;
  }

  /** The name chosen is a fixed point: reading it back chooses it again. */
  lemma PrintInputIdempotent(text: Option<string>, isFalse: string -> bool)
    requires PrintInputName(text, isFalse).PrintTo?
    requires !isFalse("duplicated_input")
    ensures PrintInputName(Some(PrintInputName(text, isFalse).fileName), isFalse) == PrintInputName(text, isFalse)
  {
    var stem0 := InputStem(text);
    var stem := if |stem0| < 1 then "duplicated_input" else stem0;
    assert PrintInputName(text, isFalse).fileName == stem + ".xml";
    XmlIsXmlExtension();
    PrintInputDropsExtension(stem, ".xml", isFalse);
  }

  /** No text, or only whitespace, falls back to "duplicated_input.xml". */
  lemma PrintInputDefault(text: Option<string>, isFalse: string -> bool)
    requires text.None? || Strip(text.value) == ""
    requires !isFalse("")
    ensures PrintInputName(text, isFalse) == PrintTo("duplicated_input.xml")
  {
  }

  /** A stripped name without an ".xml" extension gets one appended. */
  lemma PrintInputAppendsExtension(t: string, isFalse: string -> bool)
    requires t != [] && Strip(t) == t && !HasXmlExtension(t) && !isFalse(t)
    ensures PrintInputName(Some(t), isFalse) == PrintTo(t + ".xml")
  {
  }

  lemma XmlIsXmlExtension()
    ensures IsXmlExtension(".xml")
  {
    var e := ".xml";
    assert Lower(e) == [LowerChar(e[0])] + Lower(e[1..]);
    assert Lower(e[1..]) == [LowerChar(e[1])] + Lower(e[2..]);
    assert Lower(e[2..]) == [LowerChar(e[2])] + Lower(e[3..]);
    assert Lower(e[3..]) == [LowerChar(e[3])] + Lower(e[4..]);
  }

  lemma StripClean(t: string)
    requires t != [] && !IsSpace(t[0]) && !IsSpace(t[|t| - 1])
    ensures Strip(t) == t
  {
  }

  /** The default simulation mode's `modifyInfo`: with more than one thread
      the thread parameter is put in front of the post-command; otherwise
      nothing is changed. */
  function ModifyInfo(numThreads: int, threadParameter: string, postcommand: string): (r: map<string, string>)
    ensures numThreads > 1 <==> r != map[]
    ensures numThreads > 1 ==> && r.Keys == {"threadParameter", "postcommand"}
                               && r["threadParameter"] == threadParameter
                               && |r["postcommand"]| == |threadParameter| + 2 + |postcommand|
    ensures "postcommand" in r ==> (EndsWith(r["postcommand"], postcommand)
                                    && StartsWith(r["postcommand"], " " + threadParameter + " "))
  {
    if numThreads > 1 then
      var post := " " + threadParameter + " " + postcommand;
      assert post[|post| - |postcommand|..] == postcommand;
      assert post[..|" " + threadParameter + " "|] == " " + threadParameter + " ";
      var r := map["threadParameter" := threadParameter, "postcommand" := post];
      assert "postcommand" in r;
      r
    else
      map[]
  }

  /** The run-info dictionary, restricted to the entries the modelled code
      reads or writes. */
  class RunInfo {
    var numMPI: int
    var numThreads: int
    var numProcByRun: int
    var batchSize: int
    var totalNumCoresUsed: int
    var maxQueueSize: Option<int>
    var threadParameter: string
    var postcommand: string
    var printInput: PrintInput

    /** The defaults set by the simulation's constructor. */
    constructor ()
      ensures numMPI == 1 && numThreads == 1 && numProcByRun == 1 && batchSize == 1
      ensures totalNumCoresUsed == 1 && maxQueueSize == None
      ensures threadParameter == DefaultThreadParameter && postcommand == "" && printInput == NoPrint
    {
      numMPI, numThreads, numProcByRun, batchSize := 1, 1, 1, 1;
      totalNumCoresUsed := 1;
      maxQueueSize := None;
      threadParameter := DefaultThreadParameter;
      postcommand := "";
      printInput := NoPrint;
    }

    /** The `printInput` branch of the RunInfo reader. */
    method ReadPrintInput(text: Option<string>, isFalse: string -> bool)
      modifies this
      ensures printInput == PrintInputName(text, isFalse)
      ensures numMPI == old(numMPI) && numThreads == old(numThreads) && numProcByRun == old(numProcByRun)
      ensures batchSize == old(batchSize) && totalNumCoresUsed == old(totalNumCoresUsed)
      ensures maxQueueSize == old(maxQueueSize)
      ensures threadParameter == old(threadParameter) && postcommand == old(postcommand)
    {
      printInput := PrintInputName(text, isFalse);
    }

    /** The parallel-settings part of the simulation's `initialize`: cores per
        run, total cores (never lowered below a reserved value), then the
        entries returned by the mode's `modifyInfo` are copied in. */
    method InitializeParallel()
      modifies this
      ensures numProcByRun == old(numMPI) * old(numThreads)
      ensures totalNumCoresUsed == TotalCores(numProcByRun, old(batchSize), old(totalNumCoresUsed))
      ensures postcommand == if old(numThreads) > 1
                             then ModifyInfo(old(numThreads), old(threadParameter), old(postcommand))["postcommand"]
                             else old(postcommand)
      ensures numMPI == old(numMPI) && numThreads == old(numThreads) && batchSize == old(batchSize)
      ensures threadParameter == old(threadParameter) && maxQueueSize == old(maxQueueSize)
      ensures printInput == old(printInput)
    {
      numProcByRun := numMPI * numThreads;
      var oldTotal := totalNumCoresUsed;
      totalNumCoresUsed := numProcByRun * batchSize;
      if totalNumCoresUsed < oldTotal {
        totalNumCoresUsed := oldTotal;
      }
      var newRunInfo := ModifyInfo(numThreads, threadParameter, postcommand);
      if "threadParameter" in newRunInfo {
        threadParameter := newRunInfo["threadParameter"];
      }
      if "postcommand" in newRunInfo {
        postcommand := newRunInfo["postcommand"];
      }
    }
  }

  /** Total cores: cores per run times batch size, but never below the value
      already reserved. */
  function TotalCores(numProcByRun: int, batchSize: int, reserved: int): (total: int)
    ensures total >= numProcByRun * batchSize && total >= reserved
    ensures total == numProcByRun * batchSize || total == reserved
  {
    if numProcByRun * batchSize < reserved then reserved else numProcByRun * batchSize
  }

  // ---------------------------------------------------------------------------
  // Entities

  /** `getEntity(kind, name)`: a KeyError for an unknown kind or an unknown
      name within the kind. */
  function GetEntity<E>(entities: map<string, map<string, E>>, kind: string, name: string): (r: Result<E>)
    ensures r.Ok? <==> kind in entities && name in entities[kind]
    ensures r.Ok? ==> r.value == entities[kind][name]
    ensures r.Err? ==> r.error == KeyError
  {
    if kind !in entities then Err(KeyError)
    else if name !in entities[kind] then Err(KeyError)
    else Ok(entities[kind][name])
  }

  /** One `[role, class, type, name]` entry of a step's parameter list. */
  datatype StepPar = StepPar(role: string, myClass: string, objectType: string, name: string)

  predicate ParResolves<E>(entities: map<string, map<string, E>>, p: StepPar) {
    p.myClass in entities && p.name in entities[p.myClass]
  }

  /** `checkStep`: every entry must name a known class and an entity declared
      in it. An unknown class is an IOError except for the class name "Step",
      which skips that test and then fails on the dictionary lookup. */
  function CheckStep<E>(entities: map<string, map<string, E>>, parList: seq<StepPar>): (r: Outcome)
    ensures r.Pass? <==> forall k | 0 <= k < |parList| :: ParResolves(entities, parList[k])
    ensures r == Fail(KeyError) ==> exists k | 0 <= k < |parList| :: parList[k].myClass == "Step" && "Step" !in entities
    ensures r.Fail? ==> r.error == IOError || r.error == KeyError
  {
    if parList == [] then Pass
    else
      var p := parList[0];
      if p.myClass != "Step" && p.myClass !in entities then Fail(IOError)
      else if p.myClass !in entities then Fail(KeyError)
      else if p.name !in entities[p.myClass] then Fail(IOError)
      else
        var rest := CheckStep(entities, parList[1..]);
        assert forall k | 1 <= k < |parList| :: parList[k] == parList[1..][k - 1];
        rest
  }
}
