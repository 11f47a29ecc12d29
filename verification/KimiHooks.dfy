/**
 Merging our hooks into a Kimi configuration: a line-based edit of a TOML text that replaces
 our own hook blocks and leaves every other line alone.
 */
module KimiHooks {
  import opened HookText
  import opened LineText
  import opened Search
  import opened Seqs
  import opened Text
  import opened Wrappers

  // ---------------------------------------------------------------- text and lines

  function Unlines(lines: seq<string>): string {
    if lines == [] then "" else Unlines(lines[..|lines| - 1]) + lines[|lines| - 1] + "\n"
  }

  function WithoutReturns(lines: seq<string>): (cut: seq<string>)
    ensures |cut| == |lines| && forall i :: 0 <= i < |lines| ==> cut[i] == WithoutReturn(lines[i])
  {
    seq(|lines|, i requires 0 <= i < |lines| => WithoutReturn(lines[i]))
  }

  lemma LastLine(lines: seq<string>, line: string)
    ensures Unlines(lines + [line]) == Unlines(lines) + (line + "\n")
  {
    Appended(lines, line);
    Regroup(Unlines(lines), line, "\n");
  }

  lemma {:induction false} UnlinesOfConcat(left: seq<string>, right: seq<string>)
    ensures Unlines(left + right) == Unlines(left) + Unlines(right)
  {
    if right == [] {
      assert left + right == left;
    } else {
      var front, last := right[..|right| - 1], right[|right| - 1];
      SplitLast(right);
      Regroup(left, front, [last]);
      UnlinesOfConcat(left, front);
      LastLine(left + front, last);
      LastLine(front, last);
      Regroup(Unlines(left), Unlines(front), last + "\n");
    }
  }

  lemma UnlinesOfFirst(lines: seq<string>)
    requires lines != []
    ensures Unlines(lines) == lines[0] + "\n" + Unlines(lines[1..])
  {
    assert lines == [lines[0]] + lines[1..];
    UnlinesOfConcat([lines[0]], lines[1..]);
    LastLine([], lines[0]);
    assert [] + [lines[0]] == [lines[0]];
  }

  /** Reading written lines back loses one carriage return a line, and nothing else. */
  lemma {:induction false} LinesOfUnlines(lines: seq<string>)
    requires forall line :: line in lines ==> '\n' !in line
    ensures Lines(Unlines(lines)) == WithoutReturns(lines)
  {
    if lines != [] {
      UnlinesOfFirst(lines);
      FirstLine(lines[0], Unlines(lines[1..]));
      LinesOfUnlines(lines[1..]);
      assert WithoutReturns(lines) == [WithoutReturn(lines[0])] + WithoutReturns(lines[1..]);
    }
  }

  // ---------------------------------------------------------------- our blocks

  predicate IsHeader(line: string) {
    var text := TrimStart(line, WHITE_SPACE);
    text != "" && text[0] == '['
  }

  predicate IsHooks(line: string) {
    Trim(line, WHITE_SPACE) == "[[hooks]]"
  }

  predicate OwnsCommand(line: string) {
    var text := TrimStart(line, WHITE_SPACE);
    StartsWith(text, "command") && '=' in text && IsOwnedHookCommand(text)
  }

  predicate IsOwned(block: seq<string>) {
    exists i :: 0 <= i < |block| && OwnsCommand(block[i])
  }

  /** How many lines come before the next table header. */
  function Extent(lines: seq<string>): (n: nat)
    ensures n <= |lines|
    ensures forall i :: 0 <= i < n ==> !IsHeader(lines[i])
    ensures n < |lines| ==> IsHeader(lines[n])
  {
    if lines == [] || IsHeader(lines[0]) then 0 else 1 + Extent(lines[1..])
  }

  /** The lines outside our own blocks, as the edit keeps them. */
  function Strip(lines: seq<string>): (kept: seq<string>)
    ensures forall line :: line in kept ==> line in lines
    decreases |lines|
  {
    if lines == [] then []
    else if IsHooks(lines[0]) then
      var n := 1 + Extent(lines[1..]);
      assert lines == lines[..n] + lines[n..];
      (if IsOwned(lines[..n]) then [] else lines[..n]) + Strip(lines[n..])
    else [lines[0]] + Strip(lines[1..])
  }

  /** No block is ours. */
  predicate Clean(lines: seq<string>)
    decreases |lines|
  {
    if lines == [] then true
    else if IsHooks(lines[0]) then
      var n := 1 + Extent(lines[1..]);
      !IsOwned(lines[..n]) && Clean(lines[n..])
    else Clean(lines[1..])
  }

  predicate AtBoundary(lines: seq<string>) {
    lines == [] || IsHeader(lines[0])
  }

  lemma TrimEndIsPrefix(text: string, space: set<char>)
    ensures TrimEnd(text, space) <= text
  {
  }

  lemma HooksIsHeader(line: string)
    requires IsHooks(line)
    ensures IsHeader(line)
  {
    TrimEndIsPrefix(TrimStart(line, WHITE_SPACE), WHITE_SPACE);
  }

  lemma ExtentIs(lines: seq<string>, n: nat)
    requires n <= |lines| && (forall i :: 0 <= i < n ==> !IsHeader(lines[i])) && (n < |lines| ==> IsHeader(lines[n]))
    ensures Extent(lines) == n
  {
  }

  lemma {:induction false} CleanIsKept(lines: seq<string>)
    requires Clean(lines)
    ensures Strip(lines) == lines
    decreases |lines|
  {
    if lines != [] {
      if IsHooks(lines[0]) {
        var n := 1 + Extent(lines[1..]);
        CleanIsKept(lines[n..]);
      } else {
        CleanIsKept(lines[1..]);
      }
    }
  }

  /** A block keeps its extent whatever boundary follows it. */
  lemma BlockIs(block: seq<string>, rest: seq<string>)
    requires block != [] && IsHooks(block[0]) && AtBoundary(rest)
    requires forall i :: 1 <= i < |block| ==> !IsHeader(block[i])
    ensures 1 + Extent((block + rest)[1..]) == |block|
    ensures (block + rest)[..|block|] == block && (block + rest)[|block|..] == rest
  {
    assert (block + rest)[1..] == block[1..] + rest;
    ExtentIs(block[1..] + rest, |block| - 1);
  }

  lemma BlockOf(lines: seq<string>)
    requires lines != [] && IsHooks(lines[0])
    ensures var n := 1 + Extent(lines[1..]);
            && n <= |lines| && (forall i :: 1 <= i < n ==> !IsHeader(lines[..n][i])) && AtBoundary(lines[n..])
  {
    var n := 1 + Extent(lines[1..]);
    assert forall i :: 1 <= i < n ==> lines[..n][i] == lines[1..][i - 1];
    if n < |lines| { assert lines[n..][0] == lines[1..][n - 1]; }
  }

  lemma StripBlock(block: seq<string>, rest: seq<string>)
    requires block != [] && IsHooks(block[0]) && AtBoundary(rest)
    requires forall i :: 1 <= i < |block| ==> !IsHeader(block[i])
    ensures Strip(block + rest) == (if IsOwned(block) then [] else block) + Strip(rest)
  {
    BlockIs(block, rest);
    assert (block + rest)[0] == block[0];
  }

  lemma StripLine(line: string, rest: seq<string>)
    requires !IsHooks(line)
    ensures Strip([line] + rest) == [line] + Strip(rest)
  {
    assert ([line] + rest)[1..] == rest;
  }

  /** Stripping works on both sides of a header by itself. */
  lemma {:induction false} StripOfConcat(left: seq<string>, right: seq<string>)
    requires AtBoundary(right)
    ensures Strip(left + right) == Strip(left) + Strip(right)
    decreases |left|
  {
    if left == [] {
      assert left + right == right;
    } else if IsHooks(left[0]) {
      var n := 1 + Extent(left[1..]);
      var block, rest := left[..n], left[n..];
      BlockOf(left);
      assert left == block + rest;
      Regroup(block, rest, right);
      StripBlock(block, rest);
      StripBlock(block, rest + right);
      StripOfConcat(rest, right);
      Regroup(if IsOwned(block) then [] else block, Strip(rest), Strip(right));
    } else {
      var rest := left[1..];
      assert left == [left[0]] + rest;
      Regroup([left[0]], rest, right);
      StripLine(left[0], rest);
      StripLine(left[0], rest + right);
      StripOfConcat(rest, right);
      Regroup([left[0]], Strip(rest), Strip(right));
    }
  }

  lemma {:induction false} StripKeepsBoundary(lines: seq<string>)
    requires AtBoundary(lines)
    ensures AtBoundary(Strip(lines))
    decreases |lines|
  {
    if lines != [] && IsHooks(lines[0]) {
      BlockOf(lines);
      StripKeepsBoundary(lines[1 + Extent(lines[1..])..]);
    }
  }

  lemma CleanBlock(block: seq<string>, rest: seq<string>)
    requires block != [] && IsHooks(block[0]) && AtBoundary(rest)
    requires forall i :: 1 <= i < |block| ==> !IsHeader(block[i])
    ensures Clean(block + rest) <==> !IsOwned(block) && Clean(rest)
  {
    BlockIs(block, rest);
    assert (block + rest)[0] == block[0];
  }

  lemma CleanLine(line: string, rest: seq<string>)
    requires !IsHooks(line)
    ensures Clean([line] + rest) <==> Clean(rest)
  {
    assert ([line] + rest)[1..] == rest;
  }

  /** What is left after stripping has no block of ours, so stripping again changes nothing. */
  lemma {:induction false} StripIsClean(lines: seq<string>)
    ensures Clean(Strip(lines))
    decreases |lines|
  {
    if lines != [] {
      if IsHooks(lines[0]) {
        var n := 1 + Extent(lines[1..]);
        BlockOf(lines);
        StripIsClean(lines[n..]);
        StripKeepsBoundary(lines[n..]);
        if !IsOwned(lines[..n]) {
          CleanBlock(lines[..n], Strip(lines[n..]));
        } else {
          assert [] + Strip(lines[n..]) == Strip(lines[n..]);
        }
      } else {
        StripIsClean(lines[1..]);
        CleanLine(lines[0], Strip(lines[1..]));
      }
    }
  }

  // ---------------------------------------------------------------- which lines are ours

  /** A block that begins at `from` and ends before `to`, at the next header or the end. */
  predicate IsBlock(lines: seq<string>, from: int, to: int) {
    && 0 <= from < to <= |lines|
    && IsHooks(lines[from])
    && (forall i :: from < i < to ==> !IsHeader(lines[i]))
    && (to < |lines| ==> IsHeader(lines[to]))
  }

  ghost predicate InOurBlock(lines: seq<string>, i: int) {
    exists from, to :: from <= i < to && IsBlock(lines, from, to) && IsOwned(lines[from..to])
  }

  /** The lines from `i` on that are in none of our blocks, in order. */
  ghost function Foreign(lines: seq<string>, i: nat): seq<string>
    requires i <= |lines|
    decreases |lines| - i
  {
    if i == |lines| then []
    else (if InOurBlock(lines, i) then [] else [lines[i]]) + Foreign(lines, i + 1)
  }

  /** `i` is not inside a block that began before it. */
  ghost predicate Outside(lines: seq<string>, i: int) {
    forall from, to :: IsBlock(lines, from, to) && from < i ==> to <= i
  }

  lemma BlocksDoNotOverlap(lines: seq<string>, from: int, to: int, other: int, end: int)
    requires IsBlock(lines, from, to) && IsBlock(lines, other, end) && other < to && from < end
    ensures from == other && to == end
  {
    HooksIsHeader(lines[from]);
    HooksIsHeader(lines[other]);
  }

  lemma OurBlockOrNot(lines: seq<string>, from: nat, to: nat, i: nat)
    requires IsBlock(lines, from, to) && from <= i < to
    ensures InOurBlock(lines, i) <==> IsOwned(lines[from..to])
  {
    if InOurBlock(lines, i) {
      var f, t :| f <= i < t && IsBlock(lines, f, t) && IsOwned(lines[f..t]);
      BlocksDoNotOverlap(lines, from, to, f, t);
    }
  }

  lemma ForeignOfOne(lines: seq<string>, from: nat, to: nat, i: nat)
    requires IsBlock(lines, from, to) && from <= i < to
    ensures Foreign(lines, i) == (if IsOwned(lines[from..to]) then [] else [lines[i]]) + Foreign(lines, i + 1)
  {
    OurBlockOrNot(lines, from, to, i);
  }

  lemma {:induction false} ForeignOfBlock(lines: seq<string>, from: nat, to: nat, i: nat)
    requires IsBlock(lines, from, to) && from <= i <= to
    ensures Foreign(lines, i) == (if IsOwned(lines[from..to]) then [] else lines[i..to]) + Foreign(lines, to)
    decreases |lines| - i
  {
    if i < to {
      ForeignOfOne(lines, from, to, i);
      ForeignOfBlock(lines, from, to, i + 1);
      SliceFirst(lines, i, to);
      Regroup([lines[i]], lines[i + 1..to], Foreign(lines, to));
    } else {
      assert lines[i..to] == [];
    }
  }

  lemma SliceFirst(lines: seq<string>, i: nat, to: nat)
    requires i < to <= |lines|
    ensures lines[i..to] == [lines[i]] + lines[i + 1..to]
  {
  }

  lemma OutsideAfterLine(lines: seq<string>, i: nat)
    requires i < |lines| && Outside(lines, i) && !IsHooks(lines[i])
    ensures Outside(lines, i + 1) && !InOurBlock(lines, i)
  {
  }

  lemma OutsideAfterBlock(lines: seq<string>, from: nat, to: nat)
    requires IsBlock(lines, from, to)
    ensures Outside(lines, to)
  {
    forall f, t | IsBlock(lines, f, t) && f < to ensures t <= to {
      if t > to { BlocksDoNotOverlap(lines, from, to, f, t); }
    }
  }

  lemma BlockAt(lines: seq<string>, i: nat)
    requires i < |lines| && IsHooks(lines[i])
    ensures var n := 1 + Extent(lines[i..][1..]);
            && IsBlock(lines, i, i + n)
            && lines[i..][..n] == lines[i..i + n] && lines[i..][n..] == lines[i + n..]
  {
    var rest := lines[i..];
    var n := 1 + Extent(rest[1..]);
    assert forall k :: i < k < i + n ==> lines[k] == rest[1..][k - i - 1];
    if i + n < |lines| { assert rest[1..][n - 1] == lines[i + n]; }
  }

  lemma StripOfBlock(lines: seq<string>, i: nat, to: nat)
    requires i < |lines| && IsHooks(lines[i]) && to == i + 1 + Extent(lines[i..][1..]) && IsBlock(lines, i, to)
    ensures Strip(lines[i..]) == (if IsOwned(lines[i..to]) then [] else lines[i..to]) + Strip(lines[to..])
  {
    var block, rest := lines[i..to], lines[to..];
    assert lines[i..] == block + rest && block[0] == lines[i];
    forall k | 1 <= k < |block| ensures !IsHeader(block[k]) {
      assert block[k] == lines[i + k];
    }
    if rest != [] { assert rest[0] == lines[to]; }
    StripBlock(block, rest);
  }

  /** The edit keeps exactly the lines outside our blocks, in order. */
  lemma {:induction false} StripKeepsForeign(lines: seq<string>, i: nat)
    requires i <= |lines| && Outside(lines, i)
    ensures Strip(lines[i..]) == Foreign(lines, i)
    decreases |lines| - i
  {
    if i < |lines| {
      if IsHooks(lines[i]) {
        var to := i + 1 + Extent(lines[i..][1..]);
        BlockAt(lines, i);
        OutsideAfterBlock(lines, i, to);
        StripKeepsForeign(lines, to);
        ForeignOfBlock(lines, i, to, i);
        StripOfBlock(lines, i, to);
      } else {
        OutsideAfterLine(lines, i);
        StripKeepsForeign(lines, i + 1);
        assert lines[i..][1..] == lines[i + 1..];
      }
    }
  }

  // ---------------------------------------------------------------- carriage returns do not matter to the edit

  lemma {:induction false} TrimStartOfReturn(line: string)
    ensures TrimStart(line + "\r", WHITE_SPACE) ==
            if TrimStart(line, WHITE_SPACE) == "" then "" else TrimStart(line, WHITE_SPACE) + "\r"
  {
    var longer := line + "\r";
    if line == "" {
      assert longer == "\r" && longer[1..] == "";
    } else if line[0] in WHITE_SPACE {
      assert longer[1..] == line[1..] + "\r";
      TrimStartOfReturn(line[1..]);
    }
  }

  lemma TrimOfReturn(line: string)
    ensures Trim(line + "\r", WHITE_SPACE) == Trim(line, WHITE_SPACE)
  {
    TrimStartOfReturn(line);
    var text := TrimStart(line, WHITE_SPACE);
    assert (text + "\r")[..|text|] == text;
  }

  lemma ContainsOfReturn(text: string, part: string)
    requires part != "" && '\r' !in part
    ensures Contains(text + "\r", part) <==> Contains(text, part)
  {
    if Contains(text, part) {
      FindIsStable(text, "\r", part);
    } else if Contains(text + "\r", part) {
      var at := Find(text + "\r", part).value;
      assert (text + "\r")[at..at + |part|][|part| - 1] == part[|part| - 1];
      assert (text + "\r")[at..at + |part|] == text[at..at + |part|];
      assert OccursAt(text, part, at);
    }
  }

  lemma OwnershipOfReturn(text: string)
    ensures IsOwnedHookCommand(text + "\r") <==> IsOwnedHookCommand(text)
  {
    forall i | 0 <= i < |OWNED_MARKERS|
      ensures Contains(text + "\r", OWNED_MARKERS[i]) <==> Contains(text, OWNED_MARKERS[i])
    {
      ContainsOfReturn(text, OWNED_MARKERS[i]);
    }
  }

  /** A line means the same to the edit with and without a carriage return at its end. */
  lemma ReturnIsIgnored(line: string)
    ensures IsHeader(WithoutReturn(line)) == IsHeader(line)
    ensures IsHooks(WithoutReturn(line)) == IsHooks(line)
    ensures OwnsCommand(WithoutReturn(line)) == OwnsCommand(line)
  {
    if EndsWithReturn(line) {
      var short := WithoutReturn(line);
      var text := TrimStart(short, WHITE_SPACE);
      assert line == short + "\r";
      TrimStartOfReturn(short);
      TrimOfReturn(short);
      if text != "" {
        OwnershipOfReturn(text);
        CommandOfReturn(text);
      }
    }
  }

  lemma CommandOfReturn(text: string)
    ensures StartsWith(text + "\r", "command") <==> StartsWith(text, "command")
    ensures '=' in text + "\r" <==> '=' in text
  {
    if |text| >= 7 {
      assert (text + "\r")[..7] == text[..7];
    } else if |text| == 6 {
      assert (text + "\r")[..7][6] == '\r';
    }
  }

  lemma {:induction false} ExtentOfReturns(lines: seq<string>)
    ensures Extent(WithoutReturns(lines)) == Extent(lines)
  {
    if lines != [] {
      ReturnIsIgnored(lines[0]);
      assert WithoutReturns(lines)[1..] == WithoutReturns(lines[1..]);
      ExtentOfReturns(lines[1..]);
    }
  }

  lemma OwnedWithoutReturns(block: seq<string>)
    ensures IsOwned(WithoutReturns(block)) <==> IsOwned(block)
  {
    var cut := WithoutReturns(block);
    forall i | 0 <= i < |block| ensures OwnsCommand(cut[i]) == OwnsCommand(block[i]) {
      ReturnIsIgnored(block[i]);
    }
  }

  lemma {:induction false} CleanWithoutReturns(lines: seq<string>)
    requires Clean(lines)
    ensures Clean(WithoutReturns(lines))
    decreases |lines|
  {
    if lines != [] {
      var cut := WithoutReturns(lines);
      ReturnIsIgnored(lines[0]);
      assert cut[1..] == WithoutReturns(lines[1..]);
      if IsHooks(lines[0]) {
        var n := 1 + Extent(lines[1..]);
        ExtentOfReturns(lines[1..]);
        OwnedWithoutReturns(lines[..n]);
        assert cut[..n] == WithoutReturns(lines[..n]) && cut[n..] == WithoutReturns(lines[n..]);
        CleanWithoutReturns(lines[n..]);
      } else {
        CleanWithoutReturns(lines[1..]);
      }
    }
  }

  // ---------------------------------------------------------------- blank lines at the end

  lemma BlankIsPlain()
    ensures !IsHeader("") && !IsHooks("") && !OwnsCommand("")
  {
  }

  /** A blank line at the end belongs to the last block and makes none of them ours. */
  lemma {:induction false} CleanWithBlank(lines: seq<string>)
    ensures Clean(lines + [""]) <==> Clean(lines)
    decreases |lines|
  {
    BlankIsPlain();
    var longer := lines + [""];
    if lines == [] {
      assert longer[1..] == [];
    } else if IsHooks(lines[0]) {
      var n := 1 + Extent(lines[1..]);
      BlockOf(lines);
      if n == |lines| {
        CleanBlock(longer, []);
        CleanBlock(lines, []);
        assert longer + [] == longer && lines + [] == lines;
        OwnedWithBlank(lines);
      } else {
        var rest := lines[n..];
        assert longer == lines[..n] + (rest + [""]) && lines == lines[..n] + rest;
        CleanBlock(lines[..n], rest + [""]);
        CleanBlock(lines[..n], rest);
        CleanWithBlank(rest);
      }
    } else {
      assert longer == [lines[0]] + (lines[1..] + [""]) && lines == [lines[0]] + lines[1..];
      CleanLine(lines[0], lines[1..] + [""]);
      CleanLine(lines[0], lines[1..]);
      CleanWithBlank(lines[1..]);
    }
  }

  lemma OwnedWithBlank(block: seq<string>)
    ensures IsOwned(block + [""]) <==> IsOwned(block)
  {
    BlankIsPlain();
    if IsOwned(block) {
      var i :| 0 <= i < |block| && OwnsCommand(block[i]);
      assert OwnsCommand((block + [""])[i]);
    }
  }

  /** The lines without blank ones at the end, except for a first one. */
  function TrimBlanks(lines: seq<string>): (trimmed: seq<string>)
    ensures trimmed == [] <==> lines == []
    ensures |trimmed| <= 1 || trimmed[|trimmed| - 1] != ""
  {
    if |lines| >= 2 && lines[|lines| - 1] == "" then TrimBlanks(lines[..|lines| - 1]) else lines
  }

  lemma {:induction false} CleanTrimmed(lines: seq<string>)
    requires Clean(lines)
    ensures Clean(TrimBlanks(lines))
  {
    if |lines| >= 2 && lines[|lines| - 1] == "" {
      var front := lines[..|lines| - 1];
      assert lines == front + [""];
      CleanWithBlank(front);
      CleanTrimmed(front);
    }
  }

  // ---------------------------------------------------------------- merging

  /** The events of an agent, each with the state it announces. */
  datatype AgentSpec = AgentSpec(agent: string, events: seq<(string, string)>)

  function EscapeUnit(c: char): string {
    match c
    case '\\' => "\\\\"
    case '\"' => "\\\""
    case '\n' => "\\n"
    case '\r' => "\\r"
    case '\t' => "\\t"
    case _ => [c]
  }

  /** A string as a basic string of TOML. */
  function Escape(text: string): (escaped: string)
    ensures '\n' !in escaped
  {
    if text == "" then "" else Escape(text[..|text| - 1]) + EscapeUnit(text[|text| - 1])
  }

  method EscapeTomlBasicString(text: string) returns (out: string)
    ensures out == Escape(text)
  {
    out := "";
    for i := 0 to |text|
      invariant out == Escape(text[..i])
    {
      assert text[..i + 1][..i] == text[..i];
      out := out + EscapeUnit(text[i]);
    }
    assert text[..|text|] == text;
  }

  lemma EscapeOfOneMore(text: string, c: char)
    ensures Escape(text + [c]) == Escape(text) + EscapeUnit(c)
  {
    Appended(text, c);
  }

  lemma {:induction false} EscapeOfConcat(left: string, right: string)
    ensures Escape(left + right) == Escape(left) + Escape(right)
  {
    if right == "" {
      assert left + right == left;
    } else {
      var front, last := right[..|right| - 1], right[|right| - 1];
      SplitLast(right);
      Regroup(left, front, [last]);
      EscapeOfConcat(left, front);
      EscapeOfOneMore(left + front, last);
      EscapeOfOneMore(front, last);
      Regroup(Escape(left), Escape(front), EscapeUnit(last));
    }
  }

  lemma {:induction false} EscapeOfPlain(text: string)
    requires forall c :: c in text ==> EscapeUnit(c) == [c]
    ensures Escape(text) == text
  {
    if text != "" {
      EscapeOfPlain(text[..|text| - 1]);
      assert text[..|text| - 1] + [text[|text| - 1]] == text;
    }
  }

  function EventLines(agent: string, event: string, marker: string): seq<string> {
    ["[[hooks]]", "event = \"" + event + "\"",
     "command = \"" + Escape(OscCommand(agent, marker, KIMI_TAIL)) + "\"", "timeout = 10", ""]
  }

  /** The blocks the merge writes. */
  function OwnLines(agent: string, events: seq<(string, string)>): seq<string> {
    if events == [] then [] else EventLines(agent, events[0].0, events[0].1) + OwnLines(agent, events[1..])
  }

  /** The kept lines and the blank line that separates them from our blocks. */
  function Front(kept: seq<string>): seq<string> {
    if kept == [] then [] else TrimBlanks(kept) + [""]
  }

  function Merge(content: string, spec: AgentSpec): string {
    Unlines(Front(Strip(Lines(content))) + OwnLines(spec.agent, spec.events))
  }

  /** Event names are plain words in the table of agents. */
  predicate PlainEvents(events: seq<(string, string)>) {
    forall i :: 0 <= i < |events| ==> '\n' !in events[i].0
  }

  lemma EscapedMiddle(front: string, middle: string, back: string)
    requires Escape(middle) == middle
    ensures Escape(front + (middle + back)) == Escape(front) + middle + Escape(back)
  {
    EscapeOfConcat(front, middle + back);
    EscapeOfConcat(middle, back);
    Regroup(Escape(front), middle, Escape(back));
  }

  lemma OwnedInside(before: string, text: string, after: string, front: string, owned: string, back: string)
    requires owned != "" && text == front + owned + back
    ensures Contains(before + text + after, owned)
  {
    assert before + text + after == (before + front) + owned + (back + after);
    MiddleIsContained(before + front, owned, back + after);
  }

  lemma MarkersArePlain(marker: string)
    requires marker == OWNED_MARKERS[0]
    ensures Escape(marker) == marker
  {
    EscapeOfPlain(marker);
  }

  lemma EscapedCommandIsOwned(agent: string, marker: string)
    ensures IsOwnedHookCommand("command = \"" + Escape(OscCommand(agent, marker, KIMI_TAIL)) + "\"")
  {
    var front := "[ -n \"$VOKTTY_TERMINAL\" ] && printf '\\033]777;";
    var back := agent + ";" + marker + "\\007' > /dev/tty; " + KIMI_TAIL;
    var owned := OWNED_MARKERS[0];
    assert OscCommand(agent, marker, KIMI_TAIL) == front + (owned + back) by { Regroup(front, owned, back); }
    MarkersArePlain(owned);
    EscapedMiddle(front, owned, back);
    OwnedInside("command = \"", Escape(OscCommand(agent, marker, KIMI_TAIL)), "\"", Escape(front), owned, Escape(back));
  }

  lemma PlainStart(line: string)
    requires line != "" && line[0] !in WHITE_SPACE
    ensures TrimStart(line, WHITE_SPACE) == line
  {
  }

  lemma EventLinesAreOurs(agent: string, event: string, marker: string)
    ensures var lines := EventLines(agent, event, marker);
            && IsHooks(lines[0]) && IsHeader(lines[0])
            && (forall i :: 1 <= i < 5 ==> !IsHeader(lines[i]))
            && OwnsCommand(lines[2])
            && WithoutReturns(lines) == lines
  {
    var lines := EventLines(agent, event, marker);
    PlainStart(lines[0]);
    PlainStart(lines[1]);
    PlainStart(lines[2]);
    PlainStart(lines[3]);
    EscapedCommandIsOwned(agent, marker);
    assert lines[2][..7] == "command" && lines[2][8] == '=';
    assert TrimEnd("[[hooks]]", WHITE_SPACE) == "[[hooks]]";
  }

  lemma {:induction false} OwnLinesVanish(agent: string, events: seq<(string, string)>)
    ensures AtBoundary(OwnLines(agent, events)) && Strip(OwnLines(agent, events)) == []
    ensures WithoutReturns(OwnLines(agent, events)) == OwnLines(agent, events)
  {
    if events != [] {
      var first := EventLines(agent, events[0].0, events[0].1);
      var rest := OwnLines(agent, events[1..]);
      EventLinesAreOurs(agent, events[0].0, events[0].1);
      OwnLinesVanish(agent, events[1..]);
      BlockIs(first, rest);
      assert (first + rest)[0] == first[0] && first[2] in first;
      assert [] + Strip(rest) == Strip(rest);
      ReturnsOfConcat(first, rest);
    }
  }

  lemma ReturnsOfConcat(left: seq<string>, right: seq<string>)
    ensures WithoutReturns(left + right) == WithoutReturns(left) + WithoutReturns(right)
  {
  }

  lemma {:induction false} OwnLinesAreLines(agent: string, events: seq<(string, string)>)
    requires PlainEvents(events)
    ensures forall line :: line in OwnLines(agent, events) ==> '\n' !in line
  {
    if events != [] {
      assert PlainEvents(events[1..]);
      OwnLinesAreLines(agent, events[1..]);
      EventLinesAreLines(agent, events[0].0, events[0].1);
    }
  }

  lemma EventLinesAreLines(agent: string, event: string, marker: string)
    requires '\n' !in event
    ensures forall line :: line in EventLines(agent, event, marker) ==> '\n' !in line
  {
  }

  lemma {:induction false} TrimmedAreThere(lines: seq<string>)
    ensures TrimBlanks(lines) <= lines
  {
    if |lines| >= 2 && lines[|lines| - 1] == "" { TrimmedAreThere(lines[..|lines| - 1]); }
  }

  lemma FrontIsClean(kept: seq<string>)
    requires Clean(kept)
    ensures Clean(Front(kept))
  {
    if kept != [] {
      CleanTrimmed(kept);
      CleanWithBlank(TrimBlanks(kept));
    }
  }

  /** What a later read of the merged text finds: every foreign line in order, up to the carriage
      return of its line end and blank lines at the end, then exactly our blocks. */
  lemma MergedLines(content: string, spec: AgentSpec)
    requires PlainEvents(spec.events)
    ensures var foreign := Foreign(Lines(content), 0);
            Lines(Merge(content, spec)) == WithoutReturns(Front(foreign)) + OwnLines(spec.agent, spec.events)
  {
    var lines := Lines(content);
    var kept := Strip(lines);
    var own := OwnLines(spec.agent, spec.events);
    assert lines[0..] == lines;
    StripKeepsForeign(lines, 0);
    TrimmedAreThere(kept);
    OwnLinesAreLines(spec.agent, spec.events);
    OwnLinesVanish(spec.agent, spec.events);
    FrontHasLines(kept);
    LinesOfUnlines(Front(kept) + own);
    ReturnsOfConcat(Front(kept), own);
  }

  lemma FrontHasLines(kept: seq<string>)
    requires forall line :: line in kept ==> '\n' !in line
    ensures forall line :: line in Front(kept) ==> '\n' !in line
  {
    TrimmedAreThere(kept);
  }

  /** Merging a merged text keeps its foreign lines, once more without carriage returns. */
  lemma MergedAgain(content: string, spec: AgentSpec)
    requires PlainEvents(spec.events)
    ensures var kept := Strip(Lines(content));
            Strip(Lines(Merge(content, spec))) == WithoutReturns(Front(kept))
  {
    var lines := Lines(content);
    var kept := Strip(lines);
    var own := OwnLines(spec.agent, spec.events);
    MergedLines(content, spec);
    assert lines[0..] == lines;
    StripKeepsForeign(lines, 0);
    OwnLinesVanish(spec.agent, spec.events);
    StripOfConcat(WithoutReturns(Front(kept)), own);
    StripIsClean(lines);
    FrontIsClean(kept);
    CleanWithoutReturns(Front(kept));
    CleanIsKept(WithoutReturns(Front(kept)));
    assert WithoutReturns(Front(kept)) + [] == WithoutReturns(Front(kept));
  }

  lemma FrontOfFront(kept: seq<string>)
    ensures Front(Front(kept)) == Front(kept)
  {
    if kept != [] {
      var trimmed := TrimBlanks(kept);
      assert (trimmed + [""])[..|trimmed|] == trimmed;
      assert TrimBlanks(trimmed) == trimmed;
    }
  }

  // ---------------------------------------------------------------- idempotence

  function Returns(text: string): nat {
    multiset(text)['\r']
  }

  function ReturnsIn(lines: seq<string>): nat {
    if lines == [] then 0 else ReturnsIn(lines[..|lines| - 1]) + Returns(lines[|lines| - 1])
  }

  lemma {:induction false} ReturnsInConcat(left: seq<string>, right: seq<string>)
    ensures ReturnsIn(left + right) == ReturnsIn(left) + ReturnsIn(right)
  {
    if right == [] {
      assert left + right == left;
    } else {
      var all := left + right;
      assert all[..|all| - 1] == left + right[..|right| - 1];
      ReturnsInConcat(left, right[..|right| - 1]);
    }
  }

  lemma {:induction false} ReturnsOfUnlines(lines: seq<string>)
    ensures Returns(Unlines(lines)) == ReturnsIn(lines)
  {
    if lines != [] {
      ReturnsOfUnlines(lines[..|lines| - 1]);
    }
  }

  lemma {:induction false} TrimKeepsReturns(lines: seq<string>)
    ensures ReturnsIn(TrimBlanks(lines)) == ReturnsIn(lines)
  {
    if |lines| >= 2 && lines[|lines| - 1] == "" { TrimKeepsReturns(lines[..|lines| - 1]); }
  }

  lemma FrontKeepsReturns(kept: seq<string>)
    ensures ReturnsIn(Front(kept)) == ReturnsIn(kept)
  {
    if kept != [] {
      TrimKeepsReturns(kept);
      assert (TrimBlanks(kept) + [""])[..|TrimBlanks(kept)|] == TrimBlanks(kept);
    }
  }

  lemma CuttingOne(line: string)
    ensures Returns(line) == Returns(WithoutReturn(line)) + if EndsWithReturn(line) then 1 else 0
  {
    if EndsWithReturn(line) {
      SplitLast(line);
      assert multiset(line) == multiset(WithoutReturn(line)) + multiset(['\r']);
    }
  }

  lemma ReturnsInOneMore(lines: seq<string>, line: string)
    ensures ReturnsIn(lines + [line]) == ReturnsIn(lines) + Returns(line)
  {
    Appended(lines, line);
  }

  lemma {:induction false} CuttingLosesReturns(lines: seq<string>)
    ensures ReturnsIn(WithoutReturns(lines)) <= ReturnsIn(lines)
    ensures (exists line :: line in lines && EndsWithReturn(line)) ==>
              ReturnsIn(WithoutReturns(lines)) < ReturnsIn(lines)
  {
    if lines != [] {
      var front, last := lines[..|lines| - 1], lines[|lines| - 1];
      SplitLast(lines);
      CuttingLosesReturns(front);
      CuttingOne(last);
      ReturnsInOneMore(front, last);
      ReturnsInOneMore(WithoutReturns(front), WithoutReturn(last));
      assert WithoutReturns(lines) == WithoutReturns(front) + [WithoutReturn(last)];
    }
  }

  lemma {:induction false} FrontHasReturn(kept: seq<string>, line: string)
    requires line in kept && EndsWithReturn(line)
    ensures line in Front(kept)
  {
    TrimHasLine(kept, line);
  }

  lemma {:induction false} TrimHasLine(lines: seq<string>, line: string)
    requires line in lines && line != ""
    ensures line in TrimBlanks(lines)
  {
    if |lines| >= 2 && lines[|lines| - 1] == "" {
      assert lines == lines[..|lines| - 1] + [""];
      TrimHasLine(lines[..|lines| - 1], line);
    }
  }

  lemma ReturnsOfMerge(content: string, spec: AgentSpec)
    ensures Returns(Merge(content, spec)) ==
            ReturnsIn(Strip(Lines(content))) + ReturnsIn(OwnLines(spec.agent, spec.events))
  {
    var kept := Strip(Lines(content));
    var own := OwnLines(spec.agent, spec.events);
    ReturnsOfUnlines(Front(kept) + own);
    ReturnsInConcat(Front(kept), own);
    FrontKeepsReturns(kept);
  }

  /** Merging twice is merging once if and only if no line outside our blocks ends with a carriage
      return, as a line end of two carriage returns and a line feed, or a carriage return at the
      very end of the text, leaves behind. */
  lemma MergeIsIdempotent(content: string, spec: AgentSpec)
    requires PlainEvents(spec.events)
    ensures Merge(Merge(content, spec), spec) == Merge(content, spec)
            <==> forall line :: line in Strip(Lines(content)) ==> !EndsWithReturn(line)
  {
    var kept := Strip(Lines(content));
    MergedAgain(content, spec);
    if forall line :: line in kept ==> !EndsWithReturn(line) {
      TrimmedAreThere(kept);
      assert WithoutReturns(Front(kept)) == Front(kept);
      FrontOfFront(kept);
    } else {
      var line :| line in kept && EndsWithReturn(line);
      FrontHasReturn(kept, line);
      CuttingLosesReturns(Front(kept));
      FrontKeepsReturns(kept);
      ReturnsOfMerge(content, spec);
      ReturnsOfMerge(Merge(content, spec), spec);
    }
  }

  lemma {:induction false} TrimmedIsShorter(text: string, space: set<char>)
    ensures |TrimStart(text, space)| <= |text| && |TrimEnd(text, space)| <= |text|
    ensures |Trim(text, space)| <= |text|
    decreases |text|
  {
    if text != "" {
      TrimmedIsShorter(text[1..], space);
      TrimmedIsShorter(text[..|text| - 1], space);
      if TrimStart(text, space) != text { TrimmedIsShorter(TrimStart(text, space), space); }
    }
  }

  lemma OneLine(text: string)
    requires '\n' !in text
    ensures Find(text, "\n").None?
  {
    forall i ensures !OccursAt(text, "\n", i) {
      if 0 <= i < |text| { assert text[i..i + 1][0] == text[i]; }
    }
  }

  const KIMI := AgentSpec("kimi", [("UserPromptSubmit", "working"), ("PermissionRequest", "attention"),
                                   ("Stop", "finished")])

  /** A config that fails: a text that ends with a carriage return. Writing it back makes a line end
      of it, which the second merge reads as one. */
  lemma ReturnAtTheEndIsLost()
    ensures PlainEvents(KIMI.events) && Merge(Merge("a\r", KIMI), KIMI) != Merge("a\r", KIMI)
  {
    var text := "a\r";
    OneLine(text);
    assert Lines(text) == [text];
    TrimmedIsShorter(text, WHITE_SPACE);
    assert Strip([text]) == [text] + Strip([]);
    assert text in Strip(Lines(text)) && EndsWithReturn(text);
    MergeIsIdempotent(text, KIMI);
  }

  // ---------------------------------------------------------------- the program

  /** The block that begins at line `from`, and where it ends. */
  method TakeBlock(lines: seq<string>, from: nat) returns (block: seq<string>, to: nat)
    requires from < |lines| && IsHooks(lines[from])
    ensures to == from + 1 + Extent(lines[from..][1..]) && to <= |lines| && block == lines[from..to]
  {
    block := [lines[from]];
    to := from + 1;
    while to < |lines| && !IsHeader(lines[to])
      invariant from < to <= |lines| && block == lines[from..to]
      invariant forall k :: from < k < to ==> !IsHeader(lines[k])
    {
      block := block + [lines[to]];
      to := to + 1;
    }
    ghost var rest := lines[from..][1..];
    assert forall k :: 0 <= k < to - from - 1 ==> rest[k] == lines[from + 1 + k];
    if to < |lines| { assert rest[to - from - 1] == lines[to]; }
    ExtentIs(rest, to - from - 1);
  }

  lemma KeptAfterLine(lines: seq<string>, kept: seq<string>, i: nat)
    requires i < |lines| && !IsHooks(lines[i]) && Strip(lines) == kept + Strip(lines[i..])
    ensures Strip(lines) == kept + [lines[i]] + Strip(lines[i + 1..])
  {
    assert lines[i..][0] == lines[i] && lines[i..][1..] == lines[i + 1..];
    Regroup(kept, [lines[i]], Strip(lines[i + 1..]));
  }

  lemma KeptAfterBlock(lines: seq<string>, kept: seq<string>, i: nat, to: nat)
    requires i < |lines| && IsHooks(lines[i]) && Strip(lines) == kept + Strip(lines[i..])
    requires to == i + 1 + Extent(lines[i..][1..])
    ensures i < to <= |lines|
    ensures Strip(lines) == kept + (if IsOwned(lines[i..to]) then [] else lines[i..to]) + Strip(lines[to..])
  {
    BlockAt(lines, i);
    StripOfBlock(lines, i, to);
    Regroup(kept, if IsOwned(lines[i..to]) then [] else lines[i..to], Strip(lines[to..]));
  }

  method StripOwnedKimiHooks(content: string) returns (out: string)
    ensures out == Unlines(Strip(Lines(content)))
  {
    var lines := Lines(content);
    ghost var kept: seq<string> := [];
    out := "";
    var i := 0;
    assert lines[0..] == lines && kept + Strip(lines) == Strip(lines);
    while i < |lines|
      invariant i <= |lines| && out == Unlines(kept)
      invariant Strip(lines) == kept + Strip(lines[i..])
    {
      if IsHooks(lines[i]) {
        var block, to := TakeBlock(lines, i);
        KeptAfterBlock(lines, kept, i, to);
        if !IsOwned(block) {
          UnlinesOfConcat(kept, block);
          out := AppendLines(out, block);
          kept := kept + block;
        } else {
          assert kept + [] == kept;
        }
        i := to;
      } else {
        KeptAfterLine(lines, kept, i);
        LastLine(kept, lines[i]);
        out := out + lines[i] + "\n";
        kept := kept + [lines[i]];
        i := i + 1;
      }
    }
    assert lines[i..] == [] && kept + [] == kept;
  }

  method AppendLines(out: string, block: seq<string>) returns (longer: string)
    ensures longer == out + Unlines(block)
  {
    longer := out;
    for i := 0 to |block|
      invariant longer == out + Unlines(block[..i])
    {
      assert block[..i + 1][..i] == block[..i];
      longer := longer + block[i] + "\n";
    }
    assert block[..|block|] == block;
  }

  function WithoutBreaks(out: string): string {
    if |out| >= 2 && out[|out| - 2..] == "\n\n" then WithoutBreaks(out[..|out| - 1]) else out
  }

  lemma {:induction false} TrimmedText(lines: seq<string>)
    requires forall line :: line in lines ==> '\n' !in line
    ensures WithoutBreaks(Unlines(lines)) == Unlines(TrimBlanks(lines))
  {
    var text := Unlines(lines);
    if lines != [] {
      var n := |lines| - 1;
      var before := Unlines(lines[..n]);
      if lines[n] != "" {
        var last := lines[n][|lines[n]| - 1];
        assert lines[n] in lines && last in lines[n];
        assert text[|text| - 2..][0] == last;
      } else if n >= 1 {
        assert before != "" && before[|before| - 1] == '\n';
        assert text == before + "\n" && text[|text| - 2..] == "\n\n";
        assert text[..|text| - 1] == before;
        TrimmedText(lines[..n]);
      } else {
        assert lines[..0] == [] && text == "\n";
      }
    }
  }

  method PopBreaks(text: string) returns (out: string)
    ensures out == WithoutBreaks(text)
  {
    out := text;
    while |out| >= 2 && out[|out| - 2..] == "\n\n"
      invariant WithoutBreaks(out) == WithoutBreaks(text)
    {
      out := out[..|out| - 1];
    }
  }

  lemma UnlinesEnds(lines: seq<string>)
    ensures lines == [] <==> Unlines(lines) == ""
    ensures lines != [] ==> Unlines(lines)[|Unlines(lines)| - 1] == '\n'
  {
  }

  /** Writes the kept text up to the blank line before our blocks. */
  method PrepareText(content: string) returns (out: string)
    ensures out == Unlines(Front(Strip(Lines(content))))
  {
    out := StripOwnedKimiHooks(content);
    ghost var kept := Strip(Lines(content));
    out := PopBreaks(out);
    TrimmedText(kept);
    UnlinesEnds(TrimBlanks(kept));
    LastLine(TrimBlanks(kept), "");
    if out != "" && out[|out| - 1] != '\n' { out := out + "\n"; }
    if out != "" { out := out + "\n"; }
  }

  /** Writes one of our blocks. */
  method AppendEvent(out: string, agent: string, event: string, marker: string) returns (longer: string)
    ensures longer == out + Unlines(EventLines(agent, event, marker))
  {
    var command := EscapeTomlBasicString(OscCommand(agent, marker, KIMI_TAIL));
    EventText(agent, event, marker);
    longer := out + ("[[hooks]]" + "\n" + ("event = \"" + event + "\"" + "\n")
                     + ("command = \"" + command + "\"" + "\n") + "timeout = 10" + "\n\n");
  }

  lemma OwnLinesFrom(agent: string, events: seq<(string, string)>, i: nat)
    requires i < |events|
    ensures Unlines(OwnLines(agent, events[i..])) ==
            Unlines(EventLines(agent, events[i].0, events[i].1)) + Unlines(OwnLines(agent, events[i + 1..]))
  {
    assert events[i..][0] == events[i] && events[i..][1..] == events[i + 1..];
    UnlinesOfConcat(EventLines(agent, events[i].0, events[i].1), OwnLines(agent, events[i + 1..]));
  }

  method MergeKimiHooks(content: string, spec: AgentSpec) returns (out: string)
    ensures out == Merge(content, spec)
  {
    out := PrepareText(content);
    ghost var front := Front(Strip(Lines(content)));
    assert spec.events[0..] == spec.events;
    for i := 0 to |spec.events|
      invariant out + Unlines(OwnLines(spec.agent, spec.events[i..]))
                == Unlines(front) + Unlines(OwnLines(spec.agent, spec.events))
    {
      OwnLinesFrom(spec.agent, spec.events, i);
      ghost var before := out;
      out := AppendEvent(out, spec.agent, spec.events[i].0, spec.events[i].1);
      Regroup(before, Unlines(EventLines(spec.agent, spec.events[i].0, spec.events[i].1)),
              Unlines(OwnLines(spec.agent, spec.events[i + 1..])));
    }
    assert spec.events[|spec.events|..] == [] && out + "" == out;
    UnlinesOfConcat(front, OwnLines(spec.agent, spec.events));
  }

  lemma EventText(agent: string, event: string, marker: string)
    ensures Unlines(EventLines(agent, event, marker)) ==
            "[[hooks]]" + "\n" + ("event = \"" + event + "\"" + "\n")
            + ("command = \"" + Escape(OscCommand(agent, marker, KIMI_TAIL)) + "\"" + "\n") + "timeout = 10" + "\n\n"
  {
    FiveLines("[[hooks]]", "event = \"" + event + "\"",
              "command = \"" + Escape(OscCommand(agent, marker, KIMI_TAIL)) + "\"", "timeout = 10");
  }

  lemma FiveLines(first: string, second: string, third: string, fourth: string)
    ensures Unlines([first, second, third, fourth, ""]) ==
            first + "\n" + (second + "\n") + (third + "\n") + fourth + "\n\n"
  {
    LastLine([first, second, third, fourth], "");
    LastLine([first, second, third], fourth);
    LastLine([first, second], third);
    LastLine([first], second);
    LastLine([], first);
    assert [first, second, third, fourth, ""] == [first, second, third, fourth] + [""];
    assert [first, second, third, fourth] == [first, second, third] + [fourth];
    assert [first, second, third] == [first, second] + [third];
    assert [first, second] == [first] + [second];
    assert [first] == [] + [first];
  }
}
