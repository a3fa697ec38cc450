/** The text of the environment file: read, split into lines, merged, joined and written
    (bocchi/cli.py:107-139). Lines end at a line feed only. */
module EnvText {
  import opened Common
  import opened Text
  import opened EnvLines
  import opened EnvMerge

  function Join(lines: seq<Line>): string {
    if lines == [] then "" else lines[0] + Join(lines[1..])
  }

  /** The text up to and including its first line feed. */
  function FirstLine(text: string): Line {
    if text == "" then ""
    else if text[0] == '\n' then "\n"
    else [text[0]] + FirstLine(text[1..])
  }

  lemma {:induction false} FirstLineIsPrefix(text: string)
    ensures |FirstLine(text)| <= |text| && text == FirstLine(text) + text[|FirstLine(text)|..]
  {
    if text != "" && text[0] != '\n' {
      FirstLineIsPrefix(text[1..]);
      assert text == [text[0]] + text[1..];
    }
  }

  lemma {:induction false} FirstLineIsLine(text: string)
    requires text != ""
    ensures IsLine(FirstLine(text))
    ensures |FirstLine(text)| < |text| ==> Terminated(FirstLine(text))
  {
    if text[0] != '\n' && text[1..] != "" {
      FirstLineIsLine(text[1..]);
      assert FirstLine(text)[1..] == FirstLine(text[1..]);
    }
  }

  /** splitlines(keepends=True) */
  function SplitLines(text: string): seq<Line>
    decreases |text|
  {
    if text == "" then []
    else
      FirstLineIsPrefix(text);
      FirstLineIsLine(text);
      [FirstLine(text)] + SplitLines(text[|FirstLine(text)|..])
  }

  predicate Terminated(line: Line) { line != "" && line[|line| - 1] == '\n' }

  /** A line feed can only be the last character. */
  predicate IsLine(line: Line) {
    line != "" && (|line| == 1 || (line[0] != '\n' && IsLine(line[1..])))
  }

  ghost predicate All(lines: seq<Line>, p: Line -> bool) {
    lines == [] || (All(lines[..|lines| - 1], p) && p(lines[|lines| - 1]))
  }

  ghost predicate AllButLast(lines: seq<Line>, p: Line -> bool) { lines == [] || All(lines[..|lines| - 1], p) }

  /** Every line but the last ends with a line feed. */
  ghost predicate Closed(lines: seq<Line>) { AllButLast(lines, Terminated) }

  lemma {:induction false} AllConcat(a: seq<Line>, b: seq<Line>, p: Line -> bool)
    ensures All(a + b, p) <==> All(a, p) && All(b, p)
  {
    if b == [] {
      assert a + b == a;
    } else {
      assert (a + b)[..|a + b| - 1] == a + b[..|b| - 1];
      AllConcat(a, b[..|b| - 1], p);
    }
  }

  lemma ClosedConcat(a: seq<Line>, b: seq<Line>)
    requires b != []
    ensures Closed(a + b) <==> All(a, Terminated) && Closed(b)
  {
    assert (a + b)[..|a + b| - 1] == a + b[..|b| - 1];
    AllConcat(a, b[..|b| - 1], Terminated);
  }

  lemma AllOne(line: Line, p: Line -> bool)
    ensures All([line], p) <==> p(line)
  {
  }

  // ---- Splitting and joining ----

  lemma {:induction false} SplitThenJoin(text: string)
    ensures Join(SplitLines(text)) == text
    decreases |text|
  {
    if text == "" {
    } else {
      FirstLineIsPrefix(text);
      SplitThenJoin(text[|FirstLine(text)|..]);
      var rest := SplitLines(text[|FirstLine(text)|..]);
      assert ([FirstLine(text)] + rest)[1..] == rest;
    }
  }

  lemma {:induction false} SplitIsClosed(text: string)
    ensures All(SplitLines(text), IsLine) && Closed(SplitLines(text))
    decreases |text|
  {
    if text == "" {
    } else {
      var first := FirstLine(text);
      FirstLineIsPrefix(text);
      FirstLineIsLine(text);
      SplitIsClosed(text[|first|..]);
      var rest := SplitLines(text[|first|..]);
      AllOne(first, IsLine);
      AllOne(first, Terminated);
      AllConcat([first], rest, IsLine);
      if rest == [] {
        assert [first] + rest == [first];
        assert [first][..0] == [];
      } else {
        ClosedConcat([first], rest);
      }
    }
  }

  lemma {:induction false} FirstLineOf(line: Line, rest: string)
    requires IsLine(line) && (Terminated(line) || rest == "")
    ensures FirstLine(line + rest) == line
  {
    if |line| == 1 {
      assert line + rest == [line[0]] + rest;
      if line[0] != '\n' {
        assert (line + rest)[1..] == "";
      }
    } else {
      assert (line + rest)[1..] == line[1..] + rest;
      FirstLineOf(line[1..], rest);
      assert line == [line[0]] + line[1..];
    }
  }

  lemma {:induction false} JoinThenSplit(lines: seq<Line>)
    requires All(lines, IsLine) && Closed(lines)
    ensures SplitLines(Join(lines)) == lines
  {
    if lines == [] {
    } else {
      var first, rest := lines[0], lines[1..];
      assert lines == [first] + rest;
      AllConcat([first], rest, IsLine);
      AllOne(first, IsLine);
      AllOne(first, Terminated);
      if rest != [] {
        ClosedConcat([first], rest);
      }
      JoinThenSplit(rest);
      FirstLineOf(first, Join(rest));
      assert (first + Join(rest))[|first|..] == Join(rest);
    }
  }

  /** Joined lines read back as the same lines exactly when each but the last ends with a line feed. */
  lemma JoinReadsBack(lines: seq<Line>)
    requires All(lines, IsLine)
    ensures SplitLines(Join(lines)) == lines <==> Closed(lines)
  {
    SplitIsClosed(Join(lines));
    if Closed(lines) {
      JoinThenSplit(lines);
    }
  }

  // ---- The merged file ----

  ghost predicate AllBlocks(blocks: seq<Block>, p: Line -> bool) {
    blocks == [] || (AllBlocks(blocks[..|blocks| - 1], p) && All(blocks[|blocks| - 1], p))
  }

  ghost predicate LastBlockBut(blocks: seq<Block>, p: Line -> bool) {
    blocks == [] || (AllBlocks(blocks[..|blocks| - 1], p) && AllButLast(blocks[|blocks| - 1], p))
  }

  lemma WithLineAll(blocks: seq<Block>, line: Line, opens: bool, p: Line -> bool)
    requires AllBlocks(blocks, p)
    ensures p(line) ==> AllBlocks(WithLine(blocks, line, opens), p)
    ensures LastBlockBut(WithLine(blocks, line, opens), p)
  {
  }

  lemma {:induction false} BlocksAll(lines: seq<Line>, p: Line -> bool)
    requires All(lines, p)
    ensures AllBlocks(Blocks(lines), p)
  {
    if lines == [] {
    } else {
      var init, last := lines[..|lines| - 1], lines[|lines| - 1];
      BlocksAll(init, p);
      WithLineAll(Blocks(init), last, AtBoundary(init), p);
    }
  }

  /** Only the last line of the last block can end without a line feed. */
  lemma BlocksOfClosed(lines: seq<Line>)
    requires Closed(lines)
    ensures LastBlockBut(Blocks(lines), Terminated)
  {
    if lines != [] {
      var init, last := lines[..|lines| - 1], lines[|lines| - 1];
      BlocksAll(init, Terminated);
      WithLineAll(Blocks(init), last, AtBoundary(init), Terminated);
    }
  }

  lemma {:induction false} AllBlocksAt(blocks: seq<Block>, p: Line -> bool, k: nat)
    requires AllBlocks(blocks, p) && k < |blocks|
    ensures All(blocks[k], p)
  {
    if k < |blocks| - 1 {
      AllBlocksAt(blocks[..|blocks| - 1], p, k);
    }
  }

  // ---- Insertions and the ends of lines ----

  ghost predicate AllItems(items: seq<Item>, p: Line -> bool) {
    items == [] ||
    (AllItems(items[..|items| - 1], p) && items[|items| - 1].block != [] && All(items[|items| - 1].block, p))
  }

  lemma {:induction false} MissingAll(example: seq<Block>, n: nat, existing: set<string>, p: Line -> bool)
    requires n <= |example| && AllSolid(example) && AllBlocks(example[..n], p)
    ensures AllItems(Missing(example, n, existing), p)
  {
    if n > 0 {
      assert example[..n][..n - 1] == example[..n - 1];
      MissingAll(example, n - 1, existing, p);
      SolidAt(example, n - 1);
      AllItemsSnoc(Missing(example, n - 1, existing), Item(example[n - 1], example[n..]), p);
    }
  }

  lemma AllItemsSnoc(items: seq<Item>, item: Item, p: Line -> bool)
    requires AllItems(items, p)
    ensures AllItems(items + [], p)
    ensures item.block != [] && All(item.block, p) ==> AllItems(items + [item], p)
  {
    assert items + [] == items;
    assert (items + [item])[..|items|] == items;
  }

  lemma ChunkAll(lines: seq<Line>, i: nat, block: Block, p: Line -> bool)
    requires i <= |lines| && p(NEWLINE)
    ensures All(Chunk(lines, i, block), p) <==> All(block, p)
  {
    var pre: seq<Line> := if 0 < i && !BlankLine(lines[i - 1]) then [NEWLINE] else [];
    var post: seq<Line> := if i < |lines| && block != [] && !BlankLine(block[|block| - 1]) then [NEWLINE] else [];
    AllOne(NEWLINE, p);
    AllConcat(pre, block, p);
    AllConcat(pre + block, post, p);
  }

  lemma InsertAll(lines: seq<Line>, later: seq<Block>, block: Block, p: Line -> bool)
    requires p(NEWLINE)
    ensures All(InsertAt(lines, later, block), p) <==> All(lines, p) && All(block, p)
  {
    var i := LineIndex(lines, later);
    var chunk := Chunk(lines, i, block);
    ChunkAll(lines, i, block, p);
    AllConcat(lines[..i], chunk, p);
    AllConcat(lines[..i] + chunk, lines[i..], p);
    AllConcat(lines[..i], lines[i..], p);
    assert lines == lines[..i] + lines[i..];
  }

  /** Inserting before some line leaves the end of the file as it is. */
  lemma InsertInside(lines: seq<Line>, later: seq<Block>, block: Block)
    requires LineIndex(lines, later) < |lines| && All(block, Terminated)
    ensures var after := InsertAt(lines, later, block);
      && (Closed(after) <==> Closed(lines))
      && after != [] && after[|after| - 1] == lines[|lines| - 1]
  {
    var i := LineIndex(lines, later);
    var chunk := Chunk(lines, i, block);
    ChunkAll(lines, i, block, Terminated);
    ClosedConcat(lines[..i] + chunk, lines[i..]);
    AllConcat(lines[..i], chunk, Terminated);
    ClosedConcat(lines[..i], lines[i..]);
    assert lines == lines[..i] + lines[i..];
  }

  lemma InsertAtEndIs(lines: seq<Line>, later: seq<Block>, block: Block)
    requires LineIndex(lines, later) == |lines|
    ensures InsertAt(lines, later, block) == lines + Lead(lines) + block
  {
  }

  /** Inserting at the end puts the last old line inside the file. */
  lemma InsertAtEnd(lines: seq<Line>, later: seq<Block>, block: Block)
    requires LineIndex(lines, later) == |lines| && block != []
    ensures var after := InsertAt(lines, later, block);
      && (Closed(after) <==> All(lines, Terminated) && Closed(block))
      && after != [] && after[|after| - 1] == block[|block| - 1]
  {
    InsertAtEndIs(lines, later, block);
    AllOne(NEWLINE, Terminated);
    AllConcat(lines, Lead(lines), Terminated);
    ClosedConcat(lines + Lead(lines), block);
  }

  /** Some block goes in at the very end. */
  ghost predicate Appends(items: seq<Item>, lines: seq<Line>) {
    items != [] &&
    (var merged := Merge(items[..|items| - 1], lines);
     Appends(items[..|items| - 1], lines) || LineIndex(merged, items[|items| - 1].later) == |merged|)
  }

  lemma AllIsClosed(lines: seq<Line>)
    ensures All(lines, Terminated) <==> Closed(lines) && (lines == [] || Terminated(lines[|lines| - 1]))
  {
  }

  /** What a merge leaves at the end of the file. */
  ghost predicate EndOk(items: seq<Item>, lines: seq<Line>, merged: seq<Line>) {
    if Appends(items, lines)
    then (Closed(merged) <==> All(lines, Terminated)) && merged != [] && Terminated(merged[|merged| - 1])
    else Closed(merged) && |merged| >= |lines| && (lines == [] ==> merged == [])
         && (lines != [] ==> merged[|merged| - 1] == lines[|lines| - 1])
  }

  lemma {:induction false} MergeEnds(items: seq<Item>, lines: seq<Line>)
    requires AllItems(items, Terminated) && Closed(lines)
    ensures EndOk(items, lines, Merge(items, lines))
  {
    if items == [] {
    } else {
      var rest, last := items[..|items| - 1], items[|items| - 1];
      var merged := Merge(rest, lines);
      MergeEnds(rest, lines);
      AllIsClosed(lines);
      AllIsClosed(merged);
      AllIsClosed(last.block);
      if LineIndex(merged, last.later) < |merged| {
        InsertInside(merged, last.later, last.block);
      } else {
        InsertAtEnd(merged, last.later, last.block);
      }
    }
  }

  // ---- Main results ----

  /** The merge of the lines of two texts, and the insertions it makes. */
  ghost function Insertions(example: string, env: string): seq<Item> {
    Missing(Blocks(SplitLines(example)), |Blocks(SplitLines(example))|, Keys(SplitLines(env)))
  }

  ghost function Written(example: string, env: string): string {
    Join(Synced(SplitLines(example), SplitLines(env)))
  }

  /** The example's last block goes to the end, whatever the file holds. */
  lemma LastGoesToEnd(lines: seq<Line>)
    ensures LineIndex(lines, []) == |lines|
  {
    BlocksAndStarts(lines);
  }

  lemma SyncedIsClosed(example: string, env: string)
    ensures Closed(Synced(SplitLines(example), SplitLines(env)))
            <==> All(SplitLines(env), Terminated) || !Appends(Insertions(example, env), SplitLines(env))
  {
    var blocks, lines, existing := Blocks(SplitLines(example)), SplitLines(env), Keys(SplitLines(env));
    SplitIsClosed(example);
    SplitIsClosed(env);
    BlocksOfClosed(SplitLines(example));
    BlocksAreSolid(SplitLines(example));
    if blocks == [] {
      MergeEnds([], lines);
    } else {
      var n := |blocks| - 1;
      MissingAll(blocks, n, existing, Terminated);
      SolidAt(blocks, n);
      LastInsertion(Missing(blocks, n, existing), blocks[n], lines);
      assert blocks[n + 1..] == [];
      assert Missing(blocks, n, existing) + [] == Missing(blocks, n, existing);
    }
  }

  lemma LastInsertion(items: seq<Item>, block: Block, lines: seq<Line>)
    requires AllItems(items, Terminated) && Closed(lines) && block != [] && Closed(block)
    ensures Closed(Merge(items, lines)) <==> All(lines, Terminated) || !Appends(items, lines)
    ensures Closed(Merge(items + [Item(block, [])], lines)) <==> All(lines, Terminated)
    ensures Appends(items + [Item(block, [])], lines)
  {
    var merged, more := Merge(items, lines), items + [Item(block, [])];
    assert more[..|items|] == items;
    MergeEnds(items, lines);
    AllIsClosed(lines);
    AllIsClosed(merged);
    LastGoesToEnd(merged);
    InsertAtEnd(merged, [], block);
  }

  lemma {:induction false} MergeIsLines(items: seq<Item>, lines: seq<Line>)
    requires AllItems(items, IsLine) && All(lines, IsLine)
    ensures All(Merge(items, lines), IsLine)
  {
    if items == [] {
    } else {
      var rest, last := items[..|items| - 1], items[|items| - 1];
      MergeIsLines(rest, lines);
      InsertAll(Merge(rest, lines), last.later, last.block, IsLine);
    }
  }

  lemma SyncedIsLines(example: string, env: string)
    ensures All(Synced(SplitLines(example), SplitLines(env)), IsLine)
  {
    var blocks := Blocks(SplitLines(example));
    SplitIsClosed(example);
    SplitIsClosed(env);
    BlocksAll(SplitLines(example), IsLine);
    BlocksAreSolid(SplitLines(example));
    assert blocks[..|blocks|] == blocks;
    MissingAll(blocks, |blocks|, Keys(SplitLines(env)), IsLine);
    MergeIsLines(Insertions(example, env), SplitLines(env));
  }

  /** The written file has the merged lines when it is read again exactly when the old file ended with a line
      feed or nothing was put at its end. */
  lemma WrittenReadsBack(example: string, env: string)
    ensures SplitLines(Written(example, env)) == Synced(SplitLines(example), SplitLines(env))
            <==> All(SplitLines(env), Terminated) || !Appends(Insertions(example, env), SplitLines(env))
  {
    SyncedIsLines(example, env);
    JoinReadsBack(Synced(SplitLines(example), SplitLines(env)));
    SyncedIsClosed(example, env);
  }

  lemma SingleLine(line: Line)
    requires IsLine(line)
    ensures SplitLines(line) == [line]
  {
    assert line + "" == line;
    FirstLineOf(line, "");
    assert SplitLines("") == [];
  }

  lemma SingleBlock(line: Line)
    requires !BlankLine(line)
    ensures Blocks([line]) == [[line]] && BlockKey([line]) == KeyOf(line)
  {
  }

  /** A missing block for a file of one line goes to its end. */
  lemma OneMissing(line: Line, more: Line)
    requires !BlankLine(line) && !BlankLine(more)
    requires KeyOf(line).Some? && KeyOf(more).Some? && KeyOf(line) != KeyOf(more)
    ensures Synced([more], [line]) == [line, NEWLINE, more]
  {
    SingleBlock(more);
    var example, existing := Blocks([more]), Keys([line]);
    assert existing == {KeyOf(line).value};
    assert Missing(example, 0, existing) == [];
    assert example[1..] == [];
    assert Missing(example, 1, existing) == [Item([more], [])];
    LastGoesToEnd([line]);
    InsertAtEndIs([line], [], [more]);
    assert Merge([], [line]) == [line];
    var items := [Item([more], [])];
    assert items[..0] == [];
    assert Merge(items, [line]) == InsertAt([line], [], [more]);
  }

  lemma JoinThree(a: Line, b: Line, c: Line)
    ensures Join([a, b, c]) == a + (b + c)
  {
    assert [a, b, c][1..] == [b, c] && [b, c][1..] == [c] && [c][1..] == [];
    assert Join([]) == "";
    assert Join([c]) == c + "" == c;
    assert Join([b, c]) == b + c;
  }

  lemma JoinedBlock(line: Line, more: Line)
    requires !BlankLine(line) && !BlankLine(more)
    ensures |Blocks([line, more])| == 1
  {
    assert [line][..0] == [] && [line, more][..1] == [line];
    assert Solid([line]);
    OneBlock([line, more]);
  }

  lemma TwoBlocks(line: Line, more: Line)
    requires !BlankLine(line) && !BlankLine(more)
    ensures |Blocks([line, NEWLINE, more])| == 2
  {
    SingleBlock(line);
    SingleBlock(more);
    NewlineIsBlank();
    BlankAlone(NEWLINE);
    BlocksConcat([line], [NEWLINE]);
    BlocksConcat([line] + [NEWLINE], [more]);
    assert [line] + [NEWLINE] + [more] == [line, NEWLINE, more];
  }

  /** A file of one line that does not end with a line feed, and an example of one block it does not know. */
  ghost predicate Unterminated(line: Line, more: Line) {
    && IsLine(line) && !Terminated(line) && IsLine(more) && Terminated(more)
    && !BlankLine(line) && !BlankLine(more)
    && KeyOf(line).Some? && KeyOf(more).Some? && KeyOf(line) != KeyOf(more)
  }

  lemma UnterminatedMerge(line: Line, more: Line)
    requires Unterminated(line, more)
    ensures Synced(SplitLines(more), SplitLines(line)) == [line, NEWLINE, more]
  {
    SingleLine(line);
    SingleLine(more);
    OneMissing(line, more);
  }

  lemma UnterminatedWritten(line: Line, more: Line)
    requires Unterminated(line, more)
    ensures Written(more, line) == line + "\n" + more
  {
    UnterminatedMerge(line, more);
    JoinThree(line, NEWLINE, more);
    Associate(line, "\n", more);
  }

  lemma {:induction false} EndedLine(line: Line)
    requires IsLine(line) && !Terminated(line)
    ensures IsLine(line + "\n")
  {
    if |line| == 1 {
      assert (line + "\n")[1..] == "\n";
    } else {
      EndedLine(line[1..]);
      assert (line + "\n")[1..] == line[1..] + "\n";
    }
  }

  lemma EndedLineNotBlank(line: Line)
    requires !BlankLine(line)
    ensures !BlankLine(line + "\n")
  {
    TrimBlank(line);
    TrimBlank(line + "\n");
    var i :| 0 <= i < |line| && !IsSpace(line[i]);
    assert (line + "\n")[i] == line[i];
  }

  lemma UnterminatedReread(line: Line, more: Line)
    requires Unterminated(line, more)
    ensures SplitLines(line + "\n" + more) == [line + "\n", more]
  {
    EndedLine(line);
    FirstLineOf(line + "\n", more);
    SingleLine(more);
    assert (line + "\n" + more)[|line + "\n"|..] == more;
  }

  /** Without a line feed at the end of the file the blank line meant to keep the blocks apart ends the old
      line instead: the two merged blocks are read back as one. */
  lemma UnterminatedFileFuses(line: Line, more: Line)
    requires Unterminated(line, more)
    ensures |Blocks(Synced(SplitLines(more), SplitLines(line)))| == 2
    ensures |Blocks(SplitLines(Written(more, line)))| == 1
  {
    UnterminatedMerge(line, more);
    TwoBlocks(line, more);
    UnterminatedWritten(line, more);
    UnterminatedReread(line, more);
    EndedLineNotBlank(line);
    JoinedBlock(line + "\n", more);
  }

  /** Assignments to different names are such a file and example. */
  lemma AssignmentsFuse(name: string, value: string, other: string, end: string)
    requires IsName(name) && IsName(other) && name != other
    requires IsLine(name + "=" + value) && !Terminated(name + "=" + value)
    requires IsLine(other + "=" + end) && Terminated(other + "=" + end)
    ensures Unterminated(name + "=" + value, other + "=" + end)
  {
    AssignmentReadsBack(name, value);
    AssignmentReadsBack(other, end);
    KeyedIsNotBlank(name + "=" + value);
    KeyedIsNotBlank(other + "=" + end);
  }

  lemma KeyedIsNotBlank(line: Line)
    requires KeyOf(line).Some?
    ensures !BlankLine(line)
  {
  }
}
