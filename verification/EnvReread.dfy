/** Reading the written environment file again (bocchi/cli.py:107-139). When the old file did not end with a line
    feed and blocks went to its end, its last line and the line behind it are read as one. */
module EnvReread {
  import opened Common
  import opened Text
  import opened EnvLines
  import opened EnvMerge
  import opened EnvText

  // ---- Where a block goes in ----

  lemma {:induction false} StartNotBlank(lines: seq<Line>, k: nat)
    requires k < |Starts(lines)|
    ensures Starts(lines)[k] < |lines| && !BlankLine(lines[Starts(lines)[k]])
  {
    var init := lines[..|lines| - 1];
    if k < |Starts(init)| {
      StartNotBlank(init, k);
    }
  }

  /** Before a line that begins a block. */
  ghost predicate BeginsBlock(lines: seq<Line>, i: nat) {
    i < |lines| && AtBoundary(lines[..i]) && !BlankLine(lines[i])
  }

  lemma PlaceBeginsBlock(lines: seq<Line>, later: seq<Block>)
    ensures LineIndex(lines, later) == |lines| || BeginsBlock(lines, LineIndex(lines, later))
  {
    LineIndexDivides(lines, later);
    var k := BlockIndex(Blocks(lines), later);
    if k < |Starts(lines)| {
      StartNotBlank(lines, k);
    }
  }

  lemma {:induction false} SolidFirst(block: Block)
    requires Solid(block)
    ensures !BlankLine(block[0])
  {
    if |block| == 1 {
    } else {
      SolidFirst(block[..|block| - 1]);
    }
  }

  // ---- The place where the old file ended ----

  /** The merged lines around the old file's last line, which has no line feed; `body` was put behind it. */
  datatype Seam = Seam(before: seq<Line>, last: Line, body: seq<Line>)

  function Gap(s: Seam): seq<Line> { if s.body == [] || BlankLine(s.last) then [] else [NEWLINE] }

  function Whole(s: Seam): seq<Line> { s.before + [s.last] + Gap(s) + s.body }

  ghost predicate SeamOk(s: Seam) {
    All(s.before, Terminated) && !Terminated(s.last) && (s.body != [] ==> !BlankLine(s.body[0]))
  }

  /** An insertion keeps the last line and, if that is blank, whether it follows a boundary. */
  ghost predicate SameEnd(s: Seam, t: Seam) {
    t.last == s.last && (BlankLine(s.last) ==> (AtBoundary(t.before) <==> AtBoundary(s.before)))
  }

  ghost predicate Inserts(s: Seam, t: Seam, later: seq<Block>, block: Block) {
    && SeamOk(t) && SameEnd(s, t) && Whole(t) == InsertAt(Whole(s), later, block)
    && (t.body != [] <==> s.body != [] || LineIndex(Whole(s), later) == |Whole(s)|)
  }

  lemma AllSplice(xs: seq<Line>, i: nat, ys: seq<Line>, p: Line -> bool)
    requires i <= |xs|
    ensures All(Splice(xs, i, ys), p) <==> All(xs, p) && All(ys, p)
  {
    AllConcat(xs[..i], ys, p);
    AllConcat(xs[..i] + ys, xs[i..], p);
    AllConcat(xs[..i], xs[i..], p);
    assert xs == xs[..i] + xs[i..];
  }

  lemma FrontWhole(s: Seam, i: nat, chunk: seq<Line>)
    requires i <= |s.before|
    ensures Whole(s.(before := Splice(s.before, i, chunk))) == Splice(Whole(s), i, chunk)
  {
    var tail := [s.last] + Gap(s) + s.body;
    assert Whole(s) == s.before + tail;
    assert Splice(s.before, i, chunk) + tail == Splice(s.before + tail, i, chunk);
  }

  lemma FrontOk(s: Seam, i: nat, chunk: seq<Line>)
    requires SeamOk(s) && i <= |s.before| && All(chunk, Terminated) && (i == |s.before| ==> !BlankLine(s.last))
    ensures SeamOk(s.(before := Splice(s.before, i, chunk))) && SameEnd(s, s.(before := Splice(s.before, i, chunk)))
  {
    AllSplice(s.before, i, chunk, Terminated);
  }

  lemma InsertAtIs(lines: seq<Line>, later: seq<Block>, block: Block)
    ensures var i := LineIndex(lines, later); InsertAt(lines, later, block) == Splice(lines, i, Chunk(lines, i, block))
  {
  }

  lemma InsertInFront(s: Seam, later: seq<Block>, block: Block) returns (t: Seam)
    requires SeamOk(s) && All(block, Terminated) && LineIndex(Whole(s), later) <= |s.before|
    ensures Inserts(s, t, later, block) && t.body == s.body
  {
    var i := LineIndex(Whole(s), later);
    var chunk := Chunk(Whole(s), i, block);
    t := s.(before := Splice(s.before, i, chunk));
    PlaceBeginsBlock(Whole(s), later);
    assert i == |s.before| ==> Whole(s)[i] == s.last;
    ChunkAll(Whole(s), i, block, Terminated);
    FrontOk(s, i, chunk);
    FrontWhole(s, i, chunk);
    InsertAtIs(Whole(s), later, block);
  }

  /** Where the body begins. */
  function BodyAt(s: Seam): nat { |s.before| + 1 + |Gap(s)| }

  lemma BodyWhole(s: Seam, k: nat, chunk: seq<Line>)
    requires s.body != [] && k <= |s.body|
    ensures |Whole(s)| == BodyAt(s) + |s.body|
    ensures Whole(s.(body := Splice(s.body, k, chunk))) == Splice(Whole(s), BodyAt(s) + k, chunk)
  {
    var head := s.before + [s.last] + Gap(s);
    assert head + Splice(s.body, k, chunk) == Splice(head + s.body, |head| + k, chunk);
  }

  /** What goes in before the first line of the body begins with the block. */
  lemma BodyFirst(s: Seam, block: Block)
    requires SeamOk(s) && Solid(block) && s.body != []
    ensures var chunk := Chunk(Whole(s), BodyAt(s), block); chunk != [] && !BlankLine(chunk[0])
  {
    var whole, i := Whole(s), BodyAt(s);
    SolidFirst(block);
    NewlineIsBlank();
    assert whole[i - 1] == if Gap(s) == [] then s.last else NEWLINE;
    assert Chunk(whole, i, block)[0] == block[0];
  }

  lemma BodyOk(s: Seam, k: nat, chunk: seq<Line>)
    requires SeamOk(s) && All(s.body, Terminated) && k < |s.body|
    requires All(chunk, Terminated) && (k == 0 ==> chunk != [] && !BlankLine(chunk[0]))
    ensures var t := PutInBody(s, k, chunk);
      SeamOk(t) && SameEnd(s, t) && t.body != [] && All(t.body, Terminated)
  {
    AllSplice(s.body, k, chunk, Terminated);
    assert Splice(s.body, k, chunk)[0] == if k == 0 then chunk[0] else s.body[0];
  }

  lemma InsertInBody(s: Seam, later: seq<Block>, block: Block) returns (t: Seam)
    requires SeamOk(s) && Solid(block) && All(block, Terminated) && All(s.body, Terminated)
    requires |s.before| < LineIndex(Whole(s), later) < |Whole(s)|
    ensures Inserts(s, t, later, block) && All(t.body, Terminated)
  {
    var i := LineIndex(Whole(s), later);
    PlaceBeginsBlock(Whole(s), later);
    NotInGap(s, i);
    var chunk := Chunk(Whole(s), i, block);
    t := PutInBody(s, i - BodyAt(s), chunk);
    ChunkAll(Whole(s), i, block, Terminated);
    BodyFirst(s, block);
    BodyOk(s, i - BodyAt(s), chunk);
    PutInBodyInserts(s, i, chunk);
    InsertAtIs(Whole(s), later, block);
  }

  function PutInBody(s: Seam, k: nat, chunk: seq<Line>): Seam
    requires k <= |s.body|
  {
    s.(body := Splice(s.body, k, chunk))
  }

  lemma PutInBodyInserts(s: Seam, i: nat, chunk: seq<Line>)
    requires BodyAt(s) <= i < BodyAt(s) + |s.body|
    ensures i <= |Whole(s)| && Whole(PutInBody(s, i - BodyAt(s), chunk)) == Splice(Whole(s), i, chunk)
  {
    BodyWhole(s, i - BodyAt(s), chunk);
  }

  /** No block begins between the last line and its separating line. */
  lemma NotInGap(s: Seam, i: nat)
    requires BeginsBlock(Whole(s), i) && |s.before| < i
    ensures BodyAt(s) <= i < BodyAt(s) + |s.body|
  {
    var whole := Whole(s);
    if i == |s.before| + 1 {
      assert whole[..i][i - 1] == s.last;
    }
  }

  /** What goes to the end: the block alone behind the old last line, or apart from what is there. */
  function Behind(s: Seam, block: Block): Seam {
    s.(body := if s.body == [] then block else s.body + Lead(Whole(s)) + block)
  }

  lemma BehindWhole(s: Seam, block: Block)
    requires block != []
    ensures Whole(Behind(s, block)) == Whole(s) + Lead(Whole(s)) + block
  {
    if s.body == [] {
      assert AtBoundary(Whole(s)) <==> BlankLine(s.last);
    }
  }

  lemma BehindCloses(body: seq<Line>, lead: seq<Line>, block: Block)
    requires All(body, Terminated) && All(lead, Terminated) && block != [] && Closed(block)
    ensures Closed(body + lead + block) && (All(block, Terminated) ==> All(body + lead + block, Terminated))
  {
    AllConcat(body, lead, Terminated);
    ClosedConcat(body + lead, block);
    AllConcat(body + lead, block, Terminated);
  }

  lemma InsertBehind(s: Seam, later: seq<Block>, block: Block) returns (t: Seam)
    requires SeamOk(s) && Solid(block) && Closed(block) && All(s.body, Terminated)
    requires LineIndex(Whole(s), later) == |Whole(s)|
    ensures Inserts(s, t, later, block) && Closed(t.body) && (All(block, Terminated) ==> All(t.body, Terminated))
  {
    t := Behind(s, block);
    InsertAtEndIs(Whole(s), later, block);
    BehindWhole(s, block);
    SolidFirst(block);
    AllOne(NEWLINE, Terminated);
    BehindCloses(s.body, Lead(Whole(s)), block);
  }

  lemma InsertSeam(s: Seam, later: seq<Block>, block: Block) returns (t: Seam)
    requires SeamOk(s) && Solid(block) && All(block, Terminated) && All(s.body, Terminated)
    ensures Inserts(s, t, later, block) && All(t.body, Terminated)
  {
    var i := LineIndex(Whole(s), later);
    AllIsClosed(block);
    if i <= |s.before| {
      t := InsertInFront(s, later, block);
    } else if i < |Whole(s)| {
      t := InsertInBody(s, later, block);
    } else {
      t := InsertBehind(s, later, block);
    }
  }

  lemma {:induction false} MergeSeam(items: seq<Item>, s: Seam) returns (t: Seam)
    requires SeamOk(s) && s.body == [] && SolidItems(items) && AllItems(items, Terminated)
    ensures SeamOk(t) && SameEnd(s, t) && Whole(t) == Merge(items, Whole(s)) && All(t.body, Terminated)
    ensures t.body != [] <==> Appends(items, Whole(s))
  {
    if items == [] {
      t := s;
    } else {
      var rest, last := items[..|items| - 1], items[|items| - 1];
      var u := MergeSeam(rest, s);
      t := InsertSeam(u, last.later, last.block);
    }
  }

  lemma MergeSeamAndLast(items: seq<Item>, block: Block, s: Seam) returns (t: Seam)
    requires SeamOk(s) && s.body == [] && SolidItems(items) && AllItems(items, Terminated)
    requires Solid(block) && Closed(block)
    ensures SeamOk(t) && SameEnd(s, t) && Whole(t) == Merge(items + [Item(block, [])], Whole(s))
    ensures t.body != [] && Closed(t.body)
  {
    var u := MergeSeam(items, s);
    assert (items + [Item(block, [])])[..|items|] == items;
    LastGoesToEnd(Whole(u));
    t := InsertBehind(u, [], block);
  }

  /** The file's last line has no line feed and something goes to its end. */
  ghost predicate Joins(example: string, env: string) {
    !All(SplitLines(env), Terminated) && Appends(Insertions(example, env), SplitLines(env))
  }

  ghost function EndOf(env: string): Seam
    requires SplitLines(env) != []
  {
    var lines := SplitLines(env);
    Seam(lines[..|lines| - 1], lines[|lines| - 1], [])
  }

  lemma EndOfIs(env: string)
    requires !All(SplitLines(env), Terminated)
    ensures SplitLines(env) != [] && SeamOk(EndOf(env)) && Whole(EndOf(env)) == SplitLines(env)
  {
    SplitIsClosed(env);
    AllIsClosed(SplitLines(env));
  }

  /** The merged lines around the end of the old file. */
  lemma SyncedSeam(example: string, env: string) returns (t: Seam)
    requires Joins(example, env)
    ensures SplitLines(env) != [] && SeamOk(t) && SameEnd(EndOf(env), t)
    ensures Whole(t) == Synced(SplitLines(example), SplitLines(env)) && t.body != [] && Closed(t.body)
  {
    EndOfIs(env);
    var blocks, existing, s := Blocks(SplitLines(example)), Keys(SplitLines(env)), EndOf(env);
    SplitIsClosed(example);
    BlocksOfClosed(SplitLines(example));
    BlocksAreSolid(SplitLines(example));
    assert blocks == [] ==> Insertions(example, env) == [];
    var n := |blocks| - 1;
    MissingAll(blocks, n, existing, Terminated);
    MissingIsSolid(blocks, n, existing);
    SolidAt(blocks, n);
    var items := Missing(blocks, n, existing);
    assert blocks[n + 1..] == [] && items + [] == items;
    if IsMissing(blocks[n], existing) {
      t := MergeSeamAndLast(items, blocks[n], s);
    } else {
      t := MergeSeam(items, s);
      AllIsClosed(t.body);
    }
  }

  // ---- What is read ----

  /** The line behind the last line, and the lines behind that. */
  function Second(s: Seam): Line
    requires s.body != []
  {
    if BlankLine(s.last) then s.body[0] else NEWLINE
  }

  function Left(s: Seam): seq<Line>
    requires s.body != []
  {
    if BlankLine(s.last) then s.body[1..] else s.body
  }

  /** The last line takes in the line behind it. */
  function Reread(s: Seam): seq<Line>
    requires s.body != []
  {
    s.before + ([s.last + Second(s)] + Left(s))
  }

  lemma WholeParts(s: Seam)
    requires s.body != []
    ensures Whole(s) == s.before + ([s.last] + ([Second(s)] + Left(s)))
    ensures BlankLine(s.last) ==> [Second(s)] + Left(s) == s.body
  {
    if BlankLine(s.last) {
      assert [s.body[0]] + s.body[1..] == s.body;
    }
  }

  lemma {:induction false} JoinConcat(a: seq<Line>, b: seq<Line>)
    ensures Join(a + b) == Join(a) + Join(b)
  {
    if a == [] {
      assert a + b == b;
    } else {
      JoinConcat(a[1..], b);
      assert (a + b)[1..] == a[1..] + b;
      Associate(a[0], Join(a[1..]), Join(b));
    }
  }

  lemma JoinOne(line: Line)
    ensures Join([line]) == line
  {
    assert [line][1..] == [];
    assert Join([]) == "";
  }

  lemma JoinFused(line: Line, second: Line, left: seq<Line>)
    ensures Join([line] + ([second] + left)) == Join([line + second] + left)
  {
    JoinConcat([line], [second] + left);
    JoinConcat([second], left);
    JoinConcat([line + second], left);
    JoinOne(line);
    JoinOne(second);
    JoinOne(line + second);
    Associate(line, second, Join(left));
  }

  lemma SameText(s: Seam)
    requires s.body != []
    ensures Join(Reread(s)) == Join(Whole(s))
  {
    WholeParts(s);
    JoinConcat(s.before, [s.last] + ([Second(s)] + Left(s)));
    JoinConcat(s.before, [s.last + Second(s)] + Left(s));
    JoinFused(s.last, Second(s), Left(s));
  }

  lemma LineOf(line: Line)
    requires |line| > 1 && line[0] != '\n' && IsLine(line[1..])
    ensures IsLine(line)
  {
  }

  lemma {:induction false} LongerLine(line: Line, more: Line)
    requires IsLine(line) && !Terminated(line) && IsLine(more)
    ensures IsLine(line + more)
  {
    var rest, all := line[1..], line + more;
    assert line[0] != '\n' && all[0] == line[0] && all[1..] == rest + more;
    if rest == "" {
      assert rest + more == more;
    } else {
      LongerLine(rest, more);
    }
    LineOf(all);
  }

  lemma FusedLines(line: Line, second: Line, left: seq<Line>)
    requires All([line] + ([second] + left), IsLine) && !Terminated(line) && Closed([second] + left)
    ensures All([line + second] + left, IsLine) && Closed([line + second] + left)
  {
    AllConcat([line], [second] + left, IsLine);
    AllConcat([second], left, IsLine);
    AllOne(line, IsLine);
    AllOne(second, IsLine);
    LongerLine(line, second);
    AllOne(line + second, IsLine);
    AllConcat([line + second], left, IsLine);
    FusedCloses(line, second, left);
  }

  lemma FusedCloses(line: Line, second: Line, left: seq<Line>)
    requires second != "" && Closed([second] + left)
    ensures Closed([line + second] + left)
  {
    AllOne(second, Terminated);
    AllOne(line + second, Terminated);
    if left != [] {
      ClosedConcat([second], left);
      ClosedConcat([line + second], left);
    } else {
      assert [line + second] + left == [line + second];
      assert [line + second][..0] == [];
    }
  }

  lemma SecondCloses(s: Seam)
    requires s.body != [] && Closed(s.body)
    ensures Closed([Second(s)] + Left(s))
  {
    WholeParts(s);
    AllOne(NEWLINE, Terminated);
    ClosedConcat([NEWLINE], s.body);
  }

  /** The joined lines are read as these. */
  lemma RereadIsRead(s: Seam)
    requires SeamOk(s) && s.body != [] && Closed(s.body) && All(Whole(s), IsLine)
    ensures SplitLines(Join(Whole(s))) == Reread(s)
  {
    WholeParts(s);
    SecondCloses(s);
    AllConcat(s.before, [s.last] + ([Second(s)] + Left(s)), IsLine);
    FusedLines(s.last, Second(s), Left(s));
    AllConcat(s.before, [s.last + Second(s)] + Left(s), IsLine);
    ClosedConcat(s.before, [s.last + Second(s)] + Left(s));
    SameText(s);
    JoinReadsBack(Reread(s));
  }

  // ---- Keys, and a second run ----

  lemma {:induction false} TrimBlankFront(line: Line, more: Line)
    requires BlankLine(line)
    ensures Trim(line + more) == Trim(more)
    decreases |line|
  {
    TrimBlank(line);
    if line == "" {
      assert line + more == more;
    } else {
      assert forall i | 0 <= i < |line[1..]| :: line[1..][i] == line[i + 1];
      TrimBlank(line[1..]);
      TrimBlankFront(line[1..], more);
      assert IsSpace(line[0]) && (line + more)[1..] == line[1..] + more;
    }
  }

  lemma {:induction false} TrimNewlineBack(line: Line)
    ensures Trim(line + NEWLINE) == Trim(line)
    decreases |line|
  {
    var all := line + NEWLINE;
    if line == "" {
      assert all == NEWLINE && NEWLINE[1..] == "";
      assert TrimFront(NEWLINE) == TrimFront("") == "";
    } else if IsSpace(line[0]) {
      assert all[1..] == line[1..] + NEWLINE;
      TrimNewlineBack(line[1..]);
    } else {
      assert TrimFront(all) == all && all[..|all| - 1] == line;
    }
  }

  /** The fused line has the key of its part that is not blank. */
  lemma FusedKey(line: Line, second: Line, key: string)
    requires BlankLine(line) || second == NEWLINE
    ensures HasKey([line + second], key) <==> HasKey([line], key) || HasKey([second], key)
  {
    NewlineIsBlank();
    if BlankLine(line) {
      TrimBlankFront(line, second);
      assert KeyOf(line) == None;
    } else {
      TrimNewlineBack(line);
      assert KeyOf(NEWLINE) == None;
    }
    HasKeyOne(line, key);
    HasKeyOne(second, key);
    HasKeyOne(line + second, key);
  }

  lemma HasKeyOne(line: Line, key: string)
    ensures HasKey([line], key) <==> KeyOf(line) == Some(key)
  {
    assert [line][..0] == [];
  }

  lemma RereadHasKey(s: Seam, key: string)
    requires s.body != []
    ensures HasKey(Reread(s), key) <==> HasKey(Whole(s), key)
  {
    WholeParts(s);
    HasKeyConcat(s.before, [s.last] + ([Second(s)] + Left(s)), key);
    HasKeyConcat([s.last], [Second(s)] + Left(s), key);
    HasKeyConcat([Second(s)], Left(s), key);
    HasKeyConcat(s.before, [s.last + Second(s)] + Left(s), key);
    HasKeyConcat([s.last + Second(s)], Left(s), key);
    FusedKey(s.last, Second(s), key);
  }

  /** What the written file is read as. */
  lemma WrittenIsReread(example: string, env: string) returns (s: Seam)
    requires Joins(example, env)
    ensures SplitLines(env) != [] && SeamOk(s) && s.body != [] && SameEnd(EndOf(env), s)
    ensures Whole(s) == Synced(SplitLines(example), SplitLines(env))
    ensures SplitLines(Written(example, env)) == Reread(s)
  {
    s := SyncedSeam(example, env);
    SyncedIsLines(example, env);
    RereadIsRead(s);
  }

  lemma WrittenHasKey(example: string, env: string, key: string)
    ensures HasKey(SplitLines(Written(example, env)), key)
            <==> HasKey(Synced(SplitLines(example), SplitLines(env)), key)
  {
    if Joins(example, env) {
      var s := WrittenIsReread(example, env);
      RereadHasKey(s, key);
    } else {
      WrittenReadsBack(example, env);
    }
  }

  /** Main result: whether or not the old file ended with a line feed, the first key of every block of the example
      is assigned in the file that was written. */
  lemma AllKeysInFile(example: string, env: string, k: nat)
    requires k < |Blocks(SplitLines(example))| && BlockKey(Blocks(SplitLines(example))[k]).Some?
    ensures HasKey(SplitLines(Written(example, env)), BlockKey(Blocks(SplitLines(example))[k]).value)
  {
    AllKeysPresent(SplitLines(example), SplitLines(env), k);
    WrittenHasKey(example, env, BlockKey(Blocks(SplitLines(example))[k]).value);
  }

  /** Main result: running the synchronisation again leaves the text of every file as it is. */
  lemma SecondRunKeepsText(example: string, env: string)
    ensures Written(example, Written(example, env)) == Written(example, env)
  {
    var blocks, reread := Blocks(SplitLines(example)), SplitLines(Written(example, env));
    forall j | 0 <= j < |blocks| ensures !IsMissing(blocks[j], Keys(reread)) {
      if BlockKey(blocks[j]).Some? {
        AllKeysInFile(example, env, j);
        KeysMeaning(reread, BlockKey(blocks[j]).value);
      }
    }
    NoneMissing(blocks, |blocks|, Keys(reread));
    SplitThenJoin(Written(example, env));
  }

  /** A file that was created from the example, as it is when there was none, stays as it is. */
  lemma CreatedFileStays(example: string)
    ensures Written(example, example) == example
  {
    var lines := SplitLines(example);
    var blocks := Blocks(lines);
    forall j | 0 <= j < |blocks| ensures !IsMissing(blocks[j], Keys(lines)) {
      if BlockKey(blocks[j]).Some? {
        KeyIsClean(blocks[j]);
        var line :| line in blocks[j] && KeyOf(line) == BlockKey(blocks[j]);
        KeyedIsNotBlank(line);
        BlocksHaveLines(lines, line);
      }
    }
    NoneMissing(blocks, |blocks|, Keys(lines));
    SplitThenJoin(example);
  }

  // ---- When the blocks are read back ----

  /** The lines without the white space at their ends. */
  function Stripped(lines: seq<Line>): seq<Line> {
    seq(|lines|, i requires 0 <= i < |lines| => Trim(lines[i]))
  }

  function StrippedBlocks(blocks: seq<Block>): seq<Block> {
    seq(|blocks|, i requires 0 <= i < |blocks| => Stripped(blocks[i]))
  }

  lemma TrimStaysBlank(line: Line)
    ensures BlankLine(Trim(line)) <==> BlankLine(line)
  {
    TrimFrontBlank(line);
    TrimBackBlank(TrimFront(line));
    TrimBlank(Trim(line));
    if Trim(line) != "" {
      assert !IsSpace(Trim(line)[0]);
    }
  }

  lemma StripWithLine(blocks: seq<Block>, line: Line, opens: bool)
    ensures StrippedBlocks(WithLine(blocks, line, opens)) == WithLine(StrippedBlocks(blocks), Trim(line), opens)
  {
    TrimStaysBlank(line);
    if !BlankLine(line) && (opens || blocks == []) {
      assert Stripped([line]) == [Trim(line)];
    } else if !BlankLine(line) {
      var n := |blocks| - 1;
      assert Stripped(blocks[n] + [line]) == Stripped(blocks[n]) + [Trim(line)];
      assert StrippedBlocks(blocks)[..n] == StrippedBlocks(blocks[..n]);
    }
  }

  lemma {:induction false} StripBlocks(lines: seq<Line>)
    ensures StrippedBlocks(Blocks(lines)) == Blocks(Stripped(lines))
    ensures AtBoundary(Stripped(lines)) <==> AtBoundary(lines)
  {
    if lines == [] {
    } else {
      var init, last := lines[..|lines| - 1], lines[|lines| - 1];
      StripBlocks(init);
      TrimStaysBlank(last);
      StripWithLine(Blocks(init), last, AtBoundary(init));
      assert Stripped(lines)[..|lines| - 1] == Stripped(init);
    }
  }

  lemma {:induction false} FusedStarts(a: seq<Line>, b: seq<Line>)
    requires !AtBoundary(a) && b != [] && !BlankLine(b[0])
    ensures |Starts(a + b)| == |Starts(a)| + |Starts(b)| - 1
    decreases |b|
  {
    var init := b[..|b| - 1];
    assert (a + b)[..|a + b| - 1] == a + init;
    if init == [] {
      assert a + init == a;
    } else {
      FusedStarts(a, init);
      assert (a + init)[|a + init| - 1] == init[|init| - 1];
    }
  }

  /** Lines put together inside a block fuse two blocks. */
  lemma FusedBlocks(a: seq<Line>, b: seq<Line>)
    requires !AtBoundary(a) && b != [] && !BlankLine(b[0])
    ensures |Blocks(a + b)| == |Blocks(a)| + |Blocks(b)| - 1
  {
    FusedStarts(a, b);
    BlocksAndStarts(a);
    BlocksAndStarts(b);
    BlocksAndStarts(a + b);
  }

  /** A blank line between them keeps the blocks apart. */
  lemma BlankApart(a: seq<Line>, blank: Line, b: seq<Line>)
    requires BlankLine(blank)
    ensures Blocks(a + ([blank] + b)) == Blocks(a) + Blocks(b)
  {
    BlankAlone(blank);
    BlocksConcat([blank], b);
    BlocksConcat(a, [blank] + b);
  }

  lemma TextParts(s: Seam)
    requires s.body != [] && !BlankLine(s.last)
    ensures Whole(s) == s.before + [s.last] + ([NEWLINE] + s.body)
    ensures Reread(s) == s.before + [s.last + NEWLINE] + s.body
  {
  }

  /** Behind a line that is not blank the block is fused with the one before. */
  lemma TextFuses(s: Seam)
    requires s.body != [] && !BlankLine(s.last) && !BlankLine(s.body[0])
    ensures |Blocks(Reread(s))| == |Blocks(Whole(s))| - 1
  {
    TextParts(s);
    NewlineIsBlank();
    BlankApart(s.before + [s.last], NEWLINE, s.body);
    TrimNewlineBack(s.last);
    SameStarts(s.before, s.last, s.last + NEWLINE);
    FusedBlocks(s.before + [s.last + NEWLINE], s.body);
  }

  lemma SameStarts(before: seq<Line>, line: Line, other: Line)
    requires BlankLine(line) <==> BlankLine(other)
    ensures |Blocks(before + [line])| == |Blocks(before + [other])|
  {
    BlocksOfMore(before, line);
    BlocksOfMore(before, other);
  }

  /** The body with the blank last line in front of its first line. */
  function Widened(s: Seam): seq<Line>
    requires s.body != []
  {
    [s.last + s.body[0]] + s.body[1..]
  }

  lemma BlankParts(s: Seam)
    requires s.body != [] && BlankLine(s.last)
    ensures Whole(s) == s.before + ([s.last] + s.body) && Reread(s) == s.before + Widened(s)
  {
  }

  lemma WidenedLines(s: Seam)
    requires s.body != [] && BlankLine(s.last)
    ensures Stripped(Widened(s)) == Stripped(s.body)
  {
    TrimBlankFront(s.last, s.body[0]);
  }

  lemma WidenedBody(s: Seam)
    requires s.body != [] && BlankLine(s.last) && !BlankLine(s.body[0])
    ensures StrippedBlocks(Blocks(Widened(s))) == StrippedBlocks(Blocks(s.body))
    ensures !BlankLine(Widened(s)[0])
  {
    TrimBlankFront(s.last, s.body[0]);
    WidenedLines(s);
    StripBlocks(Widened(s));
    StripBlocks(s.body);
  }

  lemma StrippedConcat(a: seq<Block>, b: seq<Block>)
    ensures StrippedBlocks(a + b) == StrippedBlocks(a) + StrippedBlocks(b)
  {
  }

  lemma BlankFuses(s: Seam)
    requires s.body != [] && BlankLine(s.last) && !BlankLine(s.body[0])
    ensures AtBoundary(s.before) ==> StrippedBlocks(Blocks(Reread(s))) == StrippedBlocks(Blocks(Whole(s)))
    ensures !AtBoundary(s.before) ==> |Blocks(Reread(s))| == |Blocks(Whole(s))| - 1
  {
    BlankParts(s);
    WidenedBody(s);
    BlankApart(s.before, s.last, s.body);
    if AtBoundary(s.before) {
      BlocksConcat(s.before, Widened(s));
      StrippedConcat(Blocks(s.before), Blocks(Widened(s)));
      StrippedConcat(Blocks(s.before), Blocks(s.body));
    } else {
      FusedBlocks(s.before, Widened(s));
    }
  }

  /** The file ends with a line feed, or with a blank line that does not follow a block. */
  ghost predicate EndsApart(env: string) {
    var lines := SplitLines(env);
    || All(lines, Terminated)
    || (lines != [] && BlankLine(lines[|lines| - 1]) && AtBoundary(lines[..|lines| - 1]))
  }

  /** Main result: the written file has the merged blocks when it is read again, up to white space at the ends of
      lines, exactly when the old file ended apart or nothing was put at its end; otherwise two are fused. */
  lemma BlocksReadBackIff(example: string, env: string)
    ensures var reread, merged := SplitLines(Written(example, env)), Synced(SplitLines(example), SplitLines(env));
      && (StrippedBlocks(Blocks(reread)) == StrippedBlocks(Blocks(merged))
          <==> EndsApart(env) || !Appends(Insertions(example, env), SplitLines(env)))
      && (!(EndsApart(env) || !Appends(Insertions(example, env), SplitLines(env))) ==>
            |Blocks(reread)| == |Blocks(merged)| - 1)
  {
    if Joins(example, env) {
      var s := WrittenIsReread(example, env);
      if BlankLine(s.last) {
        BlankFuses(s);
      } else {
        TextFuses(s);
      }
    } else {
      WrittenReadsBack(example, env);
    }
  }
}
