/** Adding the missing blocks of the example file to the environment file (bocchi/cli.py:76-140), on lists
    of lines. */
module EnvMerge {
  import opened Common
  import opened EnvLines

  const NEWLINE: Line := "\n"

  /** The keys that are assigned. */
  ghost function Keys(lines: seq<Line>): set<string> {
    set line | line in lines && KeyOf(line).Some? :: KeyOf(line).value
  }

  type Anchor = Option<string>

  function Anchors(blocks: seq<Block>): seq<Anchor> {
    seq(|blocks|, i requires 0 <= i < |blocks| => BlockAnchor(blocks[i]))
  }

  /** The first block with this anchor; past the end when there is none. */
  function FirstWith(anchors: seq<Anchor>, anchor: Anchor): (k: nat)
    ensures k <= |anchors|
    ensures k < |anchors| ==> anchors[k] == anchor
    ensures forall i | 0 <= i < k :: anchors[i] != anchor
  {
    if anchors == [] then 0
    else if anchors[0] == anchor then 0
    else 1 + FirstWith(anchors[1..], anchor)
  }

  /** Which block a new one goes before: the first one found among the anchors of the example's later
      blocks; past the end when none is found. */
  function PlaceIn(anchors: seq<Anchor>, later: seq<Anchor>): (k: nat)
    ensures k <= |anchors|
  {
    if later == [] then |anchors|
    else if later[0].None? then PlaceIn(anchors, later[1..])
    else
      var k := FirstWith(anchors, later[0]);
      if k < |anchors| then k else PlaceIn(anchors, later[1..])
  }

  function BlockIndex(blocks: seq<Block>, later: seq<Block>): (k: nat)
    ensures k <= |blocks|
  {
    PlaceIn(Anchors(blocks), Anchors(later))
  }

  function LineIndex(lines: seq<Line>, later: seq<Block>): (i: nat)
    ensures i <= |lines|
  {
    var k := BlockIndex(Blocks(lines), later);
    if k < |Starts(lines)| then
      StartInside(lines, k);
      Starts(lines)[k]
    else |lines|
  }

  lemma StartInside(lines: seq<Line>, k: nat)
    requires k < |Starts(lines)|
    ensures Starts(lines)[k] < |lines|
  {
  }

  /** The lines that go in at an index: the block, kept apart from its neighbours. */
  function Chunk(lines: seq<Line>, index: nat, block: Block): seq<Line>
    requires index <= |lines|
  {
    (if 0 < index && !BlankLine(lines[index - 1]) then [NEWLINE] else [])
    + block
    + (if index < |lines| && block != [] && !BlankLine(block[|block| - 1]) then [NEWLINE] else [])
  }

  function Splice<T>(xs: seq<T>, index: nat, ys: seq<T>): seq<T>
    requires index <= |xs|
  {
    xs[..index] + ys + xs[index..]
  }

  function InsertBefore(lines: seq<Line>, index: nat, block: Block): seq<Line>
    requires index <= |lines|
  {
    Splice(lines, index, Chunk(lines, index, block))
  }

  function InsertAt(lines: seq<Line>, later: seq<Block>, block: Block): seq<Line> {
    InsertBefore(lines, LineIndex(lines, later), block)
  }

  /** The index divides the lines where it divides the blocks. */
  ghost predicate Divides(lines: seq<Line>, i: nat, k: nat) {
    && i <= |lines| && k <= |Blocks(lines)| && (i < |lines| ==> AtBoundary(lines[..i]))
    && Blocks(lines[..i]) == Blocks(lines)[..k] && Blocks(lines[i..]) == Blocks(lines)[k..]
  }

  lemma StartDivides(lines: seq<Line>, k: nat)
    requires k < |Starts(lines)|
    ensures Divides(lines, Starts(lines)[k], k)
  {
    var s := StartSplits(lines, k);
  }

  lemma EndDivides(lines: seq<Line>)
    ensures Divides(lines, |lines|, |Blocks(lines)|)
  {
    assert lines[..|lines|] == lines && lines[|lines|..] == [];
    assert Blocks([]) == [];
  }

  lemma LineIndexDivides(lines: seq<Line>, later: seq<Block>)
    ensures Divides(lines, LineIndex(lines, later), BlockIndex(Blocks(lines), later))
  {
    var k := BlockIndex(Blocks(lines), later);
    BlocksAndStarts(lines);
    if k < |Starts(lines)| {
      StartDivides(lines, k);
    } else {
      EndDivides(lines);
    }
  }

  lemma NewlineIsBlank()
    ensures BlankLine(NEWLINE)
  {
  }

  lemma BlankAlone(line: Line)
    requires BlankLine(line)
    ensures Blocks([line]) == []
  {
  }

  /** A separating line before a block. */
  function Lead(before: seq<Line>): seq<Line> { if AtBoundary(before) then [] else [NEWLINE] }

  /** A separating line after a block. */
  function Trail(after: seq<Line>): seq<Line> { if after == [] then [] else [NEWLINE] }

  lemma LeadSeparates(before: seq<Line>)
    ensures Blocks(before + Lead(before)) == Blocks(before) && AtBoundary(before + Lead(before))
  {
    NewlineIsBlank();
    if AtBoundary(before) {
      assert before + [] == before;
    } else {
      BlankAlone(NEWLINE);
      BlocksConcat(before, [NEWLINE]);
    }
  }

  lemma TrailSeparates(after: seq<Line>)
    ensures Blocks(Trail(after) + after) == Blocks(after)
    ensures Trail(after) + after == [] || BlankLine((Trail(after) + after)[0])
  {
    NewlineIsBlank();
    if after == [] {
      assert [] + after == after;
    } else {
      BlankAlone(NEWLINE);
      BlocksConcat([NEWLINE], after);
    }
  }

  lemma BlockStands(block: Block, rest: seq<Line>)
    requires Solid(block) && (rest == [] || BlankLine(rest[0]))
    ensures Blocks(block + rest) == [block] + Blocks(rest)
  {
    OneBlock(block);
    BlocksConcat(block, rest);
  }

  /** A block put between lines, with a blank line where one is needed, is a block of its own. */
  lemma ChunkIsOneBlock(before: seq<Line>, block: Block, after: seq<Line>)
    requires Solid(block)
    ensures Blocks(before + (Lead(before) + block + Trail(after)) + after) == Blocks(before) + [block] + Blocks(after)
  {
    var head, tail := before + Lead(before), Trail(after) + after;
    LeadSeparates(before);
    TrailSeparates(after);
    BlockStands(block, tail);
    BlocksConcat(head, block + tail);
    Regroup(before, Lead(before), block, Trail(after), after);
    Associate(Blocks(before), [block], Blocks(after));
  }

  lemma Regroup<T>(a: seq<T>, b: seq<T>, c: seq<T>, d: seq<T>, e: seq<T>)
    ensures a + (b + c + d) + e == (a + b) + (c + (d + e))
  {
  }

  /** Inserting a block puts it between the blocks that were there and fuses or splits none of them. */
  lemma InsertAddsBlock(lines: seq<Line>, later: seq<Block>, block: Block)
    requires Solid(block)
    ensures Blocks(InsertAt(lines, later, block))
            == Splice(Blocks(lines), BlockIndex(Blocks(lines), later), [block])
  {
    LineIndexDivides(lines, later);
    var i := LineIndex(lines, later);
    var before, after := lines[..i], lines[i..];
    assert 0 < i ==> before[|before| - 1] == lines[i - 1];
    assert Chunk(lines, i, block) == Lead(before) + block + Trail(after);
    ChunkIsOneBlock(before, block, after);
  }

  // ---- The merge ----

  /** A block to insert, and the example's blocks behind it. */
  datatype Item = Item(block: Block, later: seq<Block>)

  function Merge(items: seq<Item>, lines: seq<Line>): seq<Line> {
    if items == [] then lines
    else InsertAt(Merge(items[..|items| - 1], lines), items[|items| - 1].later, items[|items| - 1].block)
  }

  predicate IsMissing(block: Block, existing: set<string>) {
    BlockKey(block).Some? && BlockKey(block).value !in existing
  }

  /** The missing ones among the example's first n blocks. */
  function Missing(example: seq<Block>, n: nat, existing: set<string>): seq<Item>
    requires n <= |example|
  {
    if n == 0 then []
    else Missing(example, n - 1, existing)
         + if IsMissing(example[n - 1], existing) then [Item(example[n - 1], example[n..])] else []
  }

  /** What the synchronisation writes. */
  ghost function Synced(exampleLines: seq<Line>, lines: seq<Line>): seq<Line> {
    Merge(Missing(Blocks(exampleLines), |Blocks(exampleLines)|, Keys(lines)), lines)
  }

  ghost predicate SolidItems(items: seq<Item>) {
    items == [] || (SolidItems(items[..|items| - 1]) && Solid(items[|items| - 1].block))
  }

  lemma {:induction false} MissingIsSolid(example: seq<Block>, n: nat, existing: set<string>)
    requires n <= |example| && AllSolid(example)
    ensures SolidItems(Missing(example, n, existing))
  {
    if n > 0 {
      MissingIsSolid(example, n - 1, existing);
      SolidAt(example, n - 1);
      SolidItemsSnoc(Missing(example, n - 1, existing), Item(example[n - 1], example[n..]));
    }
  }

  lemma SolidItemsSnoc(items: seq<Item>, item: Item)
    requires SolidItems(items) && Solid(item.block)
    ensures SolidItems(items + [item]) && SolidItems(items + [])
  {
    assert (items + [item])[..|items|] == items;
    assert items + [] == items;
  }

  // ---- What was inserted, line by line and block by block ----

  function Kept<T>(xs: seq<T>, marks: seq<bool>, which: bool): seq<T>
    requires |xs| == |marks|
  {
    if xs == [] then []
    else Kept(xs[..|xs| - 1], marks[..|xs| - 1], which)
         + if marks[|xs| - 1] == which then [xs[|xs| - 1]] else []
  }

  lemma {:induction false} KeptConcat<T>(a: seq<T>, b: seq<T>, ma: seq<bool>, mb: seq<bool>, which: bool)
    requires |a| == |ma| && |b| == |mb|
    ensures Kept(a + b, ma + mb, which) == Kept(a, ma, which) + Kept(b, mb, which)
  {
    if b == [] {
      assert a + b == a && ma + mb == ma;
    } else {
      var n := |b| - 1;
      assert (a + b)[..|a + b| - 1] == a + b[..n] && (ma + mb)[..|a + b| - 1] == ma + mb[..n];
      KeptConcat(a, b[..n], ma, mb[..n], which);
    }
  }

  function Same(n: nat, mark: bool): seq<bool> { seq(n, _ => mark) }

  lemma {:induction false} KeptAllOrNone<T>(xs: seq<T>, marks: seq<bool>, mark: bool, which: bool)
    requires |xs| == |marks| && forall i | 0 <= i < |marks| :: marks[i] == mark
    ensures Kept(xs, marks, which) == if mark == which then xs else []
  {
    if xs == [] {
    } else {
      var init, last := xs[..|xs| - 1], xs[|xs| - 1];
      KeptAllOrNone(init, marks[..|xs| - 1], mark, which);
      assert xs == init + [last];
    }
  }

  lemma KeptSame<T>(xs: seq<T>, mark: bool, which: bool)
    ensures Kept(xs, Same(|xs|, mark), which) == if mark == which then xs else []
  {
    KeptAllOrNone(xs, Same(|xs|, mark), mark, which);
  }

  lemma KeptThree<T>(a: seq<T>, b: seq<T>, c: seq<T>, ma: seq<bool>, mb: seq<bool>, mc: seq<bool>, which: bool)
    requires |a| == |ma| && |b| == |mb| && |c| == |mc|
    ensures Kept(a + b + c, ma + mb + mc, which) == Kept(a, ma, which) + Kept(b, mb, which) + Kept(c, mc, which)
  {
    KeptConcat(a, b, ma, mb, which);
    KeptConcat(a + b, c, ma + mb, mc, which);
  }

  lemma KeptParts<T>(xs: seq<T>, marks: seq<bool>, i: nat, which: bool)
    requires |xs| == |marks| && i <= |xs|
    ensures Kept(xs, marks, which) == Kept(xs[..i], marks[..i], which) + Kept(xs[i..], marks[i..], which)
  {
    KeptConcat(xs[..i], xs[i..], marks[..i], marks[i..], which);
    assert xs == xs[..i] + xs[i..] && marks == marks[..i] + marks[i..];
  }

  /** Splicing new elements in, marked as new. */
  lemma KeptSplice<T>(xs: seq<T>, marks: seq<bool>, i: nat, ys: seq<T>, trues: seq<bool>)
    requires |xs| == |marks| && i <= |xs| && trues == Same(|ys|, true)
    ensures Kept(Splice(xs, i, ys), Splice(marks, i, trues), false) == Kept(xs, marks, false)
    ensures multiset(Kept(Splice(xs, i, ys), Splice(marks, i, trues), true))
            == multiset(Kept(xs, marks, true)) + multiset(ys)
  {
    KeptSpliceOld(xs, marks, i, ys, trues);
    KeptSpliceNew(xs, marks, i, ys, trues);
  }

  lemma KeptSpliceOld<T>(xs: seq<T>, marks: seq<bool>, i: nat, ys: seq<T>, trues: seq<bool>)
    requires |xs| == |marks| && i <= |xs| && trues == Same(|ys|, true)
    ensures Kept(Splice(xs, i, ys), Splice(marks, i, trues), false) == Kept(xs, marks, false)
  {
    KeptThree(xs[..i], ys, xs[i..], marks[..i], trues, marks[i..], false);
    KeptParts(xs, marks, i, false);
    KeptSame(ys, true, false);
    assert Kept(xs[..i], marks[..i], false) + [] == Kept(xs[..i], marks[..i], false);
  }

  lemma KeptSpliceNew<T>(xs: seq<T>, marks: seq<bool>, i: nat, ys: seq<T>, trues: seq<bool>)
    requires |xs| == |marks| && i <= |xs| && trues == Same(|ys|, true)
    ensures multiset(Kept(Splice(xs, i, ys), Splice(marks, i, trues), true))
            == multiset(Kept(xs, marks, true)) + multiset(ys)
  {
    KeptThree(xs[..i], ys, xs[i..], marks[..i], trues, marks[i..], true);
    KeptParts(xs, marks, i, true);
    KeptSame(ys, true, true);
  }

  lemma InsertKeepsLines(merged: seq<Line>, marks: seq<bool>, later: seq<Block>, block: Block)
    returns (after: seq<bool>)
    requires |marks| == |merged|
    ensures |after| == |InsertAt(merged, later, block)|
    ensures Kept(InsertAt(merged, later, block), after, false) == Kept(merged, marks, false)
  {
    var i := LineIndex(merged, later);
    var chunk := Chunk(merged, i, block);
    after := Splice(marks, i, Same(|chunk|, true));
    KeptSpliceOld(merged, marks, i, chunk, Same(|chunk|, true));
  }

  /** The new lines can be marked so that deleting them gives the old file back, line by line. */
  lemma {:induction false} OldLinesRemain(items: seq<Item>, lines: seq<Line>) returns (marks: seq<bool>)
    ensures |marks| == |Merge(items, lines)|
    ensures Kept(Merge(items, lines), marks, false) == lines
  {
    if items == [] {
      marks := Same(|lines|, false);
      KeptSame(lines, false, false);
    } else {
      var rest, last := items[..|items| - 1], items[|items| - 1];
      marks := OldLinesRemain(rest, lines);
      marks := InsertKeepsLines(Merge(rest, lines), marks, last.later, last.block);
    }
  }

  function BlocksOf(items: seq<Item>): seq<Block> {
    seq(|items|, i requires 0 <= i < |items| => items[i].block)
  }

  lemma InsertKeepsBlocks(merged: seq<Line>, marks: seq<bool>, later: seq<Block>, block: Block)
    returns (after: seq<bool>)
    requires Solid(block) && |marks| == |Blocks(merged)|
    ensures |after| == |Blocks(InsertAt(merged, later, block))|
    ensures Kept(Blocks(InsertAt(merged, later, block)), after, false) == Kept(Blocks(merged), marks, false)
    ensures multiset(Kept(Blocks(InsertAt(merged, later, block)), after, true))
            == multiset(Kept(Blocks(merged), marks, true)) + multiset([block])
  {
    InsertAddsBlock(merged, later, block);
    assert Same(1, true) == [true];
    after := Splice(marks, BlockIndex(Blocks(merged), later), [true]);
    KeptSplice(Blocks(merged), marks, BlockIndex(Blocks(merged), later), [block], [true]);
  }

  /** The new blocks can be marked so that deleting them gives the old blocks back, in order and unchanged;
      and they are exactly the inserted blocks. */
  lemma {:induction false} OldBlocksRemain(items: seq<Item>, lines: seq<Line>) returns (marks: seq<bool>)
    requires SolidItems(items)
    ensures |marks| == |Blocks(Merge(items, lines))|
    ensures Kept(Blocks(Merge(items, lines)), marks, false) == Blocks(lines)
    ensures multiset(Kept(Blocks(Merge(items, lines)), marks, true)) == multiset(BlocksOf(items))
  {
    if items == [] {
      marks := Same(|Blocks(lines)|, false);
      KeptSame(Blocks(lines), false, false);
      KeptSame(Blocks(lines), false, true);
      assert BlocksOf(items) == [];
    } else {
      var rest, last := items[..|items| - 1], items[|items| - 1];
      marks := OldBlocksRemain(rest, lines);
      marks := InsertKeepsBlocks(Merge(rest, lines), marks, last.later, last.block);
      BlocksOfSnoc(items);
    }
  }

  lemma BlocksOfSnoc(items: seq<Item>)
    requires items != []
    ensures multiset(BlocksOf(items))
            == multiset(BlocksOf(items[..|items| - 1])) + multiset([items[|items| - 1].block])
  {
    assert BlocksOf(items) == BlocksOf(items[..|items| - 1]) + [items[|items| - 1].block];
  }

  /** Main result: the synchronisation only inserts. Without the new lines the old file is there, line by
      line; the blocks of the result are the old blocks, none fused or split, and the example's missing
      blocks between them. */
  lemma SyncOnlyInserts(exampleLines: seq<Line>, lines: seq<Line>) returns (newLines: seq<bool>, newBlocks: seq<bool>)
    ensures |newLines| == |Synced(exampleLines, lines)| && Kept(Synced(exampleLines, lines), newLines, false) == lines
    ensures var after, example := Blocks(Synced(exampleLines, lines)), Blocks(exampleLines);
      && |newBlocks| == |after| && Kept(after, newBlocks, false) == Blocks(lines)
      && multiset(Kept(after, newBlocks, true)) == multiset(BlocksOf(Missing(example, |example|, Keys(lines))))
  {
    var items := Missing(Blocks(exampleLines), |Blocks(exampleLines)|, Keys(lines));
    BlocksAreSolid(exampleLines);
    MissingIsSolid(Blocks(exampleLines), |Blocks(exampleLines)|, Keys(lines));
    newLines := OldLinesRemain(items, lines);
    newBlocks := OldBlocksRemain(items, lines);
  }

  // ---- Keys, placement, and a second synchronisation ----

  ghost predicate HasKey(lines: seq<Line>, key: string) {
    lines != [] && (KeyOf(lines[|lines| - 1]) == Some(key) || HasKey(lines[..|lines| - 1], key))
  }

  lemma {:induction false} KeysMeaning(lines: seq<Line>, key: string)
    ensures HasKey(lines, key) <==> key in Keys(lines)
  {
    if lines == [] {
    } else {
      KeysMeaning(lines[..|lines| - 1], key);
      assert lines == lines[..|lines| - 1] + [lines[|lines| - 1]];
    }
  }

  lemma {:induction false} HasKeyConcat(a: seq<Line>, b: seq<Line>, key: string)
    ensures HasKey(a + b, key) <==> HasKey(a, key) || HasKey(b, key)
  {
    if b == [] {
      assert a + b == a;
    } else {
      assert (a + b)[..|a + b| - 1] == a + b[..|b| - 1];
      HasKeyConcat(a, b[..|b| - 1], key);
    }
  }

  lemma SpliceHasKey(lines: seq<Line>, i: nat, chunk: seq<Line>, key: string)
    requires i <= |lines|
    ensures HasKey(Splice(lines, i, chunk), key) <==> HasKey(lines, key) || HasKey(chunk, key)
  {
    HasKeyConcat(lines[..i], chunk, key);
    HasKeyConcat(lines[..i] + chunk, lines[i..], key);
    HasKeyConcat(lines[..i], lines[i..], key);
    assert lines == lines[..i] + lines[i..];
  }

  lemma InsertKeepsKey(lines: seq<Line>, later: seq<Block>, block: Block, key: string)
    ensures HasKey(lines, key) || HasKey(block, key) ==> HasKey(InsertAt(lines, later, block), key)
  {
    var i := LineIndex(lines, later);
    ChunkHasKey(lines, i, block, key);
    SpliceHasKey(lines, i, Chunk(lines, i, block), key);
  }

  lemma ChunkHasKey(lines: seq<Line>, i: nat, block: Block, key: string)
    requires i <= |lines|
    ensures HasKey(block, key) ==> HasKey(Chunk(lines, i, block), key)
  {
    var pre: seq<Line> := if 0 < i && !BlankLine(lines[i - 1]) then [NEWLINE] else [];
    var post: seq<Line> := if i < |lines| && block != [] && !BlankLine(block[|block| - 1]) then [NEWLINE] else [];
    HasKeyConcat(pre, block, key);
    HasKeyConcat(pre + block, post, key);
  }

  lemma BlockHasKey(block: Block, key: string)
    ensures BlockKey(block) == Some(key) ==> HasKey(block, key)
  {
    if BlockKey(block) == Some(key) {
      KeyIsClean(block);
      var line :| line in block && KeyOf(line) == BlockKey(block);
      KeysMeaning(block, key);
    }
  }

  lemma {:induction false} MergeKeepsKey(items: seq<Item>, lines: seq<Line>, key: string)
    requires HasKey(lines, key) || exists i :: 0 <= i < |items| && HasKey(items[i].block, key)
    ensures HasKey(Merge(items, lines), key)
  {
    if items == [] {
    } else {
      var rest, last := items[..|items| - 1], items[|items| - 1];
      if !HasKey(last.block, key) {
        assert HasKey(lines, key) || exists i :: 0 <= i < |rest| && HasKey(rest[i].block, key) by {
          if !HasKey(lines, key) {
            var i :| 0 <= i < |items| && HasKey(items[i].block, key);
            assert rest[i] == items[i];
          }
        }
        MergeKeepsKey(rest, lines, key);
      }
      InsertKeepsKey(Merge(rest, lines), last.later, last.block, key);
    }
  }

  lemma {:induction false} MissingHas(example: seq<Block>, n: nat, existing: set<string>, k: nat) returns (i: nat)
    requires k < n <= |example| && IsMissing(example[k], existing)
    ensures i < |Missing(example, n, existing)| && Missing(example, n, existing)[i].block == example[k]
  {
    if k == n - 1 {
      i := |Missing(example, n - 1, existing)|;
    } else {
      i := MissingHas(example, n - 1, existing, k);
    }
  }

  lemma {:induction false} NoneMissing(example: seq<Block>, n: nat, existing: set<string>)
    requires n <= |example| && forall j | 0 <= j < n :: !IsMissing(example[j], existing)
    ensures Missing(example, n, existing) == []
  {
    if n > 0 {
      NoneMissing(example, n - 1, existing);
    }
  }

  /** Main result: afterwards every block of the example has its first key assigned in the file. */
  lemma AllKeysPresent(exampleLines: seq<Line>, lines: seq<Line>, k: nat)
    requires k < |Blocks(exampleLines)| && BlockKey(Blocks(exampleLines)[k]).Some?
    ensures HasKey(Synced(exampleLines, lines), BlockKey(Blocks(exampleLines)[k]).value)
  {
    var example, key := Blocks(exampleLines), BlockKey(Blocks(exampleLines)[k]).value;
    KeysMeaning(lines, key);
    if IsMissing(example[k], Keys(lines)) {
      var i := MissingHas(example, |example|, Keys(lines), k);
      BlockHasKey(example[k], key);
    }
    MergeKeepsKey(Missing(example, |example|, Keys(lines)), lines, key);
  }

  /** Main result: a second synchronisation changes nothing. */
  lemma SyncIsIdempotent(exampleLines: seq<Line>, lines: seq<Line>)
    ensures Synced(exampleLines, Synced(exampleLines, lines)) == Synced(exampleLines, lines)
  {
    var example := Blocks(exampleLines);
    var merged := Synced(exampleLines, lines);
    forall j | 0 <= j < |example| ensures !IsMissing(example[j], Keys(merged)) {
      if BlockKey(example[j]).Some? {
        AllKeysPresent(exampleLines, lines, j);
        KeysMeaning(merged, BlockKey(example[j]).value);
      }
    }
    NoneMissing(example, |example|, Keys(merged));
  }

  /** Where a block goes: directly before the first block with the anchor of the next example block that the
      file knows; at the end when it knows none of the later ones. */
  lemma {:induction false} PlacedBeforeNextKnown(anchors: seq<Anchor>, later: seq<Anchor>)
    ensures var k := PlaceIn(anchors, later);
      if k == |anchors| then forall i | 0 <= i < |later| :: later[i].Some? ==> later[i] !in anchors
      else exists i :: 0 <= i < |later| && later[i].Some? && later[i] == anchors[k] && later[i] !in anchors[..k]
             && forall h | 0 <= h < i :: later[h].Some? ==> later[h] !in anchors
  {
    if later == [] {
    } else {
      var k := PlaceIn(anchors, later);
      if later[0].Some? && FirstWith(anchors, later[0]) < |anchors| {
        assert later[0] == anchors[k] && later[0] !in anchors[..k];
      } else {
        var rest := later[1..];
        PlacedBeforeNextKnown(anchors, rest);
        if k < |anchors| {
          var i :| 0 <= i < |rest| && rest[i].Some? && rest[i] == anchors[k] && rest[i] !in anchors[..k]
             && forall h | 0 <= h < i :: rest[h].Some? ==> rest[h] !in anchors;
          assert later[i + 1] == rest[i];
          assert forall h | 1 <= h < i + 1 :: later[h] == rest[h - 1];
        } else {
          assert forall h | 1 <= h < |later| :: later[h] == rest[h - 1];
        }
      }
    }
  }

  // ---- The loops ----

  method FindEnvBlockStart(lines: seq<Line>, key: string) returns (found: Option<nat>)
    ensures var k := FirstWith(Anchors(Blocks(lines)), Some(key));
      found == if k < |Starts(lines)| then Some(Starts(lines)[k]) else None
  {
    var blocks := SplitEnvBlocks(lines);
    var i := FindIn(blocks, Anchors(Blocks(lines)), key);
    found := if i < |blocks| then Some(blocks[i].0) else None;
  }

  method FindIn(blocks: seq<(nat, Block)>, ghost anchors: seq<Anchor>, key: string) returns (i: nat)
    requires |blocks| == |anchors| && forall k | 0 <= k < |blocks| :: BlockAnchor(blocks[k].1) == anchors[k]
    ensures i == FirstWith(anchors, Some(key))
  {
    i := 0;
    while i < |blocks| && BlockAnchor(blocks[i].1) != Some(key)
      invariant 0 <= i <= |blocks|
      invariant forall h | 0 <= h < i :: anchors[h] != Some(key)
    {
      i := i + 1;
    }
    FirstIs(anchors, Some(key), i);
  }

  lemma FirstIs(anchors: seq<Anchor>, anchor: Anchor, k: nat)
    requires k <= |anchors| && forall h | 0 <= h < k :: anchors[h] != anchor
    requires k < |anchors| ==> anchors[k] == anchor
    ensures FirstWith(anchors, anchor) == k
  {
  }

  method FindAnchor(lines: seq<Line>, later: seq<Block>) returns (anchorIndex: nat)
    ensures anchorIndex == LineIndex(lines, later)
  {
    anchorIndex := |lines|;
    BlocksAndStarts(lines);
    ghost var anchors, wanted := Anchors(Blocks(lines)), Anchors(later);
    var i := 0;
    assert wanted[0..] == wanted;
    while i < |later|
      invariant 0 <= i <= |later|
      invariant PlaceIn(anchors, wanted) == PlaceIn(anchors, wanted[i..])
    {
      assert wanted[i..][0] == wanted[i] && wanted[i..][1..] == wanted[i + 1..];
      var nextKey := BlockAnchor(later[i]);
      if nextKey.Some? {
        var found := FindEnvBlockStart(lines, nextKey.value);
        if found.Some? {
          return found.value;
        }
      }
      i := i + 1;
    }
  }

  /** Returns the new lines. */
  method SyncEnvMissingItems(exampleLines: seq<Line>, envLines: seq<Line>) returns (updatedLines: seq<Line>)
    ensures updatedLines == Synced(exampleLines, envLines)
  {
    var exampleBlocks := Contents(exampleLines);
    var existingKeys := CollectKeys(envLines);
    var missingBlocks := FindMissing(exampleBlocks, existingKeys);
    updatedLines := InsertMissing(missingBlocks, envLines);
  }

  method Contents(lines: seq<Line>) returns (contents: seq<Block>)
    ensures contents == Blocks(lines)
  {
    var blocks := SplitEnvBlocks(lines);
    contents := seq(|blocks|, k requires 0 <= k < |blocks| => blocks[k].1);
  }

  method CollectKeys(lines: seq<Line>) returns (keys: set<string>)
    ensures keys == Keys(lines)
  {
    keys := {};
    var i := 0;
    while i < |lines|
      invariant 0 <= i <= |lines| && keys == Keys(lines[..i])
    {
      assert lines[..i + 1] == lines[..i] + [lines[i]];
      var key := KeyOf(lines[i]);
      if key.Some? {
        keys := keys + {key.value};
      }
      i := i + 1;
    }
    assert lines[..i] == lines;
  }

  method FindMissing(exampleBlocks: seq<Block>, existing: set<string>) returns (missing: seq<Item>)
    ensures missing == Missing(exampleBlocks, |exampleBlocks|, existing)
  {
    missing := [];
    var i := 0;
    while i < |exampleBlocks|
      invariant 0 <= i <= |exampleBlocks| && missing == Missing(exampleBlocks, i, existing)
    {
      var key := BlockKey(exampleBlocks[i]);
      if key.Some? && key.value !in existing {
        missing := missing + [Item(exampleBlocks[i], exampleBlocks[i + 1..])];
      }
      i := i + 1;
    }
  }

  method InsertMissing(missing: seq<Item>, envLines: seq<Line>) returns (updatedLines: seq<Line>)
    ensures updatedLines == Merge(missing, envLines)
  {
    updatedLines := envLines;
    var m := 0;
    while m < |missing|
      invariant 0 <= m <= |missing|
      invariant updatedLines == Merge(missing[..m], envLines)
    {
      assert missing[..m + 1][..m] == missing[..m];
      var anchorIndex := FindAnchor(updatedLines, missing[m].later);
      updatedLines := InsertBefore(updatedLines, anchorIndex, missing[m].block);
      m := m + 1;
    }
    assert missing[..m] == missing;
  }
}
