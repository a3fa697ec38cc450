/** Lines and blocks of an environment file (bocchi/cli.py:30-80). A block is a maximal run of lines that
    are not blank. */
module EnvLines {
  import opened Common
  import opened Text

  type Line = string

  type Block = seq<Line>

  // ---- Keys ----

  function Before(text: string, c: char): string {
    if text == "" || text[0] == c then "" else [text[0]] + Before(text[1..], c)
  }

  function WithoutUnderscores(text: string): string {
    if text == "" then ""
    else if text[0] == '_' then WithoutUnderscores(text[1..])
    else [text[0]] + WithoutUnderscores(text[1..])
  }

  /** str.isalnum for one ASCII character. */
  predicate IsAlnumChar(c: char) { '0' <= c <= '9' || 'A' <= c <= 'Z' || 'a' <= c <= 'z' }

  predicate IsAlnum(text: string) { text != "" && forall i | 0 <= i < |text| :: IsAlnumChar(text[i]) }

  function AssignmentKey(line: Line, includeCommented: bool): Option<string> {
    var stripped := Trim(line);
    KeyOfText(if includeCommented && stripped != "" && stripped[0] == '#' then TrimFront(stripped[1..]) else stripped)
  }

  function KeyOfText(stripped: string): Option<string> {
    if stripped == "" || stripped[0] == '#' || '=' !in stripped then None
    else
      var key := Trim(Before(stripped, '='));
      if IsAlnum(WithoutUnderscores(key)) then Some(key) else None
  }

  /** The key a line assigns, and the key it assigns or would assign without its comment sign. */
  function KeyOf(line: Line): Option<string> { AssignmentKey(line, false) }

  function AnchorOf(line: Line): Option<string> { AssignmentKey(line, true) }

  function BlockKey(block: Block): Option<string> {
    if block == [] then None
    else if KeyOf(block[0]).Some? then KeyOf(block[0])
    else BlockKey(block[1..])
  }

  function BlockAnchor(block: Block): Option<string> {
    if block == [] then None
    else if AnchorOf(block[0]).Some? then AnchorOf(block[0])
    else BlockAnchor(block[1..])
  }

  // ---- Which lines have a key ----

  /** A letter, a digit or an underscore, as far as ASCII goes. */
  predicate KeyChar(c: char) { '0' <= c <= '9' || 'A' <= c <= 'Z' || 'a' <= c <= 'z' || c == '_' }

  lemma {:induction false} WithoutUnderscoresHas(text: string, c: char)
    ensures c in WithoutUnderscores(text) <==> c in text && c != '_'
  {
    if text == "" {
    } else {
      WithoutUnderscoresHas(text[1..], c);
      assert text == [text[0]] + text[1..];
    }
  }

  /** A key may be anything but underscores alone that is made of such characters. */
  lemma KeyIsValidIff(key: string)
    ensures IsAlnum(WithoutUnderscores(key)) <==>
            (forall c | c in key :: KeyChar(c)) && exists c :: c in key && c != '_'
  {
    var rest := WithoutUnderscores(key);
    forall c ensures c in rest <==> c in key && c != '_' {
      WithoutUnderscoresHas(key, c);
    }
    if IsAlnum(rest) {
      assert rest[0] in key && rest[0] != '_';
      forall c | c in key ensures KeyChar(c) {
        if c != '_' {
          assert c in rest;
        }
      }
    }
    if (forall c | c in key :: KeyChar(c)) && exists c :: c in key && c != '_' {
      var c :| c in key && c != '_';
      assert c in rest;
      forall i | 0 <= i < |rest| ensures IsAlnumChar(rest[i]) {
        assert rest[i] in rest;
      }
    }
  }

  lemma {:induction false} BeforeIs(text: string, c: char)
    requires c in text
    ensures |Before(text, c)| < |text| && text[|Before(text, c)|] == c && c !in Before(text, c)
    ensures text == Before(text, c) + [c] + text[|Before(text, c)| + 1..]
  {
    if text[0] != c {
      BeforeIs(text[1..], c);
      assert text == [text[0]] + text[1..];
    }
  }

  lemma {:induction false} BeforeFirst(front: string, c: char, rest: string)
    requires c !in front
    ensures Before(front + [c] + rest, c) == front
  {
    if front == "" {
      assert front + [c] + rest == [c] + rest;
    } else {
      BeforeFirst(front[1..], c, rest);
      assert (front + [c] + rest)[1..] == front[1..] + [c] + rest;
      assert front == [front[0]] + front[1..];
    }
  }

  /** Main result: a line has a key exactly when, without white space at its ends, it is no comment and has an equals
      sign, and the key is what is before the first one, without white space at its ends, and valid. */
  lemma KeyOfIff(line: Line, key: string)
    ensures KeyOf(line) == Some(key) <==>
            exists front, rest ::
              && Trim(line) == front + "=" + rest && '=' !in front && Trim(line)[0] != '#'
              && key == Trim(front) && (forall c | c in key :: KeyChar(c)) && exists c :: c in key && c != '_'
  {
    var stripped := Trim(line);
    KeyIsValidIff(key);
    if KeyOf(line) == Some(key) {
      BeforeIs(stripped, '=');
      var front := Before(stripped, '=');
      assert stripped == front + "=" + stripped[|front| + 1..];
    }
    if front, rest :| && stripped == front + "=" + rest && '=' !in front && stripped[0] != '#'
                      && key == Trim(front) && (forall c | c in key :: KeyChar(c)) && exists c :: c in key && c != '_' {
      BeforeFirst(front, '=', rest);
      assert stripped[|front|] == '=';
    }
  }

  lemma {:induction false} TrimBackFront(text: string)
    ensures TrimFront(TrimBack(text)) == TrimBack(TrimFront(text))
    decreases |text|
  {
    if text == "" {
    } else if IsSpace(text[0]) {
      TrimBackFront(text[1..]);
      TrimBackSkips(text);
    } else {
      TrimBackBlank(text);
      assert TrimFront(text) == text;
    }
  }

  /** Trimming the end of a text that begins with white space. */
  lemma {:induction false} TrimBackSkips(text: string)
    requires text != "" && IsSpace(text[0])
    ensures TrimFront(TrimBack(text)) == TrimFront(TrimBack(text[1..]))
    decreases |text|
  {
    if IsSpace(text[|text| - 1]) && |text| > 1 {
      TrimBackSkips(text[..|text| - 1]);
      assert text[..|text| - 1][1..] == text[1..][..|text| - 2];
    } else if |text| == 1 {
      assert text[..0] == "" && text[1..] == "";
    } else {
      assert TrimBack(text) == text && TrimBack(text[1..]) == text[1..];
    }
  }

  lemma {:induction false} SignStays(text: string)
    ensures Trim("#" + text) == "#" + TrimBack(text)
    decreases |text|
  {
    var all := "#" + text;
    assert TrimFront(all) == all;
    if text != "" && IsSpace(text[|text| - 1]) {
      SignStays(text[..|text| - 1]);
      assert all[..|all| - 1] == "#" + text[..|text| - 1];
      assert TrimFront("#" + text[..|text| - 1]) == "#" + text[..|text| - 1];
    }
  }

  /** Main result: behind one comment sign a line has the anchor that it has as key without the sign; and a line that
      is no comment has its key as anchor. */
  lemma AnchorOfIs(text: string, line: Line)
    ensures AnchorOf("#" + text) == KeyOf(text)
    ensures Trim(line) == "" || Trim(line)[0] != '#' ==> AnchorOf(line) == KeyOf(line)
  {
    SignStays(text);
    TrimBackFront(text);
    assert ("#" + TrimBack(text))[1..] == TrimBack(text);
  }

  /** A line that assigns a key is also an anchor for it. */
  lemma KeyIsAnchor(line: Line)
    ensures KeyOf(line).Some? ==> AnchorOf(line) == KeyOf(line)
  {
  }

  lemma {:induction false} KeyIsClean(block: Block)
    ensures BlockKey(block).Some? ==> BlockKey(block).value != "" && BlockAnchor(block).Some?
    ensures BlockKey(block).Some? ==> exists line :: line in block && KeyOf(line) == BlockKey(block)
  {
    if block == [] {
    } else {
      KeyIsAnchor(block[0]);
      KeyIsClean(block[1..]);
      if KeyOf(block[0]).Some? {
        KeyNotEmpty(block[0]);
        assert block[0] in block && KeyOf(block[0]) == BlockKey(block);
      } else if BlockKey(block).Some? {
        var line :| line in block[1..] && KeyOf(line) == BlockKey(block[1..]);
        assert line in block && KeyOf(line) == BlockKey(block);
      }
    }
  }

  /** The key of a block is that of its first line that assigns one; its anchor that of its first line that does so, or
      would without its comment sign. */
  lemma {:induction false} BlockKeyIsFirst(block: Block) returns (i: nat, j: nat)
    ensures i <= |block| && forall h | 0 <= h < i :: KeyOf(block[h]) == None
    ensures BlockKey(block) == if i < |block| then KeyOf(block[i]) else None
    ensures i < |block| ==> KeyOf(block[i]).Some?
    ensures j <= |block| && forall h | 0 <= h < j :: AnchorOf(block[h]) == None
    ensures BlockAnchor(block) == if j < |block| then AnchorOf(block[j]) else None
    ensures j < |block| ==> AnchorOf(block[j]).Some?
  {
    if block == [] {
      i, j := 0, 0;
    } else {
      var later, laterAnchor := BlockKeyIsFirst(block[1..]);
      i := if KeyOf(block[0]).Some? then 0 else later + 1;
      j := if AnchorOf(block[0]).Some? then 0 else laterAnchor + 1;
      assert forall h | 1 <= h < |block| :: block[h] == block[1..][h - 1];
    }
  }

  lemma KeyNotEmpty(line: Line)
    ensures KeyOf(line).Some? ==> KeyOf(line).value != ""
  {
  }

  predicate NameChar(c: char) { IsAlnumChar(c) || c == '_' }

  predicate IsName(name: string) {
    IsAlnum(WithoutUnderscores(name)) && forall i | 0 <= i < |name| :: NameChar(name[i])
  }

  lemma NameReadsBack(name: string, rest: string)
    requires IsName(name)
    ensures KeyOfText(name + "=" + rest) == Some(name)
    ensures name != "" && (name + "=" + rest)[0] == name[0] && !IsSpace(name[0])
  {
    assert WithoutUnderscores("") == "";
    assert NameChar(name[0]);
    BeforeSign(name, rest);
    TrimName(name);
    assert (name + "=" + rest)[|name|] == '=';
  }

  /** An assignment to a name reads back as that name. */
  lemma AssignmentReadsBack(name: string, value: string)
    requires IsName(name)
    ensures KeyOf(name + "=" + value) == Some(name)
  {
    NameReadsBack(name, value);
    TrimKeepsHead(name + "=", value);
    var trimmed := Trim(name + "=" + value);
    assert trimmed == name + "=" + trimmed[|name| + 1..];
    NameReadsBack(name, trimmed[|name| + 1..]);
  }

  /** A commented assignment is an anchor for its name but assigns nothing. */
  lemma CommentReadsBack(name: string, value: string)
    requires IsName(name)
    ensures AnchorOf("# " + name + "=" + value) == Some(name) && KeyOf("# " + name + "=" + value) == None
  {
    var head := "# " + name + "=";
    TrimKeepsHead(head, value);
    var trimmed := Trim(head + value);
    var tail := trimmed[|head|..];
    assert trimmed == head + tail;
    NameReadsBack(name, tail);
    var rest := name + "=" + tail;
    assert trimmed[1..] == " " + rest && (" " + rest)[1..] == rest;
    assert TrimFront(rest) == rest;
    assert TrimFront(" " + rest) == rest;
  }

  /** Trimming keeps a beginning that neither starts nor ends with a space. */
  lemma {:induction false} TrimKeepsHead(head: string, value: string)
    requires head != "" && !IsSpace(head[0]) && !IsSpace(head[|head| - 1])
    ensures |head| <= |Trim(head + value)| && Trim(head + value)[..|head|] == head
    decreases |value|
  {
    assert TrimFront(head + value) == head + value;
    if value == "" {
      assert head + value == head;
    } else if IsSpace(value[|value| - 1]) {
      assert (head + value)[..|head + value| - 1] == head + value[..|value| - 1];
      TrimKeepsHead(head, value[..|value| - 1]);
    }
  }

  lemma {:induction false} BeforeSign(name: string, rest: string)
    requires forall i | 0 <= i < |name| :: NameChar(name[i])
    ensures Before(name + "=" + rest, '=') == name
  {
    if name == "" {
      assert name + "=" + rest == "=" + rest;
    } else {
      BeforeSign(name[1..], rest);
      assert (name + "=" + rest)[1..] == name[1..] + "=" + rest;
      assert name == [name[0]] + name[1..];
    }
  }

  lemma TrimName(name: string)
    requires name != "" && forall i | 0 <= i < |name| :: NameChar(name[i])
    ensures Trim(name) == name
  {
  }

  // ---- Blocks ----

  predicate BlankLine(line: Line) { Trim(line) == "" }

  /** A block may begin after these lines. */
  predicate AtBoundary(lines: seq<Line>) { lines == [] || BlankLine(lines[|lines| - 1]) }

  /** The blocks of a file, one line after the other: a line that is not blank opens a block after a blank
      line and joins the last block otherwise. */
  function Blocks(lines: seq<Line>): seq<Block> {
    if lines == [] then []
    else
      var init, last := lines[..|lines| - 1], lines[|lines| - 1];
      WithLine(Blocks(init), last, AtBoundary(init))
  }

  function WithLine(blocks: seq<Block>, line: Line, opens: bool): seq<Block> {
    if BlankLine(line) then blocks
    else if opens || blocks == [] then blocks + [[line]]
    else blocks[..|blocks| - 1] + [blocks[|blocks| - 1] + [line]]
  }

  lemma WithLineConcat(a: seq<Block>, b: seq<Block>, line: Line, opens: bool)
    requires opens || b != [] || BlankLine(line)
    ensures WithLine(a + b, line, opens) == a + WithLine(b, line, opens)
  {
  }

  /** Where the blocks begin. */
  function Starts(lines: seq<Line>): seq<nat> {
    if lines == [] then []
    else
      var init, last := lines[..|lines| - 1], lines[|lines| - 1];
      Starts(init) + if !BlankLine(last) && AtBoundary(init) then [|init|] else []
  }

  lemma {:induction false} BlocksAndStarts(lines: seq<Line>)
    ensures |Blocks(lines)| == |Starts(lines)|
    ensures lines != [] && !BlankLine(lines[|lines| - 1]) ==> Blocks(lines) != []
  {
    if lines == [] {
    } else {
      BlocksAndStarts(lines[..|lines| - 1]);
    }
  }

  /** No block is fused or split when files are put together at a blank line. */
  lemma {:induction false} BlocksConcat(a: seq<Line>, b: seq<Line>)
    requires AtBoundary(a) || b == [] || BlankLine(b[0])
    ensures Blocks(a + b) == Blocks(a) + Blocks(b)
    decreases |b|
  {
    if b == [] {
      assert a + b == a;
    } else {
      var init, last := b[..|b| - 1], b[|b| - 1];
      assert (a + b)[..|a + b| - 1] == a + init;
      BlocksConcat(a, init);
      BlocksAndStarts(init);
      if init == [] {
        assert a + init == a;
      } else {
        assert (a + init)[|a + init| - 1] == init[|init| - 1];
      }
      WithLineConcat(Blocks(a), Blocks(init), last, AtBoundary(a + init));
    }
  }

  lemma ConcatParts(a: seq<Line>, b: seq<Line>)
    requires AtBoundary(a)
    ensures |Blocks(a)| <= |Blocks(a + b)|
    ensures Blocks(a) == Blocks(a + b)[..|Blocks(a)|] && Blocks(b) == Blocks(a + b)[|Blocks(a)|..]
  {
    BlocksConcat(a, b);
  }

  /** A block's start is a boundary, the block begins there, and the blocks before it lie before. */
  lemma StartSplits(lines: seq<Line>, k: nat) returns (s: nat)
    requires k < |Starts(lines)|
    ensures s == Starts(lines)[k] && s < |lines| && AtBoundary(lines[..s])
    ensures k <= |Blocks(lines)| && Blocks(lines[..s]) == Blocks(lines)[..k] && Blocks(lines[s..]) == Blocks(lines)[k..]
  {
    s := StartSplitsBefore(lines, k);
    var a, b := lines[..s], lines[s..];
    assert a + b == lines;
    ConcatParts(a, b);
  }

  lemma {:induction false} StartSplitsBefore(lines: seq<Line>, k: nat) returns (s: nat)
    requires k < |Starts(lines)|
    ensures s == Starts(lines)[k] && s < |lines| && AtBoundary(lines[..s]) && |Blocks(lines[..s])| == k
  {
    var init := lines[..|lines| - 1];
    if k < |Starts(init)| {
      s := StartSplitsBefore(init, k);
      assert lines[..s] == init[..s];
    } else {
      BlocksAndStarts(init);
      s := |init|;
    }
  }

  /** Lines, none of them blank. */
  ghost predicate Solid(block: Block) {
    block != [] && !BlankLine(block[|block| - 1]) && (|block| == 1 || Solid(block[..|block| - 1]))
  }

  ghost predicate AllSolid(blocks: seq<Block>) {
    blocks == [] || (AllSolid(blocks[..|blocks| - 1]) && Solid(blocks[|blocks| - 1]))
  }

  lemma {:induction false} SolidAt(blocks: seq<Block>, i: nat)
    requires AllSolid(blocks) && i < |blocks|
    ensures Solid(blocks[i]) && blocks[i] != []
  {
    if i < |blocks| - 1 {
      SolidAt(blocks[..|blocks| - 1], i);
    }
  }

  lemma {:induction false} OneBlock(block: Block)
    requires Solid(block)
    ensures Blocks(block) == [block]
  {
    var init := block[..|block| - 1];
    assert block == init + [block[|block| - 1]];
    if init != [] {
      OneBlock(init);
      assert [init][..0] == [];
    } else {
      assert block == [block[0]];
    }
  }

  lemma WithLineIsSolid(blocks: seq<Block>, line: Line, opens: bool)
    requires AllSolid(blocks)
    ensures AllSolid(WithLine(blocks, line, opens))
  {
  }

  lemma {:induction false} BlocksAreSolid(lines: seq<Line>)
    ensures AllSolid(Blocks(lines))
  {
    if lines == [] {
    } else {
      BlocksAreSolid(lines[..|lines| - 1]);
      WithLineIsSolid(Blocks(lines[..|lines| - 1]), lines[|lines| - 1], AtBoundary(lines[..|lines| - 1]));
    }
  }

  ghost predicate InBlocks(blocks: seq<Block>, line: Line) {
    exists k :: 0 <= k < |blocks| && line in blocks[k]
  }

  /** The blocks hold exactly the lines that are not blank. */
  lemma {:induction false} BlocksHaveLines(lines: seq<Line>, line: Line)
    requires !BlankLine(line)
    ensures line in lines <==> InBlocks(Blocks(lines), line)
  {
    if lines == [] {
    } else {
      var init, last := lines[..|lines| - 1], lines[|lines| - 1];
      assert lines == init + [last];
      BlocksHaveLines(init, line);
      WithLineMembers(Blocks(init), last, AtBoundary(init), line);
    }
  }

  lemma WithLineMembers(blocks: seq<Block>, last: Line, opens: bool, line: Line)
    requires !BlankLine(line)
    ensures InBlocks(WithLine(blocks, last, opens), line) <==> line == last || InBlocks(blocks, line)
  {
    var after := WithLine(blocks, last, opens);
    if InBlocks(blocks, line) {
      var k :| 0 <= k < |blocks| && line in blocks[k];
      assert line in after[k];
    }
    if line == last {
      assert line in after[|after| - 1];
    }
  }

  lemma BlocksStep(lines: seq<Line>, i: nat)
    requires i < |lines|
    ensures Blocks(lines[..i + 1]) == WithLine(Blocks(lines[..i]), lines[i], AtBoundary(lines[..i]))
    ensures Starts(lines[..i + 1])
            == Starts(lines[..i]) + if !BlankLine(lines[i]) && AtBoundary(lines[..i]) then [i] else []
    ensures AtBoundary(lines[..i + 1]) <==> BlankLine(lines[i])
  {
    assert lines[..i + 1][..i] == lines[..i];
  }

  /** The finished blocks and the one being read, against all blocks and starts so far. */
  ghost predicate Scanned(blocks: seq<(nat, Block)>, current: Block, startIndex: nat,
                          bs: seq<Block>, starts: seq<nat>)
  {
    && |starts| == |bs| == |blocks| + (if current == [] then 0 else 1)
    && (forall k | 0 <= k < |blocks| :: blocks[k] == (starts[k], bs[k]))
    && (current != [] ==> current == bs[|blocks|] && startIndex == starts[|blocks|])
  }

  lemma BlankScanned(blocks: seq<(nat, Block)>, current: Block, startIndex: nat, bs: seq<Block>, starts: seq<nat>)
    requires current != [] && Scanned(blocks, current, startIndex, bs, starts)
    ensures Scanned(blocks + [(startIndex, current)], [], startIndex, bs, starts)
  {
  }

  lemma LineScanned(blocks: seq<(nat, Block)>, current: Block, startIndex: nat,
                    bs: seq<Block>, starts: seq<nat>, line: Line, index: nat)
    requires Scanned(blocks, current, startIndex, bs, starts) && !BlankLine(line)
    ensures Scanned(blocks, current + [line], if current == [] then index else startIndex,
                    WithLine(bs, line, current == []), starts + if current == [] then [index] else [])
  {
    if current != [] {
      assert |starts| == |bs| == |blocks| + 1;
      assert WithLine(bs, line, false) == bs[..|blocks|] + [current + [line]];
    }
  }

  lemma BlocksOfMore(before: seq<Line>, line: Line)
    ensures Blocks(before + [line]) == WithLine(Blocks(before), line, AtBoundary(before))
    ensures Starts(before + [line])
            == Starts(before) + if !BlankLine(line) && AtBoundary(before) then [|before|] else []
    ensures AtBoundary(before + [line]) <==> BlankLine(line)
  {
    var lines := before + [line];
    assert lines[..|before| + 1] == lines && lines[..|before|] == before;
    BlocksStep(lines, |before|);
  }

  /** What the loop holds after it has read these lines. */
  ghost predicate HasRead(read: seq<Line>, blocks: seq<(nat, Block)>, current: Block, startIndex: nat) {
    (current == [] <==> AtBoundary(read)) && Scanned(blocks, current, startIndex, Blocks(read), Starts(read))
  }

  lemma ReadText(read: seq<Line>, line: Line, blocks: seq<(nat, Block)>, current: Block, startIndex: nat)
    requires HasRead(read, blocks, current, startIndex) && !BlankLine(line)
    ensures HasRead(read + [line], blocks, current + [line], if current == [] then |read| else startIndex)
  {
    BlocksOfMore(read, line);
    LineScanned(blocks, current, startIndex, Blocks(read), Starts(read), line, |read|);
  }

  lemma ReadBlank(read: seq<Line>, line: Line, blocks: seq<(nat, Block)>, current: Block, startIndex: nat)
    requires HasRead(read, blocks, current, startIndex) && BlankLine(line)
    ensures current == [] ==> HasRead(read + [line], blocks, [], startIndex)
    ensures current != [] ==> HasRead(read + [line], blocks + [(startIndex, current)], [], startIndex)
  {
    BlocksOfMore(read, line);
    if current != [] {
      BlankScanned(blocks, current, startIndex, Blocks(read), Starts(read));
    }
  }

  /** The blocks with their starts. */
  ghost predicate Numbered(lines: seq<Line>, blocks: seq<(nat, Block)>) {
    && |blocks| == |Blocks(lines)| == |Starts(lines)|
    && forall k | 0 <= k < |blocks| :: blocks[k] == (Starts(lines)[k], Blocks(lines)[k])
  }

  lemma AllRead(lines: seq<Line>, blocks: seq<(nat, Block)>, current: Block, startIndex: nat)
    requires HasRead(lines, blocks, current, startIndex)
    ensures current == [] ==> Numbered(lines, blocks)
    ensures current != [] ==> Numbered(lines, blocks + [(startIndex, current)])
  {
    if current != [] {
      BlankScanned(blocks, current, startIndex, Blocks(lines), Starts(lines));
    }
  }

  /** The loop over the lines. */
  method SplitEnvBlocks(lines: seq<Line>) returns (blocks: seq<(nat, Block)>)
    ensures Numbered(lines, blocks)
  {
    blocks := [];
    var current: Block, startIndex := [], 0;
    ghost var read := [];
    var index := 0;
    while index < |lines|
      invariant 0 <= index <= |lines| && 0 <= startIndex && read == lines[..index]
      invariant HasRead(read, blocks, current, startIndex)
    {
      var line := lines[index];
      if Trim(line) != "" {
        ReadText(read, line, blocks, current, startIndex);
        if current == [] {
          startIndex := index;
        }
        current := current + [line];
      } else {
        ReadBlank(read, line, blocks, current, startIndex);
        if current != [] {
          blocks := blocks + [(startIndex, current)];
          current := [];
        }
      }
      read := read + [line];
      index := index + 1;
    }
    assert read == lines;
    AllRead(lines, blocks, current, startIndex);
    if current != [] {
      blocks := blocks + [(startIndex, current)];
    }
  }
}
