/** When the available and the blocked names of a bot stay apart whatever is asked for: exactly when the stored
    names are clean (bocchi/models/bot_console.py:187-240, 346-418). */
module StoredNames {
  import opened Common
  import opened Text
  import opened Markers
  import opened BotConsole

  /** Read back, the strings partition these names. */
  ghost predicate ReadsAsPartition(f: Fields, all: set<Name>) {
    Partition(Lists(Parse(BotReader, f.available), Parse(BotReader, f.blocked)), all)
  }

  /** What reading back makes of names without '<'. */
  function Stripped(names: seq<Name>): seq<Name> {
    if names == [] then [] else [StripCommas(names[0] + ",")] + Stripped(names[1..])
  }

  lemma {:induction false} PiecesStripped(names: seq<Name>)
    ensures ParsePieces(BotReader, Pieces(names)) == Stripped(names)
  {
    if names == [] {
    } else {
      assert Pieces(names)[1..] == Pieces(names[1..]);
      PiecesStripped(names[1..]);
    }
  }

  lemma ParseStrips(names: seq<Name>)
    requires AllFree(names)
    ensures Parse(BotReader, Print(names)) == Stripped(names)
  {
    SplitPrinted(names);
    PiecesStripped(names);
    assert ([""] + Pieces(names))[1..] == Pieces(names);
  }

  lemma {:induction false} StrippedMembers(names: seq<Name>, name: Name)
    requires name in Stripped(names)
    ensures exists n :: n in names && name == StripCommas(n + ",")
  {
    if name == StripCommas(names[0] + ",") {
      assert names[0] in names;
    } else {
      StrippedMembers(names[1..], name);
      var n :| n in names[1..] && name == StripCommas(n + ",");
      assert n in names;
    }
  }

  lemma {:induction false} StripShortens(text: string)
    ensures |StripFront(text)| <= |text| && |StripBack(text)| <= |text|
  {
    if text == "" {
    } else {
      StripShortens(text[1..]);
      StripShortens(text[..|text| - 1]);
    }
  }

  lemma LeadingCommaShortens(text: string)
    requires text != "" && text[0] == ','
    ensures |StripCommas(text)| < |text|
  {
    StripShortens(text[1..]);
    StripShortens(StripFront(text));
  }

  lemma DropConcat(a: string, b: string, k: nat)
    requires k <= |a|
    ensures (a + b)[k..] == a[k..] + b
  {
  }

  lemma MetAtHead(names: seq<Name>, m: Name)
    requires names != [] && |m| <= |names[0]| && StartsWith(Print(names), Format(m))
    ensures RemoveText(Print(names), Format(m)) == (names[0] + ",")[|m| + 1..] + Print(names[1..])
  {
    RemoveAtHead(names, m);
    DropConcat(Format(names[0]), Print(names[1..]), |m| + 2);
    assert Format(names[0]) == "<" + (names[0] + ",");
  }

  lemma PrintedHead(names: seq<Name>, k: nat)
    requires k < |names|
    ensures Print(names[..k + 1]) == Format(names[0]) + Print(names[1..][..k])
    ensures names[k + 1..] == names[1..][k..]
  {
    assert names[..k + 1] == [names[0]] + names[1..][..k];
    PrintAppend([names[0]], names[1..][..k]);
    PrintOne(names[0]);
  }

  /** The first name that the search meets, and what replacing leaves of the text. */
  lemma {:induction false} FirstMet(names: seq<Name>, m: Name) returns (i: nat)
    requires AllFree(names) && Free(m) && SomeBegins(names, m)
    ensures i < |names| && Begins(names[i], m) && forall k | 0 <= k < i :: !Begins(names[k], m)
    ensures |m| < |names[i] + ","|
    ensures RemoveText(Print(names), Format(m))
            == Print(names[..i]) + ((names[i] + ",")[|m| + 1..] + Print(names[i + 1..]))
  {
    if Begins(names[0], m) {
      i := 0;
      MarkerAtHead(names, m);
      BeginsSplits(names[0], m);
      MetAtHead(names, m);
      assert Print(names[..0]) == "";
    } else {
      assert SomeBegins(names[1..], m) by {
        var n :| n in names && Begins(n, m);
        assert n in names[1..];
      }
      var k := FirstMet(names[1..], m);
      i := k + 1;
      var tail := (names[i] + ",")[|m| + 1..] + Print(names[i + 1..]);
      assert names[1..][k] == names[i] && names[1..][k + 1..] == names[i + 1..];
      MetBeyondHead(names, m, k, tail);
    }
  }

  lemma MetBeyondHead(names: seq<Name>, m: Name, k: nat, tail: string)
    requires names != [] && Free(names[0]) && Free(m) && !Begins(names[0], m) && k < |names[1..]|
    requires RemoveText(Print(names[1..]), Format(m)) == Print(names[1..][..k]) + tail
    ensures RemoveText(Print(names), Format(m)) == Print(names[..k + 1]) + tail
  {
    MarkerAtHead(names, m);
    MarkerBeyondHead(names, m);
    PrintedHead(names, k);
    Associate(Format(names[0]), Print(names[1..][..k]), tail);
  }

  lemma ReadableStripped(names: seq<Name>, name: Name)
    requires AllReadable(names) && name in Stripped(names)
    ensures name in names
  {
    StrippedMembers(names, name);
    var n :| n in names && name == StripCommas(n + ",");
    StripMarker(n);
  }

  /** The rest of a name, left at the front of the text, does not read back as the name. */
  lemma RestAtFront(rest: string, after: seq<Name>, name: Name)
    requires '<' !in rest && |rest| + 1 < |name| && AllReadable(after) && name !in after
    ensures name !in Parse(BotReader, rest + "," + Print(after))
  {
    var piece := rest + ",";
    SplitPrinted(after);
    SplitAfter(piece, Print(after), '<');
    PiecesStripped(after);
    var pieces := [piece] + Pieces(after);
    assert pieces[1..] == Pieces(after) && piece + "" == piece;
    StripShortens(piece);
    StripShortens(StripFront(piece));
    if name in Stripped(after) {
      ReadableStripped(after, name);
    }
  }

  /** Joining the rest of one name to another gives neither of them, and no '<'. */
  lemma JoinedIsOther(x: Name, m: Name, rest: string)
    requires Readable(x) && Readable(m + "," + rest) && m != "" && x != m
    ensures Free(x + "," + rest) && StripCommas(x + "," + rest + ",") != m + "," + rest
  {
    var joined, name := x + "," + rest, m + "," + rest;
    assert forall c | c in rest :: c in name;
    if x == "" {
      LeadingCommaShortens(joined + ",");
    } else {
      assert (m + ",")[|m|] == ',' && (rest == "" ==> name == m + ",");
      assert joined[|joined| - 1] == name[|name| - 1];
      StripMarker(joined);
      assert |x| == |m| ==> joined[..|x|] == x && name[..|m|] == m;
    }
  }

  /** The rest of a name, left behind another name, does not read back as the name. */
  lemma RestBehindName(before: seq<Name>, x: Name, m: Name, rest: string, after: seq<Name>)
    requires AllReadable(before + after) && Readable(x) && Readable(m + "," + rest) && m != "" && x != m
    requires m + "," + rest !in before + after
    ensures m + "," + rest !in Parse(BotReader, Print(before + [x + "," + rest] + after))
  {
    var joined := x + "," + rest;
    var names := before + [joined] + after;
    JoinedIsOther(x, m, rest);
    assert forall n | n in names :: n == joined || n in before + after;
    ParseStrips(names);
    forall name | name in Stripped(names) ensures name != m + "," + rest {
      StrippedMembers(names, name);
      var n :| n in names && name == StripCommas(n + ",");
      if n != joined {
        StripMarker(n);
      }
    }
  }

  /** The name that loses its head is not read back from the text. */
  lemma HeadlessNameIsLost(names: seq<Name>, i: nat, m: Name, rest: string)
    requires AllReadable(names) && Distinct(names) && i < |names| && names[i] == m + "," + rest && m != ""
    requires forall k | 0 <= k < i :: names[k] != m
    ensures names[i] !in Parse(BotReader, Print(names[..i]) + (rest + "," + Print(names[i + 1..])))
  {
    var name, after := names[i], names[i + 1..];
    assert name in names && forall c | c in rest :: c in name;
    assert forall k | 0 <= k < |after| :: after[k] == names[i + 1 + k] != name;
    assert name !in after;
    if i == 0 {
      RestAtFront(rest, after, name);
      assert Print(names[..0]) == "";
      assert "" + (rest + "," + Print(after)) == rest + "," + Print(after);
    } else {
      var before, x := names[..i - 1], names[i - 1];
      assert names[..i] == before + [x];
      assert forall k | 0 <= k < |before| :: before[k] == names[k] != name;
      RestBehindName(before, x, m, rest, after);
      PrintJoined(before, x, rest, after);
    }
  }

  lemma PrintJoined(before: seq<Name>, x: Name, rest: string, after: seq<Name>)
    ensures Print(before + [x]) + (rest + "," + Print(after)) == Print(before + [x + "," + rest] + after)
  {
    var joined := x + "," + rest;
    PrintAppend(before, [x]);
    PrintOne(x);
    PrintAppend(before, [joined]);
    PrintOne(joined);
    PrintAppend(before + [joined], after);
    JoinText(Print(before), Format(x), rest, Print(after));
    assert Format(x) + (rest + ",") == Format(joined);
  }

  lemma JoinText(a: string, b: string, rest: string, c: string)
    ensures (a + b) + (rest + "," + c) == a + (b + (rest + ",")) + c
  {
  }

  /** After a request for m that meets another name first, that name is read back nowhere. */
  lemma OtherNameIsLost(source: seq<Name>, target: seq<Name>, m: Name) returns (lost: Name)
    requires AllReadable(source) && AllReadable(target) && Distinct(source + target)
    requires Clean(m) && m != "" && SomeBegins(source, m) && !FirstIs(source, m)
    ensures lost in source
    ensures lost !in Parse(BotReader, RemoveText(Print(source), Format(m)))
    ensures lost !in target + [m] && Parse(BotReader, Print(target)) == target
    ensures Parse(BotReader, Print(target) + Format(m)) == target + [m]
  {
    var i := FirstMet(source, m);
    NotFirst(source, m, i);
    lost := source[i];
    BeginsSplits(lost, m);
    var rest := lost[|m| + 1..];
    assert lost == m + "," + rest && (lost + ",")[|m| + 1..] == rest + ",";
    BeginsItself(m);
    DistinctParts(source, target);
    HeadlessNameIsLost(source, i, m, rest);
    PrintThenParse(BotReader, target);
    PrintAppend(target, [m]);
    PrintOne(m);
    PrintThenParse(BotReader, target + [m]);
  }

  lemma {:induction false} NotFirst(names: seq<Name>, m: Name, i: nat)
    requires i < |names| && Begins(names[i], m) && forall k | 0 <= k < i :: !Begins(names[k], m)
    ensures FirstIs(names, m) <==> names[i] == m
  {
    if i == 0 {
    } else {
      NotFirst(names[1..], m, i - 1);
    }
  }

  function Request(disabling: bool, m: Name): Operation { if disabling then Disable(m) else Enable(m) }

  function SourceOf(ls: Lists, disabling: bool): seq<Name> { if disabling then ls.available else ls.blocked }

  function TargetOf(ls: Lists, disabling: bool): seq<Name> { if disabling then ls.blocked else ls.available }

  function Printed(ls: Lists): Fields { Fields(Print(ls.available), Print(ls.blocked)) }

  /** One request for m breaks the partition when the search meets another name first. */
  lemma BrokenByOther(ls: Lists, all: set<Name>, disabling: bool, m: Name)
    requires Partition(ls, all) && AllReadable(ls.available) && AllReadable(ls.blocked)
    requires Clean(m) && m != "" && SomeBegins(SourceOf(ls, disabling), m) && !FirstIs(SourceOf(ls, disabling), m)
    ensures !ReadsAsPartition(Apply(Printed(ls), Request(disabling, m)), all)
  {
    var source, target := SourceOf(ls, disabling), TargetOf(ls, disabling);
    SwapDistinct(ls.available, ls.blocked);
    var lost := OtherNameIsLost(source, target, m);
    FoundText(source, target, m);
    ContainsIffSomeBegins(source, m);
    assert lost in all;
  }

  /** The name up to its first comma. */
  function HeadOf(name: Name): Name {
    if name == "" || name[0] == ',' then "" else [name[0]] + HeadOf(name[1..])
  }

  lemma {:induction false} HeadBegins(name: Name)
    requires Free(name) && ',' in name
    ensures Clean(HeadOf(name)) && Begins(name, HeadOf(name)) && |HeadOf(name)| < |name|
    ensures name[0] != ',' ==> HeadOf(name) != ""
  {
    var head := HeadOf(name);
    if name[0] == ',' {
      assert (name + ",")[0] == ',' && ("" + ",")[1..] == "";
    } else {
      HeadBegins(name[1..]);
      assert (name + ",")[1..] == name[1..] + "," && (head + ",")[1..] == HeadOf(name[1..]) + ",";
    }
  }

  /** The request is the list move and takes m out of the source; when the target already seems to hold m, it is
      lost. */
  lemma OwnNameMoves(ls: Lists, all: set<Name>, disabling: bool, m: Name)
    requires Partition(ls, all) && AllReadable(ls.available) && AllReadable(ls.blocked)
    requires Clean(m) && FirstIs(SourceOf(ls, disabling), m)
    ensures m in SourceOf(ls, disabling)
    ensures var f := Apply(Printed(ls), Request(disabling, m));
      if SomeBegins(TargetOf(ls, disabling), m) then !ReadsAsPartition(f, all)
      else f == Printed(ApplyLists(ls, Request(disabling, m)))
  {
    var source, target := SourceOf(ls, disabling), TargetOf(ls, disabling);
    FirstIsMember(source, m);
    SwapDistinct(ls.available, ls.blocked);
    DistinctParts(source, target);
    ContainsIffSomeBegins(source, m);
    ContainsIffSomeBegins(target, m);
    BeginsItself(m);
    RemoveTextIff(source, m);
    RemoveFirstDistinct(source, m);
    RemoveFirstContents(source, m);
    PrintThenParse(BotReader, RemoveFirst(source, m));
    PrintThenParse(BotReader, target);
    FoundText(source, target, m);
    InsertedText(target, m);
  }

  lemma {:induction false} FirstIsMember(names: seq<Name>, m: Name)
    requires FirstIs(names, m)
    ensures m in names
  {
    if Begins(names[0], m) {
    } else {
      FirstIsMember(names[1..], m);
    }
  }

  lemma MovedOnceMeetsOther(ls: Lists, all: set<Name>, disabling: bool, name: Name, m: Name)
    requires Partition(ls, all) && AllReadable(ls.available) && AllReadable(ls.blocked)
    requires Clean(m) && m in SourceOf(ls, disabling) && name in SourceOf(ls, disabling) && name != m && Begins(name, m)
    ensures var after := ApplyLists(ls, Request(disabling, m));
      && Partition(after, all) && AllReadable(after.available) && AllReadable(after.blocked)
      && SomeBegins(SourceOf(after, disabling), m) && !FirstIs(SourceOf(after, disabling), m)
  {
    var source, after := SourceOf(ls, disabling), ApplyLists(ls, Request(disabling, m));
    ApplyKeepsPartition(ls, Request(disabling, m), all);
    SwapDistinct(ls.available, ls.blocked);
    DistinctParts(source, TargetOf(ls, disabling));
    RemoveFirstContents(source, m);
    RemoveFirstDistinct(source, m);
    assert SourceOf(after, disabling) == RemoveFirst(source, m);
    assert name in RemoveFirst(source, m);
    if FirstIs(RemoveFirst(source, m), m) {
      FirstIsMember(RemoveFirst(source, m), m);
    }
  }

  /** Two requests for a name break the partition when another stored name goes on behind it. */
  lemma BrokenByTwo(ls: Lists, all: set<Name>, disabling: bool, name: Name, m: Name)
    requires Partition(ls, all) && AllReadable(ls.available) && AllReadable(ls.blocked)
    requires Clean(m) && m != "" && FirstIs(SourceOf(ls, disabling), m)
    requires name in SourceOf(ls, disabling) && name != m && Begins(name, m)
    ensures var f := Apply(Printed(ls), Request(disabling, m));
      !ReadsAsPartition(f, all) || !ReadsAsPartition(Apply(f, Request(disabling, m)), all)
  {
    OwnNameMoves(ls, all, disabling, m);
    if !SomeBegins(TargetOf(ls, disabling), m) {
      MovedOnceMeetsOther(ls, all, disabling, name, m);
      BrokenByOther(ApplyLists(ls, Request(disabling, m)), all, disabling, m);
    }
  }

  ghost predicate KeptByEveryRun(ls: Lists, all: set<Name>) {
    forall ops :: ReadsAsPartition(Run(Printed(ls), ops), all)
  }

  lemma RunOnceAndTwice(f: Fields, op: Operation)
    ensures Run(f, [op]) == Apply(f, op) && Run(f, [op, op]) == Apply(Apply(f, op), op)
  {
    assert [op][1..] == [] && [op, op][1..] == [op];
    assert Run(f, [op, op]) == Run(Apply(f, op), [op, op][1..]);
    assert Run(Apply(f, op), [op]) == Run(Apply(Apply(f, op), op), [op][1..]);
  }

  /** A stored name with a comma can be made to disappear, by at most two requests for its head. */
  lemma BrokenByHead(ls: Lists, all: set<Name>, disabling: bool, name: Name)
    requires Partition(ls, all) && AllReadable(ls.available) && AllReadable(ls.blocked)
    requires name in SourceOf(ls, disabling) && !Clean(name)
    ensures !KeptByEveryRun(ls, all)
  {
    var m := HeadOf(name);
    HeadBegins(name);
    RunOnceAndTwice(Printed(ls), Request(disabling, m));
    if !FirstIs(SourceOf(ls, disabling), m) {
      BrokenByOther(ls, all, disabling, m);
    } else {
      BrokenByTwo(ls, all, disabling, name, m);
    }
  }

  lemma UnreadableIsLost(ls: Lists, all: set<Name>)
    requires Partition(ls, all) && !(AllReadable(ls.available) && AllReadable(ls.blocked))
    ensures !ReadsAsPartition(Printed(ls), all)
  {
    var f := Printed(ls);
    SplitPiecesFree(f.available, '<');
    SplitPiecesFree(f.blocked, '<');
    ParsedPiecesReadable(BotReader, Split(f.available, '<'));
    ParsedPiecesReadable(BotReader, Split(f.blocked, '<'));
    var name :| (name in ls.available || name in ls.blocked) && !Readable(name);
    assert name in all;
  }

  /** Main result: the strings of two disjoint duplicate-free lists partition the same names after every run of
      requests, for whatever names, exactly when all the stored names are clean. */
  lemma PartitionKeptIffClean(ls: Lists, all: set<Name>)
    requires Partition(ls, all)
    ensures KeptByEveryRun(ls, all) <==> AllClean(ls.available) && AllClean(ls.blocked)
  {
    if !(AllReadable(ls.available) && AllReadable(ls.blocked)) {
      UnreadableIsLost(ls, all);
      assert Run(Printed(ls), []) == Printed(ls);
    } else if !AllClean(ls.available) {
      var name :| name in ls.available && !Clean(name);
      BrokenByHead(ls, all, true, name);
    } else if !AllClean(ls.blocked) {
      var name :| name in ls.blocked && !Clean(name);
      BrokenByHead(ls, all, false, name);
    } else {
      forall ops ensures ReadsAsPartition(Run(Printed(ls), ops), all) {
        AvailableAndBlockedPartition(ls, ops, all);
      }
    }
  }
}
