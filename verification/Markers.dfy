/** Sets of module names kept as marker strings such as `<a,<b,` (bocchi/models/bot_console.py and
    bocchi/models/group_console.py).  The same string is read in two ways: split into a list, and
    searched and edited as raw text. */
module Markers {
  import opened Common
  import opened Text

  type Name = string

  function Format(name: Name): string { "<" + name + "," }

  function Print(names: seq<Name>): string {
    if names == [] then "" else Format(names[0]) + Print(names[1..])
  }

  /** str.split on one character. */
  function Split(text: string, c: char): (pieces: seq<string>)
    ensures pieces != []
  {
    if text == "" then [""]
    else
      var rest := Split(text[1..], c);
      if text[0] == c then [""] + rest else [[text[0]] + rest[0]] + rest[1..]
  }

  function StripFront(text: string): string {
    if text != "" && text[0] == ',' then StripFront(text[1..]) else text
  }

  function StripBack(text: string): string {
    if text != "" && text[|text| - 1] == ',' then StripBack(text[..|text| - 1]) else text
  }

  /** str.strip(",") */
  function StripCommas(text: string): string { StripBack(StripFront(text)) }

  /** Bot records skip empty pieces, group records skip blank ones. */
  datatype Reader = BotReader | GroupReader

  predicate Skips(reader: Reader, piece: string) {
    if reader.BotReader? then piece == "" else Blank(piece)
  }

  function ParsePieces(reader: Reader, pieces: seq<string>): seq<Name> {
    if pieces == [] then []
    else
      var rest := ParsePieces(reader, pieces[1..]);
      if Skips(reader, pieces[0]) then rest else [StripCommas(pieces[0])] + rest
  }

  function Parse(reader: Reader, text: string): seq<Name> {
    ParsePieces(reader, Split(text, '<'))
  }

  function DropFront(text: string, n: nat): string { if n <= |text| then text[n..] else "" }

  /** text.replace(sub, "", 1) */
  function RemoveText(text: string, sub: string): string {
    if StartsWith(text, sub) then DropFront(text, |sub|)
    else if text == "" then ""
    else [text[0]] + RemoveText(text[1..], sub)
  }

  /** list.remove, leaving the list alone when the name is absent. */
  function RemoveFirst(names: seq<Name>, m: Name): seq<Name> {
    if names == [] then []
    else if names[0] == m then names[1..]
    else [names[0]] + RemoveFirst(names[1..], m)
  }

  // ---- Which names survive printing and parsing ----

  predicate Readable(name: Name) {
    && '<' !in name
    && (name != "" ==> name[0] != ',' && name[|name| - 1] != ',')
  }

  predicate Clean(name: Name) { '<' !in name && ',' !in name }

  ghost predicate AllReadable(names: seq<Name>) { forall n | n in names :: Readable(n) }

  ghost predicate AllClean(names: seq<Name>) { forall n | n in names :: Clean(n) }

  function Pieces(names: seq<Name>): seq<string> {
    if names == [] then [] else [names[0] + ","] + Pieces(names[1..])
  }

  lemma {:induction false} SplitAfter(x: string, y: string, c: char)
    requires c !in x
    ensures Split(x + y, c) == [x + Split(y, c)[0]] + Split(y, c)[1..]
  {
    if x == "" {
      assert x + y == y && "" + Split(y, c)[0] == Split(y, c)[0];
    } else {
      assert (x + y)[1..] == x[1..] + y;
      SplitAfter(x[1..], y, c);
      var rest := Split(x[1..] + y, c);
      assert rest[0] == x[1..] + Split(y, c)[0] && rest[1..] == Split(y, c)[1..];
      assert [x[0]] + (x[1..] + Split(y, c)[0]) == x + Split(y, c)[0];
    }
  }

  lemma {:induction false} SplitPrinted(names: seq<Name>)
    requires forall n | n in names :: '<' !in n
    ensures Split(Print(names), '<') == [""] + Pieces(names)
  {
    if names == [] {
    } else {
      var n, rest := names[0], Print(names[1..]);
      SplitPrinted(names[1..]);
      SplitAfter(n + ",", rest, '<');
      PrintedTail(names);
      assert n + "," + "" == n + ",";
    }
  }

  lemma StripBackOnce(name: Name)
    requires name != "" ==> name[|name| - 1] != ','
    ensures StripBack(name + ",") == name
  {
  }

  lemma StripMarker(name: Name)
    requires Readable(name)
    ensures StripCommas(name + ",") == name
  {
    if name == "" {
      assert name + "," == ",";
      assert StripFront(",") == StripFront(","[1..]) == "";
    } else {
      assert StripFront(name + ",") == name + ",";
      StripBackOnce(name);
    }
  }

  lemma {:induction false} ParsePrintedPieces(reader: Reader, names: seq<Name>)
    requires AllReadable(names)
    ensures ParsePieces(reader, Pieces(names)) == names
  {
    if names == [] {
    } else {
      var piece := names[0] + ",";
      assert !IsSpace(piece[|names[0]|]);
      StripMarker(names[0]);
      ParsePrintedPieces(reader, names[1..]);
    }
  }

  lemma PrintThenParse(reader: Reader, names: seq<Name>)
    requires AllReadable(names)
    ensures Parse(reader, Print(names)) == names
  {
    SplitPrinted(names);
    ParsePrintedPieces(reader, names);
    assert ([""] + Pieces(names))[1..] == Pieces(names);
  }

  lemma {:induction false} SplitPiecesFree(text: string, c: char)
    ensures forall p | p in Split(text, c) :: c !in p
  {
    if text == "" {
    } else {
      SplitPiecesFree(text[1..], c);
    }
  }

  lemma {:induction false} StripFrontReadable(text: string)
    ensures StripFront(text) != "" ==> StripFront(text)[0] != ','
    ensures forall c | c in StripFront(text) :: c in text
  {
    if text != "" && text[0] == ',' {
      StripFrontReadable(text[1..]);
    }
  }

  lemma {:induction false} StripBackReadable(text: string)
    ensures StripBack(text) != "" ==> StripBack(text)[|StripBack(text)| - 1] != ',' && StripBack(text)[0] == text[0]
    ensures forall c | c in StripBack(text) :: c in text
  {
    if text != "" && text[|text| - 1] == ',' {
      StripBackReadable(text[..|text| - 1]);
    }
  }

  lemma {:induction false} ParsedPiecesReadable(reader: Reader, pieces: seq<string>)
    requires forall p | p in pieces :: '<' !in p
    ensures AllReadable(ParsePieces(reader, pieces))
  {
    if pieces == [] {
    } else {
      ParsedPiecesReadable(reader, pieces[1..]);
      StripFrontReadable(pieces[0]);
      StripBackReadable(StripFront(pieces[0]));
      assert Readable(StripCommas(pieces[0]));
    }
  }

  /** Main result: printing then parsing gives the list back exactly when no name contains `<` or
      begins or ends with a comma. */
  lemma RoundTripIffReadable(reader: Reader, names: seq<Name>)
    ensures Parse(reader, Print(names)) == names <==> AllReadable(names)
  {
    if AllReadable(names) {
      PrintThenParse(reader, names);
    }
    SplitPiecesFree(Print(names), '<');
    ParsedPiecesReadable(reader, Split(Print(names), '<'));
  }

  // ---- When the raw text operations agree with the list ----

  predicate Free(name: Name) { '<' !in name }

  ghost predicate AllFree(names: seq<Name>) { forall n | n in names :: Free(n) }

  /** The name is m, or goes on with a comma where m ends. */
  predicate Begins(name: Name, m: Name) { StartsWith(name + ",", m + ",") }

  lemma {:induction false} SkipText(x: string, y: string, m: Name)
    requires '<' !in x
    ensures Contains(x + y, Format(m)) == Contains(y, Format(m))
    ensures RemoveText(x + y, Format(m)) == x + RemoveText(y, Format(m))
  {
    if x == "" {
      assert x + y == y;
    } else {
      assert (x + y)[1..] == x[1..] + y;
      assert (x + y)[0] == x[0] != '<' && Format(m)[0] == '<';
      SkipText(x[1..], y, m);
    }
  }

  lemma PrintedTail(names: seq<Name>)
    requires names != []
    ensures Print(names) != "" && Print(names)[0] == '<'
    ensures Print(names)[1..] == names[0] + "," + Print(names[1..])
  {
  }

  /** Text without '<' that begins a longer text lies before its first '<'. */
  lemma {:induction false} BeginsBeforeSign(head: string, rest: string, sub: string)
    requires '<' !in sub && (rest == "" || rest[0] == '<')
    ensures StartsWith(head + rest, sub) <==> StartsWith(head, sub)
  {
    if head == "" {
      assert head + rest == rest;
    } else if sub == "" {
    } else {
      assert (head + rest)[1..] == head[1..] + rest;
      BeginsBeforeSign(head[1..], rest, sub[1..]);
    }
  }

  lemma MarkerAtHead(names: seq<Name>, m: Name)
    requires names != [] && Free(names[0]) && Free(m)
    ensures StartsWith(Print(names), Format(m)) <==> Begins(names[0], m)
  {
    PrintedTail(names);
    if names[1..] != [] {
      PrintedTail(names[1..]);
    }
    BeginsBeforeSign(names[0] + ",", Print(names[1..]), m + ",");
    assert Format(m)[0] == '<' && Format(m)[1..] == m + ",";
  }

  /** A marker that does not begin the text is looked for behind the text's first name. */
  lemma MarkerBehind(text: string, head: string, rest: string, m: Name)
    requires text == "<" + head + rest && '<' !in head && !StartsWith(text, Format(m))
    ensures Contains(text, Format(m)) == Contains(rest, Format(m))
    ensures RemoveText(text, Format(m)) == "<" + head + RemoveText(rest, Format(m))
  {
    SkipText(head, rest, m);
    assert text[1..] == head + rest;
    Associate("<", head, RemoveText(rest, Format(m)));
  }

  lemma MarkerBeyondHead(names: seq<Name>, m: Name)
    requires names != [] && Free(names[0]) && !StartsWith(Print(names), Format(m))
    ensures Contains(Print(names), Format(m)) == Contains(Print(names[1..]), Format(m))
    ensures RemoveText(Print(names), Format(m)) == Format(names[0]) + RemoveText(Print(names[1..]), Format(m))
  {
    Associate("<", names[0], ",");
    MarkerBehind(Print(names), names[0] + ",", Print(names[1..]), m);
  }

  ghost predicate SomeBegins(names: seq<Name>, m: Name) { exists n :: n in names && Begins(n, m) }

  /** Main result: what the raw substring test finds. */
  lemma {:induction false} ContainsIffSomeBegins(names: seq<Name>, m: Name)
    requires AllFree(names) && Free(m)
    ensures Contains(Print(names), Format(m)) <==> SomeBegins(names, m)
  {
    if names == [] {
    } else {
      MarkerAtHead(names, m);
      assert names == [names[0]] + names[1..];
      if !Begins(names[0], m) {
        MarkerBeyondHead(names, m);
        ContainsIffSomeBegins(names[1..], m);
      }
    }
  }

  lemma BeginsItself(m: Name)
    ensures Begins(m, m)
  {
    StartsWithItself(m + ",");
    assert m + "," + "" == m + ",";
  }

  /** The test is membership exactly when no other name goes on with a comma where m ends. */
  lemma TestIsMembershipIff(names: seq<Name>, m: Name)
    requires AllFree(names) && Free(m)
    ensures (Contains(Print(names), Format(m)) <==> m in names) <==> (SomeBegins(names, m) ==> m in names)
  {
    ContainsIffSomeBegins(names, m);
    BeginsItself(m);
  }

  /** The first name the text search meets is m itself. */
  predicate FirstIs(names: seq<Name>, m: Name) {
    names != [] && if Begins(names[0], m) then names[0] == m else FirstIs(names[1..], m)
  }

  lemma BeginsSplits(n: Name, m: Name)
    requires Begins(n, m)
    ensures n == m || (|m| < |n| && n[..|m|] == m && n[|m|] == ',')
  {
    StartsWithIsPrefix(n + ",", m + ",");
    assert (m + ",")[..|m|] == m;
    assert |m| <= |n| && n[..|m|] == (n + ",")[..|m + ","|][..|m|];
    assert |m| < |n| ==> n[|m|] == (n + ",")[..|m + ","|][|m|];
  }

  lemma RemoveAtHead(names: seq<Name>, m: Name)
    requires names != [] && StartsWith(Print(names), Format(m))
    ensures |Format(m)| <= |Print(names)|
    ensures RemoveText(Print(names), Format(m)) == Print(names)[|Format(m)|..]
  {
    StartsWithIsPrefix(Print(names), Format(m));
  }

  /** Main result: for names in the list, first-occurrence replace is removing from the list exactly when the
      first name the search meets is the name itself. */
  lemma {:induction false} RemoveTextIff(names: seq<Name>, m: Name)
    requires AllFree(names) && m in names
    ensures RemoveText(Print(names), Format(m)) == Print(RemoveFirst(names, m)) <==> FirstIs(names, m)
  {
    MarkerAtHead(names, m);
    BeginsItself(m);
    var rest := RemoveFirst(names, m);
    if m == names[0] {
      RemoveAtHead(names, m);
      assert Print(names)[|Format(m)|..] == Print(names[1..]);
    } else if Begins(names[0], m) {
      BeginsSplits(names[0], m);
      RemoveAtHead(names, m);
      assert Print(names)[|Format(m)|..] != "" && Print(names)[|Format(m)|..][0] == (names[0] + ",")[|m| + 1];
      PrintedTail(rest);
    } else {
      MarkerBeyondHead(names, m);
      RemoveTextIff(names[1..], m);
      assert Print(rest) == Format(names[0]) + Print(RemoveFirst(names[1..], m)) by {
        assert rest[1..] == RemoveFirst(names[1..], m);
      }
      SameTail(Format(names[0]), RemoveText(Print(names[1..]), Format(m)), Print(RemoveFirst(names[1..], m)));
    }
  }

  lemma SameTail(head: string, a: string, b: string)
    ensures head + a == head + b <==> a == b
  {
    assert (head + a)[|head|..] == a && (head + b)[|head|..] == b;
  }

  /** A name without a comma begins with no other name. */
  lemma CleanBegins(n: Name, m: Name)
    requires Clean(n)
    ensures Begins(n, m) <==> n == m
  {
    BeginsItself(m);
    if Begins(n, m) {
      BeginsSplits(n, m);
    }
  }

  lemma {:induction false} CleanFirstIs(names: seq<Name>, m: Name)
    requires AllClean(names) && m in names
    ensures FirstIs(names, m)
  {
    CleanBegins(names[0], m);
    if names[0] == m {
    } else {
      CleanFirstIs(names[1..], m);
    }
  }

  /** For clean names the raw substring test is list membership, and removing the first occurrence of the
      marker from the text removes the first occurrence of the name. */
  lemma TextAgreesWithList(names: seq<Name>, m: Name)
    requires AllClean(names) && Free(m)
    ensures Contains(Print(names), Format(m)) <==> m in names
    ensures m in names ==> RemoveText(Print(names), Format(m)) == Print(RemoveFirst(names, m))
  {
    ContainsIffSomeBegins(names, m);
    BeginsItself(m);
    forall n | n in names ensures Begins(n, m) <==> n == m { CleanBegins(n, m); }
    if m in names {
      CleanFirstIs(names, m);
      RemoveTextIff(names, m);
    }
  }

  /** Without cleanliness they disagree: a comma inside a stored name makes its head look present. */
  lemma CommaMakesFalsePositive()
    ensures Readable("a,b") && Contains(Print(["a,b"]), Format("a")) && "a" !in ["a,b"]
  {
  }

  lemma {:induction false} PrintAppend(a: seq<Name>, b: seq<Name>)
    ensures Print(a + b) == Print(a) + Print(b)
  {
    if a == [] {
      assert a + b == b;
    } else {
      assert (a + b)[1..] == a[1..] + b;
      PrintAppend(a[1..], b);
    }
  }

  lemma PrintOne(m: Name)
    ensures Print([m]) == Format(m)
  {
  }

  // ---- Any name at all, in a list of clean names ----

  lemma CommaEndsMarker(n: Name, p: nat)
    requires Clean(n) && p < |Format(n)| && Format(n)[p] == ','
    ensures p == |Format(n)| - 1
  {
    assert forall q | 0 < q <= |n| :: Format(n)[q] == n[q - 1];
  }

  /** A text that begins the printed list and ends with a comma is the print of its first names. */
  lemma {:induction false} PrefixIsRun(names: seq<Name>, text: string) returns (k: nat)
    requires AllClean(names) && text != "" && text[|text| - 1] == ','
    requires |text| <= |Print(names)| && Print(names)[..|text|] == text
    ensures 1 <= k <= |names| && text == Print(names[..k])
  {
    var head, rest := Format(names[0]), Print(names[1..]);
    assert Print(names) == head + rest;
    if |text| <= |head| {
      assert text == head[..|text|] && names[0] in names;
      CommaEndsMarker(names[0], |text| - 1);
      assert text == head;
      k := 1;
      assert names[..1] == [names[0]];
      PrintOne(names[0]);
    } else {
      var tail := text[|head|..];
      assert tail == rest[..|tail|] && text == head + tail;
      k := PrefixIsRun(names[1..], tail);
      assert names[..k + 1] == [names[0]] + names[1..][..k];
      PrintAppend([names[0]], names[1..][..k]);
      PrintOne(names[0]);
      k := k + 1;
    }
  }

  lemma {:induction false} PrintCut(names: seq<Name>, k: nat)
    requires k <= |names|
    ensures Print(names) == Print(names[..k]) + Print(names[k..])
  {
    var kept, rest := names[..k], names[k..];
    assert names == kept + rest;
    PrintAppend(kept, rest);
  }

  lemma HeadIsRun(names: seq<Name>, m: Name) returns (k: nat)
    requires AllClean(names) && StartsWith(Print(names), Format(m))
    ensures 1 <= k <= |names| && Format(m) == Print(names[..k])
    ensures RemoveText(Print(names), Format(m)) == Print(names[k..])
  {
    StartsWithIsPrefix(Print(names), Format(m));
    k := PrefixIsRun(names, Format(m));
    RemoveAtHead(names, m);
    PrintCut(names, k);
  }

  /** Main result: the marker of any name, clean or not, is found in a list of clean names only as the print of
      names that follow one another, and replacing it removes just these. */
  lemma {:induction false} MarkerIsRun(names: seq<Name>, m: Name) returns (i: nat, k: nat)
    requires AllClean(names) && Contains(Print(names), Format(m))
    ensures 1 <= k && i + k <= |names| && Format(m) == Print(names[i..i + k])
    ensures RemoveText(Print(names), Format(m)) == Print(names[..i] + names[i + k..])
  {
    if StartsWith(Print(names), Format(m)) {
      i := 0;
      k := HeadIsRun(names, m);
      assert names[0..k] == names[..k] && names[..0] + names[k..] == names[k..];
    } else {
      assert names[0] in names;
      MarkerBeyondHead(names, m);
      i, k := MarkerIsRun(names[1..], m);
      RunBeyondHead(names, i, k);
      i := i + 1;
    }
  }

  lemma RunBeyondHead(names: seq<Name>, i: nat, k: nat)
    requires names != [] && i + k <= |names[1..]|
    ensures names[1..][i..i + k] == names[i + 1..i + 1 + k]
    ensures Print(names[..i + 1] + names[i + 1 + k..]) ==
            Format(names[0]) + Print(names[1..][..i] + names[1..][i + k..])
  {
    var kept := names[1..][..i] + names[1..][i + k..];
    assert names[..i + 1] + names[i + 1 + k..] == [names[0]] + kept;
    PrintAppend([names[0]], kept);
    PrintOne(names[0]);
  }

  lemma {:induction false} RemoveFirstContents(names: seq<Name>, m: Name)
    ensures forall n | n in RemoveFirst(names, m) :: n in names
    ensures forall n | n in names && n != m :: n in RemoveFirst(names, m)
  {
    if names != [] && names[0] != m {
      RemoveFirstContents(names[1..], m);
    }
  }

  lemma {:induction false} RemoveFirstDistinct(names: seq<Name>, m: Name)
    requires Distinct(names)
    ensures Distinct(RemoveFirst(names, m)) && m !in RemoveFirst(names, m)
  {
    if names != [] && names[0] != m {
      RemoveFirstDistinct(names[1..], m);
      RemoveFirstContents(names[1..], m);
      assert names[0] !in names[1..];
    }
  }

  lemma {:induction false} RemoveAppended(names: seq<Name>, m: Name)
    requires m !in names
    ensures RemoveFirst(names + [m], m) == names
  {
    if names == [] {
      assert names + [m] == [m];
    } else {
      assert (names + [m])[1..] == names[1..] + [m];
      RemoveAppended(names[1..], m);
    }
  }

  lemma {:induction false} StartsWithItself(text: string)
    ensures StartsWith(text, text) && RemoveText(text, text) == ""
  {
    if text == "" {
    } else {
      StartsWithItself(text[1..]);
    }
  }
}
