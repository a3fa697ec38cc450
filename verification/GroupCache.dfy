/** The sets of blocked modules that decide at run time: how the cache reads the fields of a group record
    (bocchi/services/cache/runtime_cache.py:98-109), which differs from how the record's own operations do. */
module GroupCache {
  import opened Common
  import opened Text
  import opened Markers
  import opened GroupConsole

  /** A piece between two signs, without white space, then without commas, then without white space. */
  function Shown(piece: string): Name { Trim(StripCommas(Trim(piece))) }

  function Cached(text: string): set<Name> {
    set piece | piece in Split(text, '<') && Shown(piece) != "" :: Shown(piece)
  }

  /** The loop over the pieces. */
  method ParseBlockModules(value: string) returns (items: set<Name>)
    ensures items == Cached(value)
  {
    items := {};
    if value == "" {
      return;
    }
    var parts, i := Split(value, '<'), 0;
    while i < |parts|
      invariant 0 <= i <= |parts|
      invariant items == set piece | piece in parts[..i] && Shown(piece) != "" :: Shown(piece)
    {
      assert parts[..i + 1] == parts[..i] + [parts[i]];
      assert Shown(parts[i]) == Trim(StripCommas(Trim(parts[i]))) && StripCommas("") == "" && Trim("") == "";
      var part := Trim(parts[i]);
      if part != "" {
        part := Trim(StripCommas(part));
        if part != "" {
          items := items + {part};
        }
      }
      i := i + 1;
    }
    assert parts[..i] == parts;
  }

  // ---- Which names the cache shows as they are ----

  predicate Edge(c: char) { IsSpace(c) || c == ',' }

  /** Neither white space nor a comma at either end. */
  predicate Plain(m: Name) { m != "" && Free(m) && !Edge(m[0]) && !Edge(m[|m| - 1]) }

  lemma {:induction false} TrimBackEnd(text: string)
    ensures |TrimBack(text)| <= |text|
    ensures TrimBack(text) != "" ==> !IsSpace(TrimBack(text)[|TrimBack(text)| - 1])
  {
    if text != "" && IsSpace(text[|text| - 1]) {
      TrimBackEnd(text[..|text| - 1]);
    }
  }

  lemma TrimEnds(text: string)
    ensures Trim(text) != "" ==> !IsSpace(Trim(text)[0]) && !IsSpace(Trim(text)[|Trim(text)| - 1])
  {
    TrimFrontBlank(text);
    TrimBackBlank(TrimFront(text));
    TrimBackEnd(TrimFront(text));
  }

  lemma {:induction false} TrimLength(text: string)
    ensures |Trim(text)| <= |text|
    decreases |text|
  {
    TrimBackEnd(TrimFront(text));
    if text != "" && IsSpace(text[0]) {
      TrimLength(text[1..]);
    }
  }

  lemma {:induction false} StripFrontLength(text: string)
    ensures |StripFront(text)| <= |text|
  {
    if text != "" && text[0] == ',' {
      StripFrontLength(text[1..]);
    }
  }

  lemma {:induction false} StripBackLength(text: string)
    ensures |StripBack(text)| <= |text|
  {
    if text != "" && text[|text| - 1] == ',' {
      StripBackLength(text[..|text| - 1]);
    }
  }

  /** A name with a comma at an end loses it. */
  lemma CommaIsLost(m: Name)
    requires m != "" && (m[0] == ',' || (!IsSpace(m[0]) && m[|m| - 1] == ','))
    ensures |StripCommas(m + ",")| < |m|
  {
    var piece := m + ",";
    if m[0] == ',' {
      assert piece[1..] == m[1..] + ",";
      assert StripCommas(piece) == StripCommas(piece[1..]);
      StripFrontOnce(m[1..]);
    } else {
      assert StripFront(piece) == piece && piece[..|piece| - 1] == m;
      assert StripBack(piece) == StripBack(m) == StripBack(m[..|m| - 1]);
      StripBackLength(m[..|m| - 1]);
    }
  }

  lemma {:induction false} StripFrontOnce(m: string)
    ensures |StripCommas(m + ",")| <= |m|
  {
    if m != "" && m[0] == ',' {
      assert (m + ",")[1..] == m[1..] + ",";
      assert StripCommas(m + ",") == StripCommas(m[1..] + ",");
      StripFrontOnce(m[1..]);
    } else if m != "" {
      assert StripFront(m + ",") == m + "," && (m + ",")[..|m + ","| - 1] == m;
      assert StripBack(m + ",") == StripBack(m);
      StripBackLength(m);
    } else {
      assert m + "," == ",";
      assert StripFront(",") == StripFront(","[1..]) == "";
    }
  }

  lemma ShownIffPlain(m: Name)
    requires Free(m) && m != ""
    ensures Shown(m + ",") == m <==> Plain(m)
  {
    var piece := m + ",";
    TrimEnds(StripCommas(Trim(piece)));
    if !IsSpace(m[0]) {
      assert TrimFront(piece) == piece && TrimBack(piece) == piece;
      if Plain(m) {
        StripMarker(m);
      } else if m[0] == ',' || m[|m| - 1] == ',' {
        CommaIsLost(m);
        TrimLength(StripCommas(piece));
      }
    }
  }

  // ---- Blocking and unblocking as the cache sees it ----

  predicate Shows(names: seq<Name>, k: Name) { exists n | n in names :: Shown(n + ",") == k }

  lemma {:induction false} PiecesOf(names: seq<Name>, piece: string)
    ensures piece in Pieces(names) <==> exists n | n in names :: n + "," == piece
  {
    if names == [] {
    } else {
      PiecesOf(names[1..], piece);
      assert names == [names[0]] + names[1..];
    }
  }

  lemma CachedPrinted(names: seq<Name>, k: Name)
    requires AllFree(names)
    ensures k in Cached(Print(names)) <==> k != "" && Shows(names, k)
  {
    SplitPrinted(names);
    if k in Cached(Print(names)) {
      var piece :| piece in Split(Print(names), '<') && Shown(piece) == k;
      assert Shown("") == "";
      PiecesOf(names, piece);
    }
    if k != "" && Shows(names, k) {
      var n :| n in names && Shown(n + ",") == k;
      PiecesOf(names, n + ",");
      assert n + "," in Split(Print(names), '<');
    }
  }

  lemma {:induction false} ShownCharacters(piece: string, c: char)
    requires c !in piece
    ensures c !in Shown(piece)
  {
    TrimCharacters(piece, c);
    StripCharacters(Trim(piece), c);
    TrimCharacters(StripCommas(Trim(piece)), c);
  }

  lemma {:induction false} TrimCharacters(text: string, c: char)
    requires c !in text
    ensures c !in Trim(text)
    decreases |text|
  {
    if text != "" && IsSpace(text[0]) {
      TrimCharacters(text[1..], c);
    } else if text != "" && IsSpace(text[|text| - 1]) {
      assert TrimFront(text[..|text| - 1]) == text[..|text| - 1];
      TrimCharacters(text[..|text| - 1], c);
    }
  }

  lemma StripCharacters(text: string, c: char)
    requires c !in text
    ensures c !in StripCommas(text)
  {
    StripFrontReadable(text);
    StripBackReadable(StripFront(text));
  }

  /** Main result: a module is blocked at run time after it was blocked exactly when it was blocked before, or its
      name is plain and, in the ordinary mode, its marker is not found falsely. */
  lemma BlockedAtRunTimeIff(names: seq<Name>, m: Name, mode: Mode)
    requires AllReadable(names)
    ensures m in Cached(Block(mode, Print(names), m)) <==>
            m in Cached(Print(names)) || (Plain(m) && !(mode.Ordinary? && FalseHit(names, m)))
  {
    if Blocked(mode, Print(names), m) {
      BlockedStays(names, m, mode);
    } else {
      PrintThenParse(GroupReader, names);
      AddedIsCached(names, m);
    }
  }

  lemma BlockedStays(names: seq<Name>, m: Name, mode: Mode)
    requires AllReadable(names) && Blocked(mode, Print(names), m)
    ensures Plain(m) && !(mode.Ordinary? && FalseHit(names, m)) ==> m in Cached(Print(names))
  {
    PrintThenParse(GroupReader, names);
    if Plain(m) && m in names {
      CachedPrinted(names, m);
      ShownIffPlain(m);
    }
  }

  lemma AddedIsCached(names: seq<Name>, m: Name)
    requires AllReadable(names)
    ensures m in Cached(Print(names + [m])) <==> m in Cached(Print(names)) || Plain(m)
  {
    if Free(m) && m != "" {
      CachedPrinted(names, m);
      CachedPrinted(names + [m], m);
      ShownIffPlain(m);
    } else if !Free(m) {
      NotCached(Print(names), m);
      NotCached(Print(names + [m]), m);
    }
  }

  /** A name with the sign of a marker is in no set. */
  lemma NotCached(text: string, m: Name)
    requires !Free(m)
    ensures m !in Cached(text)
  {
    SplitPiecesFree(text, '<');
    if m in Cached(text) {
      var piece :| piece in Split(text, '<') && Shown(piece) == m;
      ShownCharacters(piece, '<');
    }
  }

  /** Blocking a plain module leaves the other modules as they were. */
  lemma OthersAtRunTime(names: seq<Name>, m: Name, other: Name, mode: Mode)
    requires AllReadable(names) && Plain(m) && other != m
    ensures other in Cached(Block(mode, Print(names), m)) <==> other in Cached(Print(names))
  {
    PrintThenParse(GroupReader, names);
    CachedPrinted(names, other);
    CachedPrinted(names + [m], other);
    ShownIffPlain(m);
  }

  /** Main result: a module that was unblocked is still blocked at run time exactly when another stored name is
      shown as it. */
  lemma UnblockedAtRunTimeIff(names: seq<Name>, m: Name, mode: Mode)
    requires AllReadable(names) && Distinct(names) && Unblock(mode, Print(names), m).Stored?
    ensures m in Cached(Unblock(mode, Print(names), m).text) <==>
            m != "" && exists n | n in names && n != m :: Shown(n + ",") == m
  {
    PrintThenParse(GroupReader, names);
    if m in names {
      MemberIsFound(names, m);
      RemoveFirstContents(names, m);
      RemoveFirstDistinct(names, m);
      CachedPrinted(RemoveFirst(names, m), m);
    } else {
      CachedPrinted(names, m);
    }
  }

  /** Plain names are shown as they are, so blocking and unblocking always take effect among them. */
  lemma PlainNamesTakeEffect(names: seq<Name>, m: Name, mode: Mode)
    requires AllClean(names) && Distinct(names) && Plain(m) && forall n | n in names :: Plain(n)
    ensures m in Cached(Block(mode, Print(names), m))
    ensures Unblock(mode, Print(names), m).Stored? && m !in Cached(Unblock(mode, Print(names), m).text)
  {
    CleanNeverFalse(names, m);
    BlockedAtRunTimeIff(names, m, mode);
    UnblockRaisesIff(names, m, mode);
    UnblockedAtRunTimeIff(names, m, mode);
    forall n | n in names && n != m ensures Shown(n + ",") != m {
      ShownIffPlain(n);
    }
  }
}
