/** Blocking and unblocking modules in a group record, and merging duplicate records
    (bocchi/models/group_console.py). */
module GroupConsole {
  import opened Common
  import opened Text
  import opened Markers

  /** The superuser fields are handled as lists, the ordinary ones by searching the raw text. */
  datatype Mode = Superuser | Ordinary

  datatype Result = Stored(text: string) | ValueError

  predicate Blocked(mode: Mode, text: string, m: Name) {
    if mode.Superuser? then m in Parse(GroupReader, text) else Contains(text, Format(m))
  }

  function Block(mode: Mode, text: string, m: Name): string {
    if Blocked(mode, text, m) then text else Print(Parse(GroupReader, text) + [m])
  }

  /** list.remove raises when the text test finds a name that the parsed list does not have. */
  function Unblock(mode: Mode, text: string, m: Name): Result {
    if !Blocked(mode, text, m) then Stored(text)
    else
      var names := Parse(GroupReader, text);
      if m in names then Stored(Print(RemoveFirst(names, m))) else ValueError
  }

  lemma BlockedIsMembership(mode: Mode, names: seq<Name>, m: Name)
    requires AllClean(names) && Free(m)
    ensures Parse(GroupReader, Print(names)) == names
    ensures Blocked(mode, Print(names), m) <==> m in names
  {
    PrintThenParse(GroupReader, names);
    TextAgreesWithList(names, m);
  }

  /** The text test finds a name that the list does not have. */
  predicate FalseHit(names: seq<Name>, m: Name) { m !in names && Contains(Print(names), Format(m)) }

  lemma MemberIsFound(names: seq<Name>, m: Name)
    requires AllFree(names) && m in names
    ensures Contains(Print(names), Format(m))
  {
    ContainsIffSomeBegins(names, m);
    BeginsItself(m);
  }

  /** When the test hits falsely: another stored name goes on with a comma where m ends. */
  lemma FalseHitIff(names: seq<Name>, m: Name)
    requires AllFree(names) && Free(m)
    ensures FalseHit(names, m) <==> m !in names && SomeBegins(names, m)
  {
    ContainsIffSomeBegins(names, m);
  }

  /** Main result: on a printed list of readable names the ordinary mode raises exactly when its test hits
      falsely; the superuser mode never raises. */
  lemma UnblockRaisesIff(names: seq<Name>, m: Name, mode: Mode)
    requires AllReadable(names)
    ensures Unblock(mode, Print(names), m) == ValueError <==> mode.Ordinary? && FalseHit(names, m)
    ensures Free(m) ==> (Unblock(Ordinary, Print(names), m) == ValueError <==> m !in names && SomeBegins(names, m))
  {
    PrintThenParse(GroupReader, names);
    if Free(m) {
      FalseHitIff(names, m);
    }
  }

  /** Main result: on a printed list of readable names both modes do the same to a module exactly when the text
      test does not hit falsely. */
  lemma ModesAgreeIff(names: seq<Name>, m: Name)
    requires AllReadable(names)
    ensures Block(Superuser, Print(names), m) == Block(Ordinary, Print(names), m) <==> !FalseHit(names, m)
    ensures Unblock(Superuser, Print(names), m) == Unblock(Ordinary, Print(names), m) <==> !FalseHit(names, m)
  {
    PrintThenParse(GroupReader, names);
    PrintAppend(names, [m]);
    PrintOne(m);
    if m in names {
      MemberIsFound(names, m);
    }
  }

  lemma CleanNeverFalse(names: seq<Name>, m: Name)
    requires AllClean(names) && Free(m)
    ensures !FalseHit(names, m)
  {
    TextAgreesWithList(names, m);
  }

  /** Both modes do the same to a printed list of clean names, and neither raises. */
  lemma ModesAgree(names: seq<Name>, m: Name, mode: Mode)
    requires AllClean(names) && Free(m)
    ensures Block(mode, Print(names), m) == Print(if m in names then names else names + [m])
    ensures Unblock(mode, Print(names), m) == Stored(Print(RemoveFirst(names, m)))
  {
    BlockedIsMembership(mode, names, m);
    if m !in names {
      RemoveAbsent(names, m);
    }
  }

  lemma {:induction false} RemoveAbsent(names: seq<Name>, m: Name)
    requires m !in names
    ensures RemoveFirst(names, m) == names
  {
    if names == [] {
    } else {
      RemoveAbsent(names[1..], m);
    }
  }

  /** The stored text of a list with a module added, read and unblocked. */
  lemma UnblockAppended(names: seq<Name>, m: Name, mode: Mode)
    requires AllReadable(names) && m !in names
    ensures Unblock(mode, Print(names + [m]), m) == Stored(Print(names)) <==> Readable(m)
  {
    PrintAppend(names, [m]);
    PrintOne(m);
    if Readable(m) {
      PrintThenParse(GroupReader, names + [m]);
      RemoveAppended(names, m);
      MemberIsFound(names + [m], m);
    } else {
      SplitPiecesFree(Print(names + [m]), '<');
      ParsedPiecesReadable(GroupReader, Split(Print(names + [m]), '<'));
      EndIsFound(Print(names), Format(m));
      assert |Print(names + [m])| > |Print(names)|;
    }
  }

  lemma {:induction false} EndIsFound(text: string, sub: string)
    ensures Contains(text + sub, sub)
  {
    if text == "" {
      StartsWithItself(sub);
      assert text + sub == sub;
    } else {
      EndIsFound(text[1..], sub);
      assert (text + sub)[1..] == text[1..] + sub;
    }
  }

  /** Main result: blocking a module that is not in a list of readable names and unblocking it again restores
      the stored text exactly when the module's name is readable and, in the ordinary mode, its marker is not
      found in the text before. (A marker found falsely blocks nothing, which only the superuser mode undoes.) */
  lemma BlockThenUnblockIff(names: seq<Name>, m: Name, first: Mode, second: Mode)
    requires AllReadable(names) && m !in names
    ensures Unblock(second, Block(first, Print(names), m), m) == Stored(Print(names)) <==>
              if first.Ordinary? && FalseHit(names, m) then second.Superuser? else Readable(m)
  {
    PrintThenParse(GroupReader, names);
    if !(first.Ordinary? && FalseHit(names, m)) {
      UnblockAppended(names, m, second);
    }
  }

  /** For clean names this is always so. */
  lemma BlockThenUnblockRestores(names: seq<Name>, m: Name, first: Mode, second: Mode)
    requires AllClean(names) && Clean(m) && m !in names
    ensures Unblock(second, Block(first, Print(names), m), m) == Stored(Print(names))
  {
    CleanNeverFalse(names, m);
    BlockThenUnblockIff(names, m, first, second);
  }

  /** Main result: blocking a module that is not in a list of readable names puts it into the list that is read
      back exactly when its name is readable and, in the ordinary mode, its marker is not found falsely. */
  lemma BlockTakesEffectIff(names: seq<Name>, m: Name, mode: Mode)
    requires AllReadable(names) && m !in names
    ensures m in Parse(GroupReader, Block(mode, Print(names), m)) <==>
            Readable(m) && !(mode.Ordinary? && FalseHit(names, m))
  {
    PrintThenParse(GroupReader, names);
    if Readable(m) {
      PrintThenParse(GroupReader, names + [m]);
    } else {
      SplitPiecesFree(Print(names + [m]), '<');
      ParsedPiecesReadable(GroupReader, Split(Print(names + [m]), '<'));
    }
  }

  /** A readable module leaves every other one as it was. */
  lemma BlockKeepsOthers(names: seq<Name>, m: Name, other: Name, mode: Mode)
    requires AllReadable(names) && Readable(m) && other != m
    ensures other in Parse(GroupReader, Block(mode, Print(names), m)) <==> other in names
  {
    PrintThenParse(GroupReader, names);
    PrintThenParse(GroupReader, names + [m]);
  }

  /** With "a,b" stored the ordinary mode takes "a" for blocked and leaves it unblocked. */
  lemma BlockHasNoEffect()
    ensures var text := Block(Ordinary, Print(["a,b"]), "a");
      Blocked(Ordinary, text, "a") && Parse(GroupReader, text) == ["a,b"]
  {
    CommaMakesFalsePositive();
    PrintThenParse(GroupReader, ["a,b"]);
  }

  /** For clean names the text test says so too, of the module and of the others. */
  lemma BlockTakesEffect(names: seq<Name>, m: Name, other: Name, mode: Mode)
    requires AllClean(names) && Clean(m) && Clean(other)
    ensures Blocked(mode, Block(mode, Print(names), m), m)
    ensures other != m ==>
      (Blocked(mode, Block(mode, Print(names), m), other) <==> Blocked(mode, Print(names), other))
  {
    ModesAgree(names, m, mode);
    BlockedIsMembership(mode, names, other);
    var after := if m in names then names else names + [m];
    BlockedIsMembership(mode, after, m);
    BlockedIsMembership(mode, after, other);
  }

  /** Outside the clean names the ordinary mode can raise: the marker of "a," is in the text, but the
      parsed name has lost its comma. */
  lemma UnblockCanRaise()
    ensures Unblock(Ordinary, "<a,,", "a,") == ValueError
  {
    var text := "<a,,";
    assert Format("a,") == text;
    StartsWithItself(text);
    assert Blocked(Ordinary, text, "a,");
    assert Print(["a,"]) == text;
    SplitPrinted(["a,"]);
    SplitPiecesFree(text, '<');
    ParsedPiecesReadable(GroupReader, Split(text, '<'));
    assert !Readable("a,");
  }

  // ---- Merging the module fields of duplicate records ----

  function AddNew(modules: seq<Name>, names: seq<Name>): seq<Name>
    decreases |names|
  {
    if names == [] then modules
    else AddNew(if names[0] in modules then modules else modules + [names[0]], names[1..])
  }

  function MergeFields(modules: seq<Name>, fields: seq<string>): seq<Name>
    decreases |fields|
  {
    if fields == [] then modules
    else MergeFields(AddNew(modules, Parse(GroupReader, fields[0])), fields[1..])
  }

  lemma {:induction false} AddNewContents(modules: seq<Name>, names: seq<Name>)
    requires Distinct(modules)
    ensures Distinct(AddNew(modules, names))
    ensures modules <= AddNew(modules, names)
    ensures forall n :: n in AddNew(modules, names) <==> n in modules || n in names
    decreases |names|
  {
    if names == [] {
    } else {
      var next := if names[0] in modules then modules else modules + [names[0]];
      AddNewContents(next, names[1..]);
    }
  }

  /** Main result: merging keeps the modules found so far in place, adds each further module once, and
      has exactly the modules of some field. */
  lemma {:induction false} MergeFieldsContents(modules: seq<Name>, fields: seq<string>)
    requires Distinct(modules)
    ensures Distinct(MergeFields(modules, fields))
    ensures modules <= MergeFields(modules, fields)
    ensures forall n :: n in MergeFields(modules, fields)
                        <==> n in modules || exists f | f in fields :: n in Parse(GroupReader, f)
    decreases |fields|
  {
    if fields == [] {
    } else {
      var names := Parse(GroupReader, fields[0]);
      AddNewContents(modules, names);
      MergeFieldsContents(AddNew(modules, names), fields[1..]);
      forall n ensures (exists f | f in fields :: n in Parse(GroupReader, f))
                       <==> n in names || exists f | f in fields[1..] :: n in Parse(GroupReader, f) {
        if f :| f in fields && n in Parse(GroupReader, f) {
          assert f == fields[0] || f in fields[1..];
        }
        if f :| f in fields[1..] && n in Parse(GroupReader, f) {
          assert f in fields;
        }
        assert fields[0] in fields;
      }
    }
  }

  lemma {:induction false} ParsedAllReadable(modules: seq<Name>, fields: seq<string>)
    requires AllReadable(modules) && Distinct(modules)
    ensures AllReadable(MergeFields(modules, fields))
    decreases |fields|
  {
    if fields == [] {
    } else {
      SplitPiecesFree(fields[0], '<');
      ParsedPiecesReadable(GroupReader, Split(fields[0], '<'));
      AddNewContents(modules, Parse(GroupReader, fields[0]));
      ParsedAllReadable(AddNew(modules, Parse(GroupReader, fields[0])), fields[1..]);
    }
  }

  /** Whatever text the records hold, the merged field reads back as the merged list: no block is lost
      and none is invented. */
  lemma MergedFieldReadsBack(fields: seq<string>)
    ensures var merged := Parse(GroupReader, Print(MergeFields([], fields)));
      && Distinct(merged)
      && forall n :: n in merged <==> exists f | f in fields :: n in Parse(GroupReader, f)
  {
    ParsedAllReadable([], fields);
    PrintThenParse(GroupReader, MergeFields([], fields));
    MergeFieldsContents([], fields);
  }

  method MergeModuleField(fields: seq<string>) returns (text: string)
    ensures text == Print(MergeFields([], fields))
  {
    var modules: seq<Name> := [];
    var seen: set<Name> := {};
    var i := 0;
    while i < |fields|
      invariant 0 <= i <= |fields|
      invariant forall n :: n in seen <==> n in modules
      invariant MergeFields(modules, fields[i..]) == MergeFields([], fields)
    {
      var names := Parse(GroupReader, fields[i]);
      ghost var before := modules;
      var j := 0;
      while j < |names|
        invariant 0 <= j <= |names|
        invariant forall n :: n in seen <==> n in modules
        invariant AddNew(modules, names[j..]) == AddNew(before, names)
      {
        if names[j] !in seen {
          seen := seen + {names[j]};
          modules := modules + [names[j]];
        }
        j := j + 1;
      }
      i := i + 1;
    }
    text := Print(modules);
  }

  // ---- The group record ----

  datatype Field = BlockPlugin | SuperuserBlockPlugin | BlockTask | SuperuserBlockTask

  function FieldFor(task: bool, superuser: bool): Field {
    if task then (if superuser then SuperuserBlockTask else BlockTask)
    else (if superuser then SuperuserBlockPlugin else BlockPlugin)
  }

  /** One field is unblocked, or nothing changes as it raises. */
  predicate Unblocks(before: map<Field, string>, after: map<Field, string>, f: Field, mode: Mode, m: Name,
                     raised: bool)
  {
    && f in before
    && var r := Unblock(mode, before[f], m);
       raised == r.ValueError? && after == if r.ValueError? then before else before[f := r.text]
  }

  class GroupRecord {
    var fields: map<Field, string>

    ghost predicate Valid()
      reads this
    {
      forall f: Field :: f in fields
    }

    constructor ()
      ensures Valid() && forall f: Field :: fields[f] == ""
    {
      var empty := map[BlockPlugin := "", SuperuserBlockPlugin := "", BlockTask := "", SuperuserBlockTask := ""];
      forall f: Field ensures f in empty && empty[f] == "" {
        match f
        case BlockPlugin =>
        case SuperuserBlockPlugin =>
        case BlockTask =>
        case SuperuserBlockTask =>
      }
      fields := empty;
    }

    method SetBlock(task: bool, superuser: bool, m: Name)
      requires Valid()
      modifies this
      ensures task && superuser ==>
        fields == old(fields)[SuperuserBlockTask := Block(Superuser, old(fields)[SuperuserBlockTask], m)]
      ensures task && !superuser ==> fields == old(fields)[BlockTask := Block(Ordinary, old(fields)[BlockTask], m)]
      ensures !task && superuser ==>
        fields == old(fields)[SuperuserBlockPlugin := Block(Superuser, old(fields)[SuperuserBlockPlugin], m)]
      ensures !task && !superuser ==>
        fields == old(fields)[BlockPlugin := Block(Ordinary, old(fields)[BlockPlugin], m)]
    {
      var f := FieldFor(task, superuser);
      var text := fields[f];
      if superuser {
        var names := Parse(GroupReader, text);
        if m !in names {
          fields := fields[f := Print(names + [m])];
        }
      } else if !Contains(text, Format(m)) {
        fields := fields[f := Print(Parse(GroupReader, text) + [m])];
      }
    }

    method SetUnblock(task: bool, superuser: bool, m: Name) returns (raised: bool)
      requires Valid()
      modifies this
      ensures task && superuser ==> Unblocks(old(fields), fields, SuperuserBlockTask, Superuser, m, raised)
      ensures task && !superuser ==> Unblocks(old(fields), fields, BlockTask, Ordinary, m, raised)
      ensures !task && superuser ==> Unblocks(old(fields), fields, SuperuserBlockPlugin, Superuser, m, raised)
      ensures !task && !superuser ==> Unblocks(old(fields), fields, BlockPlugin, Ordinary, m, raised)
    {
      raised := false;
      var f := FieldFor(task, superuser);
      var text := fields[f];
      var names := Parse(GroupReader, text);
      if superuser {
        if m in names {
          fields := fields[f := Print(RemoveFirst(names, m))];
        }
      } else if Contains(text, Format(m)) {
        if m !in names {
          raised := true;
          return;
        }
        fields := fields[f := Print(RemoveFirst(names, m))];
      }
    }
  }
}
