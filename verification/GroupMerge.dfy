/** Merging duplicate records of one group into one (bocchi/models/group_console.py:262-335). */
module GroupMerge {
  import opened Markers
  import GroupConsole

  const DEFAULT_PLATFORM := "qq"

  datatype Record = Record(id: nat, name: string, maxMembers: int, members: int, status: bool, level: int,
                           isSuper: bool, flag: int, blockPlugin: string, superuserBlockPlugin: string,
                           blockTask: string, superuserBlockTask: string, platform: string)

  function Text(r: Record, field: GroupConsole.Field): string {
    match field
    case BlockPlugin => r.blockPlugin
    case SuperuserBlockPlugin => r.superuserBlockPlugin
    case BlockTask => r.blockTask
    case SuperuserBlockTask => r.superuserBlockTask
  }

  function Names(r: Record, field: GroupConsole.Field): seq<Name> { Parse(GroupReader, Text(r, field)) }

  function If(counts: bool, points: nat): nat { if counts then points else 0 }

  /** A name, member counts, a flag, super rights, switching off and a changed level count. */
  function Marks(r: Record): nat {
    If(r.name != "", 8) + If(r.maxMembers != 0, 4) + If(r.members != 0, 4) + If(r.flag != 0, 4)
    + If(r.isSuper, 4) + If(!r.status, 3) + If(r.level != 5, 3)
  }

  /** And so does every block. */
  function Blocks(r: Record): nat {
    |Names(r, GroupConsole.BlockPlugin)| + |Names(r, GroupConsole.SuperuserBlockPlugin)|
    + |Names(r, GroupConsole.BlockTask)| + |Names(r, GroupConsole.SuperuserBlockTask)|
  }

  function Score(r: Record): nat { Marks(r) + Blocks(r) }

  function Plain(id: nat): Record { Record(id, "", 0, 0, true, 5, false, 0, "", "", "", "", "") }

  predicate SameFields(r: Record, t: Record) { forall field :: Text(r, field) == Text(t, field) }

  lemma ScoreFollowsMarks(r: Record, t: Record)
    requires SameFields(r, t)
    ensures Score(t) - Score(r) == Marks(t) - Marks(r)
  {
    assert forall field :: Text(r, field) == Text(t, field) ==> Names(r, field) == Names(t, field);
  }

  // What the marks are worth: nothing on a plain record; eight for a name; four for either count, a flag and super
  // rights; three for being off and for a level that was changed.

  lemma PlainIsWorthNothing(id: nat)
    ensures Marks(Plain(id)) == 0
  {
  }

  lemma NameIsWorth(r: Record, name: string)
    ensures Marks(r.(name := name)) == Marks(r.(name := "")) + if name == "" then 0 else 8
  {
  }

  lemma CountsAreWorth(r: Record, count: int)
    ensures Marks(r.(maxMembers := count)) == Marks(r.(maxMembers := 0)) + if count == 0 then 0 else 4
    ensures Marks(r.(members := count)) == Marks(r.(members := 0)) + if count == 0 then 0 else 4
  {
  }

  lemma RightsAreWorth(r: Record, flag: int)
    ensures Marks(r.(flag := flag)) == Marks(r.(flag := 0)) + if flag == 0 then 0 else 4
    ensures Marks(r.(isSuper := true)) == Marks(r.(isSuper := false)) + 4
  {
  }

  lemma ChangesAreWorth(r: Record, level: int)
    ensures Marks(r.(status := false)) == Marks(r.(status := true)) + 3
    ensures Marks(r.(level := level)) == Marks(r.(level := 5)) + if level == 5 then 0 else 3
  {
  }

  lemma OthersAreWorthNothing(r: Record, id: nat, platform: string)
    ensures Marks(r.(id := id, platform := platform)) == Marks(r)
  {
  }

  function WithText(r: Record, field: GroupConsole.Field, text: string): Record {
    match field
    case BlockPlugin => r.(blockPlugin := text)
    case SuperuserBlockPlugin => r.(superuserBlockPlugin := text)
    case BlockTask => r.(blockTask := text)
    case SuperuserBlockTask => r.(superuserBlockTask := text)
  }

  /** And one for each block in each of the four fields. */
  lemma ScoreCountsBlocks(r: Record, field: GroupConsole.Field, names: seq<Name>)
    requires AllReadable(names)
    ensures Score(WithText(r, field, Print(names))) == Score(WithText(r, field, "")) + |names|
  {
    PrintThenParse(GroupReader, names);
    PrintThenParse(GroupReader, []);
    TextCounts(r, field, Print(names), names);
    TextCounts(r, field, Print([]), []);
  }

  lemma TextCounts(r: Record, field: GroupConsole.Field, text: string, names: seq<Name>)
    requires Parse(GroupReader, text) == names
    ensures Score(WithText(r, field, text)) + |Names(r, field)| == Score(r) + |names|
  {
    var t := WithText(r, field, text);
    MarksIgnoreText(r, field, text);
    forall other ensures Names(t, other) == if other == field then names else Names(r, other) {
      NamesWithText(r, field, text, other);
    }
    BlocksWithText(r, t, field, names);
  }

  lemma BlocksWithText(r: Record, t: Record, field: GroupConsole.Field, names: seq<Name>)
    requires forall other :: Names(t, other) == if other == field then names else Names(r, other)
    ensures Blocks(t) + |Names(r, field)| == Blocks(r) + |names|
  {
    match field
    case BlockPlugin => assert Names(t, GroupConsole.BlockPlugin) == names;
    case SuperuserBlockPlugin => assert Names(t, GroupConsole.SuperuserBlockPlugin) == names;
    case BlockTask => assert Names(t, GroupConsole.BlockTask) == names;
    case SuperuserBlockTask => assert Names(t, GroupConsole.SuperuserBlockTask) == names;
  }

  lemma MarksIgnoreText(r: Record, field: GroupConsole.Field, text: string)
    ensures Marks(WithText(r, field, text)) == Marks(r)
  {
  }

  lemma NamesWithText(r: Record, field: GroupConsole.Field, text: string, other: GroupConsole.Field)
    ensures Text(WithText(r, field, text), other) == if other == field then text else Text(r, other)
  {
  }

  datatype Measure = MaxMembers | Members | LowLevel | Flag

  function Value(measure: Measure, r: Record): int {
    match measure
    case MaxMembers => r.maxMembers
    case Members => r.members
    case LowLevel => -r.level
    case Flag => r.flag
  }

  datatype Label = GroupName | Platform

  predicate Has(has: Label, r: Record) { if has.GroupName? then r.name != "" else r.platform != "" }

  /** A score with the record's id. */
  type Key = (int, nat)

  predicate Above(a: Key, b: Key) { b.0 < a.0 || (b.0 == a.0 && b.1 < a.1) }

  function KeyOf(r: Record): Key { (Score(r), r.id) }

  function BestKey(keys: seq<Key>): (i: nat)
    requires keys != []
    ensures i < |keys| && forall k | 0 <= k < |keys| :: !Above(keys[k], keys[i])
  {
    if |keys| == 1 then 0
    else
      var i, n := BestKey(keys[..|keys| - 1]), |keys| - 1;
      if Above(keys[n], keys[i]) then n else i
  }

  /** The record with the highest score, the newest among equals. */
  function Best(groups: seq<Record>): (i: nat)
    requires groups != []
    ensures i < |groups|
    ensures forall k | 0 <= k < |groups| ::
              Score(groups[k]) < Score(groups[i])
              || (Score(groups[k]) == Score(groups[i]) && groups[k].id <= groups[i].id)
  {
    var keys := seq(|groups|, i requires 0 <= i < |groups| => KeyOf(groups[i]));
    var i := BestKey(keys);
    assert forall k | 0 <= k < |groups| :: keys[k] == KeyOf(groups[k]);
    i
  }

  function Max(groups: seq<Record>, measure: Measure): (m: int)
    requires groups != []
    ensures (forall r | r in groups :: Value(measure, r) <= m) && exists r | r in groups :: Value(measure, r) == m
  {
    if |groups| == 1 then assert groups[0] in groups; Value(measure, groups[0])
    else
      var init, last := groups[..|groups| - 1], groups[|groups| - 1];
      assert groups == init + [last];
      var m := Max(init, measure);
      if m < Value(measure, last) then assert last in groups; Value(measure, last) else m
  }

  /** The newest record that has the label. */
  predicate Newest(groups: seq<Record>, has: Label, r: Record) {
    r in groups && Has(has, r) && forall other | other in groups && Has(has, other) :: other.id <= r.id
  }

  function FindNewest(groups: seq<Record>, has: Label): (found: seq<Record>)
    ensures found == [] ==> forall r | r in groups :: !Has(has, r)
    ensures found != [] ==> |found| == 1 && Newest(groups, has, found[0])
  {
    if groups == [] then []
    else
      var init, last := groups[..|groups| - 1], groups[|groups| - 1];
      assert groups == init + [last];
      var found := FindNewest(init, has);
      if Has(has, last) && (found == [] || found[0].id < last.id) then [last] else found
  }

  function Texts(groups: seq<Record>, field: GroupConsole.Field): seq<string> {
    seq(|groups|, i requires 0 <= i < |groups| => Text(groups[i], field))
  }

  function MergedText(groups: seq<Record>, field: GroupConsole.Field): string {
    Print(GroupConsole.MergeFields([], Texts(groups, field)))
  }

  /** A group is off when any record says so, super when any says so, and has the lowest level. */
  function Merged(groups: seq<Record>): Record
    requires groups != []
  {
    var named, placed := FindNewest(groups, GroupName), FindNewest(groups, Platform);
    Record(groups[Best(groups)].id,
           if named == [] then "" else named[0].name,
           Max(groups, MaxMembers), Max(groups, Members),
           forall r | r in groups :: r.status,
           -Max(groups, LowLevel),
           exists r | r in groups :: r.isSuper,
           Max(groups, Flag),
           MergedText(groups, GroupConsole.BlockPlugin), MergedText(groups, GroupConsole.SuperuserBlockPlugin),
           MergedText(groups, GroupConsole.BlockTask), MergedText(groups, GroupConsole.SuperuserBlockTask),
           if placed == [] then DEFAULT_PLATFORM else placed[0].platform)
  }

  function Deduplicated(groups: seq<Record>): Record
    requires groups != []
  {
    if |groups| == 1 then groups[0] else Merged(groups)
  }

  predicate BlockedIn(r: Record, field: GroupConsole.Field, m: Name) { m in Names(r, field) }

  ghost predicate SameBlocks(kept: Record, groups: seq<Record>) {
    forall field, m :: BlockedIn(kept, field, m) <==> exists r | r in groups :: BlockedIn(r, field, m)
  }

  /** The highest value of the records: none is above it and one has it. */
  ghost predicate Highest(kept: Record, groups: seq<Record>, measure: Measure) {
    && (forall r | r in groups :: Value(measure, r) <= Value(measure, kept))
    && (exists r | r in groups :: Value(measure, r) == Value(measure, kept))
  }

  ghost predicate SameSwitches(kept: Record, groups: seq<Record>) {
    && (kept.status <==> forall r | r in groups :: r.status)
    && (kept.isSuper <==> exists r | r in groups :: r.isSuper)
  }

  /** The name of some record, and no empty one unless all are empty. */
  ghost predicate SameName(kept: Record, groups: seq<Record>) {
    (exists r | r in groups :: r.name == kept.name) && (kept.name == "" ==> forall r | r in groups :: r.name == "")
  }

  /** The platform is one of the records' unless it is the default, and missing only if it is everywhere. */
  ghost predicate SamePlatform(kept: Record, groups: seq<Record>) {
    && (kept.platform == DEFAULT_PLATFORM || exists r | r in groups :: r.platform == kept.platform)
    && (kept.platform == "" ==> forall r | r in groups :: r.platform == "")
  }

  /** Blocks, switches, name and platform, the lowest level, the highest counts and flag. */
  ghost predicate Combines(kept: Record, groups: seq<Record>) {
    && SameBlocks(kept, groups) && SameSwitches(kept, groups)
    && SameName(kept, groups) && SamePlatform(kept, groups)
    && forall measure: Measure :: Highest(kept, groups, measure)
  }

  lemma MergedTextReadsBack(groups: seq<Record>, field: GroupConsole.Field, m: Name)
    ensures m in Parse(GroupReader, MergedText(groups, field)) <==> exists r | r in groups :: BlockedIn(r, field, m)
  {
    var texts := Texts(groups, field);
    GroupConsole.MergedFieldReadsBack(texts);
    if t :| t in texts && m in Parse(GroupReader, t) {
      var i :| 0 <= i < |texts| && texts[i] == t;
      assert groups[i] in groups && BlockedIn(groups[i], field, m);
    }
    if r :| r in groups && BlockedIn(r, field, m) {
      var i :| 0 <= i < |groups| && groups[i] == r;
      assert texts[i] in texts;
    }
  }

  lemma MergedBlocks(kept: Record, groups: seq<Record>)
    requires forall field :: Text(kept, field) == MergedText(groups, field)
    ensures SameBlocks(kept, groups)
  {
    forall field, m ensures BlockedIn(kept, field, m) <==> exists r | r in groups :: BlockedIn(r, field, m) {
      MergedTextReadsBack(groups, field, m);
      assert Text(kept, field) == MergedText(groups, field);
    }
  }

  lemma MergedTexts(groups: seq<Record>, field: GroupConsole.Field)
    requires groups != []
    ensures Text(Merged(groups), field) == MergedText(groups, field)
  {
    var kept := Merged(groups);
    match field
    case BlockPlugin => assert kept.blockPlugin == MergedText(groups, field);
    case SuperuserBlockPlugin => assert kept.superuserBlockPlugin == MergedText(groups, field);
    case BlockTask => assert kept.blockTask == MergedText(groups, field);
    case SuperuserBlockTask => assert kept.superuserBlockTask == MergedText(groups, field);
  }

  lemma MergedValue(groups: seq<Record>, measure: Measure)
    requires groups != []
    ensures Value(measure, Merged(groups)) == Max(groups, measure)
  {
    var kept := Merged(groups);
    match measure
    case MaxMembers => assert kept.maxMembers == Max(groups, MaxMembers);
    case Members => assert kept.members == Max(groups, Members);
    case LowLevel => assert kept.level == -Max(groups, LowLevel);
    case Flag => assert kept.flag == Max(groups, Flag);
  }

  lemma MergedHighest(groups: seq<Record>, measure: Measure)
    requires groups != []
    ensures Highest(Merged(groups), groups, measure)
  {
    MergedValue(groups, measure);
    MaxIsHighest(groups, measure, Merged(groups));
  }

  lemma MaxIsHighest(groups: seq<Record>, measure: Measure, kept: Record)
    requires groups != [] && Value(measure, kept) == Max(groups, measure)
    ensures Highest(kept, groups, measure)
  {
  }

  lemma MergedSwitches(groups: seq<Record>)
    requires groups != []
    ensures SameSwitches(Merged(groups), groups)
  {
  }

  lemma MergedName(groups: seq<Record>)
    requires groups != []
    ensures SameName(Merged(groups), groups)
  {
    var named := FindNewest(groups, GroupName);
    assert Merged(groups).name == if named == [] then "" else named[0].name;
    assert groups[0] in groups;
    assert forall r | r in groups :: Has(GroupName, r) <==> r.name != "";
  }

  lemma MergedPlatform(groups: seq<Record>)
    requires groups != []
    ensures SamePlatform(Merged(groups), groups)
  {
    var placed := FindNewest(groups, Platform);
    assert Merged(groups).platform == if placed == [] then DEFAULT_PLATFORM else placed[0].platform;
  }

  /** Main result: of several duplicates the kept record has the id of the best, and the name and platform of the newest
      that have one. */
  lemma KeptNameIsNewest(groups: seq<Record>)
    requires |groups| > 1
    ensures var kept := Deduplicated(groups);
      && kept.id == groups[Best(groups)].id
      && (if exists r :: r in groups && r.name != ""
          then exists r :: Newest(groups, GroupName, r) && kept.name == r.name
          else kept.name == "")
      && (if exists r :: r in groups && r.platform != ""
          then exists r :: Newest(groups, Platform, r) && kept.platform == r.platform
          else kept.platform == "qq")
  {
    var kept := Deduplicated(groups);
    assert kept == Merged(groups);
    MergedLabels(groups, FindNewest(groups, GroupName), FindNewest(groups, Platform));
  }

  lemma MergedLabels(groups: seq<Record>, named: seq<Record>, placed: seq<Record>)
    requires groups != [] && named == FindNewest(groups, GroupName) && placed == FindNewest(groups, Platform)
    ensures Merged(groups).id == groups[Best(groups)].id
    ensures Merged(groups).name == if named == [] then "" else named[0].name
    ensures Merged(groups).platform == if placed == [] then "qq" else placed[0].platform
  {
  }

  lemma MergedCombines(groups: seq<Record>)
    requires groups != []
    ensures Combines(Merged(groups), groups)
  {
    var kept := Merged(groups);
    forall field ensures Text(kept, field) == MergedText(groups, field) {
      MergedTexts(groups, field);
    }
    MergedBlocks(kept, groups);
    MergedSwitches(groups);
    MergedName(groups);
    MergedPlatform(groups);
    forall measure: Measure ensures Highest(kept, groups, measure) {
      MergedHighest(groups, measure);
    }
  }

  lemma OneCombines(r: Record)
    ensures Combines(r, [r])
  {
    assert r in [r];
  }

  /** Main result: whatever the records hold, the kept one blocks exactly what some record blocks, is on only
      when all are, and has the lowest level and the highest counts and flag: no restriction is lost or invented. */
  lemma KeptCombinesAll(groups: seq<Record>)
    requires groups != []
    ensures Combines(Deduplicated(groups), groups)
  {
    var kept := Deduplicated(groups);
    if |groups| == 1 {
      assert groups == [kept];
      OneCombines(kept);
    } else {
      assert kept == Merged(groups);
      MergedCombines(groups);
    }
  }

  /** Merging in two rounds combines the same records as merging at once. */
  lemma RoundsCombineAll(first: seq<Record>, more: seq<Record>)
    requires first != []
    ensures Combines(Deduplicated([Deduplicated(first)] + more), first + more)
  {
    var once := Deduplicated(first);
    KeptCombinesAll(first);
    KeptCombinesAll([once] + more);
    CombinesTwice(Deduplicated([once] + more), once, first, more);
  }

  lemma MembersOfBoth(once: Record, first: seq<Record>, more: seq<Record>)
    ensures forall r :: r in [once] + more <==> r == once || r in more
    ensures forall r :: r in first + more <==> r in first || r in more
  {
  }

  lemma BlocksTwice(kept: Record, once: Record, first: seq<Record>, more: seq<Record>)
    requires SameBlocks(once, first) && SameBlocks(kept, [once] + more)
    ensures SameBlocks(kept, first + more)
  {
    MembersOfBoth(once, first, more);
    forall field, m ensures BlockedIn(kept, field, m) <==> exists r | r in first + more :: BlockedIn(r, field, m) {
      assert BlockedIn(once, field, m) <==> exists r | r in first :: BlockedIn(r, field, m);
      assert BlockedIn(kept, field, m) <==> exists r | r in [once] + more :: BlockedIn(r, field, m);
    }
  }

  lemma HighestTwice(kept: Record, once: Record, first: seq<Record>, more: seq<Record>, measure: Measure)
    requires Highest(once, first, measure) && Highest(kept, [once] + more, measure)
    ensures Highest(kept, first + more, measure)
  {
    MembersOfBoth(once, first, more);
    var r :| r in [once] + more && Value(measure, r) == Value(measure, kept);
    if r == once {
      var earlier :| earlier in first && Value(measure, earlier) == Value(measure, once);
      assert earlier in first + more;
    } else {
      assert r in first + more;
    }
  }

  lemma NameTwice(kept: Record, once: Record, first: seq<Record>, more: seq<Record>)
    requires SameName(once, first) && SameName(kept, [once] + more)
    ensures SameName(kept, first + more)
  {
    MembersOfBoth(once, first, more);
    var r :| r in [once] + more && r.name == kept.name;
    if r == once {
      var earlier :| earlier in first && earlier.name == once.name;
      assert earlier in first + more;
    } else {
      assert r in first + more;
    }
  }

  lemma PlatformTwice(kept: Record, once: Record, first: seq<Record>, more: seq<Record>)
    requires SamePlatform(once, first) && SamePlatform(kept, [once] + more)
    ensures SamePlatform(kept, first + more)
  {
    MembersOfBoth(once, first, more);
    if kept.platform != DEFAULT_PLATFORM {
      var r :| r in [once] + more && r.platform == kept.platform;
      if r == once {
        var earlier :| earlier in first && earlier.platform == once.platform;
        assert earlier in first + more;
      } else {
        assert r in first + more;
      }
    }
  }

  lemma SwitchesTwice(kept: Record, once: Record, first: seq<Record>, more: seq<Record>)
    requires SameSwitches(once, first) && SameSwitches(kept, [once] + more)
    ensures SameSwitches(kept, first + more)
  {
    MembersOfBoth(once, first, more);
    assert once in [once] + more;
  }

  lemma CombinesTwice(kept: Record, once: Record, first: seq<Record>, more: seq<Record>)
    requires Combines(once, first) && Combines(kept, [once] + more)
    ensures Combines(kept, first + more)
  {
    BlocksTwice(kept, once, first, more);
    NameTwice(kept, once, first, more);
    PlatformTwice(kept, once, first, more);
    SwitchesTwice(kept, once, first, more);
    forall measure: Measure ensures Highest(kept, first + more, measure) {
      HighestTwice(kept, once, first, more, measure);
    }
  }

  // ---- The table ----

  /** The rows with another, non-zero id than the kept one are deleted. */
  function Remaining(groups: seq<Record>, kept: Record): seq<Record> {
    if groups == [] then []
    else
      var last := groups[|groups| - 1];
      Remaining(groups[..|groups| - 1], kept)
      + if last.id == kept.id then [kept] else if last.id == 0 then [last] else []
  }

  /** Rows of the table: their ids differ and none is zero. */
  ghost predicate Stored(groups: seq<Record>) {
    && (forall k | 0 <= k < |groups| :: groups[k].id != 0)
    && (forall k, l | 0 <= k < l < |groups| :: groups[k].id != groups[l].id)
  }

  /** Of stored records, which have different ids other than zero, exactly the kept one remains. */
  lemma {:induction false} OneRecordRemains(groups: seq<Record>, kept: Record, i: nat)
    requires Stored(groups)
    requires i < |groups| ==> groups[i].id == kept.id
    requires i >= |groups| ==> forall k | 0 <= k < |groups| :: groups[k].id != kept.id
    ensures Remaining(groups, kept) == if i < |groups| then [kept] else []
  {
    if groups == [] {
    } else {
      var n := |groups| - 1;
      OneRecordRemains(groups[..n], kept, if i == n then |groups| else i);
    }
  }

  lemma MergedRemains(groups: seq<Record>)
    requires groups != []
    requires Stored(groups)
    ensures Remaining(groups, Merged(groups)) == [Merged(groups)]
  {
    var kept := Merged(groups);
    assert kept.id == groups[Best(groups)].id;
    OneRecordRemains(groups, kept, Best(groups));
  }

  /** A single record stays as it is, of several just the kept one does. */
  predicate OnlyRemains(groups: seq<Record>, kept: Record) {
    if |groups| == 1 then groups == [kept] else Remaining(groups, kept) == [kept]
  }

  lemma KeptRemains(groups: seq<Record>)
    requires groups != [] && Stored(groups)
    ensures OnlyRemains(groups, Deduplicated(groups))
  {
    var kept := Deduplicated(groups);
    if |groups| == 1 {
      assert groups == [kept];
    } else {
      assert kept == Merged(groups);
      MergedRemains(groups);
    }
  }

  method Keep(groups: seq<Record>) returns (kept: Record)
    requires groups != []
    ensures kept == Deduplicated(groups)
    ensures Combines(kept, groups)
  {
    KeptCombinesAll(groups);
    kept := if |groups| == 1 then groups[0] else Merged(groups);
  }

  class GroupTable {
    var records: seq<Record>

    constructor (found: seq<Record>)
      ensures records == found
    {
      records := found;
    }

    /** The kept record; the table holds nothing else of the group. */
    method Deduplicate() returns (kept: Record)
      requires records != []
      requires Stored(records)
      modifies this
      ensures kept == Deduplicated(old(records)) && records == [kept]
    {
      kept := Keep(records);
      KeptRemains(records);
      DeleteOthers(kept);
    }

    method DeleteOthers(kept: Record)
      requires OnlyRemains(records, kept)
      modifies this
      ensures records == [kept]
    {
      if |records| != 1 {
        records := Remaining(records, kept);
      }
    }
  }
}
