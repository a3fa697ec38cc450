/** The plugins and tasks a bot has enabled and disabled (bocchi/models/bot_console.py). */
module BotConsole {
  import opened Common
  import opened Text
  import opened Markers

  datatype Feature = Plugins | Tasks

  /** The two marker strings of one feature. */
  datatype Fields = Fields(available: string, blocked: string)

  datatype Operation = Disable(name: Name) | Enable(name: Name) | DisableAll | EnableAll

  datatype Toggled = NotFound | Moved(source: string, target: string)

  /** Move a marker from one string to the other, working on the raw text. */
  function Toggle(source: string, target: string, name: Name): Toggled {
    var marker := Format(name);
    if !Contains(source + target, marker) then NotFound
    else if Contains(source, marker) then
      Moved(RemoveText(source, marker), if Contains(target, marker) then target else target + marker)
    else Moved(source, target)
  }

  /** Parse both strings and print them one after the other. */
  function Gather(first: string, second: string): string {
    Print(Parse(BotReader, first) + Parse(BotReader, second))
  }

  function Apply(f: Fields, op: Operation): Fields {
    match op
    case Disable(name) =>
      var t := Toggle(f.available, f.blocked, name);
      if t.NotFound? then f else Fields(t.source, t.target)
    case Enable(name) =>
      var t := Toggle(f.blocked, f.available, name);
      if t.NotFound? then f else Fields(t.target, t.source)
    case DisableAll => Fields("", Gather(f.available, f.blocked))
    case EnableAll => Fields(Gather(f.available, f.blocked), "")
  }

  // ---- The same operations on lists ----

  datatype Lists = Lists(available: seq<Name>, blocked: seq<Name>)

  function Inserted(names: seq<Name>, m: Name): seq<Name> {
    if m in names then names else names + [m]
  }

  function ApplyLists(ls: Lists, op: Operation): Lists {
    match op
    case Disable(m) =>
      if m in ls.available then Lists(RemoveFirst(ls.available, m), Inserted(ls.blocked, m)) else ls
    case Enable(m) =>
      if m in ls.blocked then Lists(Inserted(ls.available, m), RemoveFirst(ls.blocked, m)) else ls
    case DisableAll => Lists([], ls.available + ls.blocked)
    case EnableAll => Lists(ls.available + ls.blocked, [])
  }

  ghost predicate Shows(f: Fields, ls: Lists) {
    && f == Fields(Print(ls.available), Print(ls.blocked))
    && AllClean(ls.available) && AllClean(ls.blocked)
  }

  /** Moving a name from one list to the other. */
  function ListMove(source: seq<Name>, target: seq<Name>, m: Name): Toggled {
    if m in source then Moved(Print(RemoveFirst(source, m)), Print(Inserted(target, m)))
    else if m in target then Moved(Print(source), Print(target))
    else NotFound
  }

  /** Searching the two printed lists for m meets m first, if it meets anything. */
  ghost predicate SearchFinds(source: seq<Name>, target: seq<Name>, m: Name) {
    (SomeBegins(source, m) ==> m in source && FirstIs(source, m)) && (SomeBegins(target, m) ==> m in target)
  }

  lemma {:induction false} RemoveTextShortens(text: string, sub: string)
    requires sub != "" && Contains(text, sub)
    ensures |RemoveText(text, sub)| < |text|
  {
    if StartsWith(text, sub) {
      StartsWithIsPrefix(text, sub);
    } else {
      RemoveTextShortens(text[1..], sub);
    }
  }

  lemma InsertedText(target: seq<Name>, m: Name)
    requires AllFree(target) && Free(m)
    ensures var text := if Contains(Print(target), Format(m)) then Print(target) else Print(target) + Format(m);
      text == Print(Inserted(target, m)) <==> (SomeBegins(target, m) ==> m in target)
  {
    ContainsIffSomeBegins(target, m);
    BeginsItself(m);
    PrintAppend(target, [m]);
    PrintOne(m);
  }

  lemma FoundText(source: seq<Name>, target: seq<Name>, m: Name)
    requires AllFree(source) && AllFree(target) && Free(m)
    ensures Contains(Print(source) + Print(target), Format(m)) <==> SomeBegins(source, m) || SomeBegins(target, m)
  {
    PrintAppend(source, target);
    ContainsIffSomeBegins(source + target, m);
    assert forall n :: n in source + target <==> n in source || n in target;
  }

  /** Main result: on the printed lists, toggling is moving the name between the lists exactly when the search
      for its marker meets that name first, if it meets anything. */
  lemma ToggleIsListMoveIff(source: seq<Name>, target: seq<Name>, m: Name)
    requires AllFree(source) && AllFree(target) && Free(m)
    ensures Toggle(Print(source), Print(target), m) == ListMove(source, target, m) <==> SearchFinds(source, target, m)
  {
    FoundText(source, target, m);
    ContainsIffSomeBegins(source, m);
    BeginsItself(m);
    InsertedText(target, m);
    if m in source {
      RemoveTextIff(source, m);
    } else if SomeBegins(source, m) {
      RemoveTextShortens(Print(source), Format(m));
    }
  }

  lemma CleanSearchFinds(source: seq<Name>, target: seq<Name>, m: Name)
    requires AllClean(source) && AllClean(target)
    ensures SearchFinds(source, target, m)
  {
    forall n | n in source || n in target ensures Begins(n, m) <==> n == m { CleanBegins(n, m); }
    if m in source {
      CleanFirstIs(source, m);
    }
  }

  /** Main result: on lists of clean names, toggling any name at all is the list move exactly when the name is
      clean or its marker is in neither string nor across them. */
  lemma CleanToggleIff(source: seq<Name>, target: seq<Name>, m: Name)
    requires AllClean(source) && AllClean(target)
    ensures Toggle(Print(source), Print(target), m) == ListMove(source, target, m)
            <==> Clean(m) || !Contains(Print(source) + Print(target), Format(m))
  {
    if Free(m) {
      CleanSearchFinds(source, target, m);
      ToggleIsListMoveIff(source, target, m);
      FoundText(source, target, m);
    } else {
      NotInClean(source, target, m);
    }
  }

  lemma NotInClean(source: seq<Name>, target: seq<Name>, m: Name)
    requires AllClean(source) && AllClean(target) && !Free(m)
    ensures ListMove(source, target, m) == NotFound
  {
  }

  lemma GatherIsConcatenation(first: seq<Name>, second: seq<Name>)
    requires AllClean(first) && AllClean(second)
    ensures Gather(Print(first), Print(second)) == Print(first + second)
  {
    PrintThenParse(BotReader, first);
    PrintThenParse(BotReader, second);
  }

  /** What a request for one name searches for, and where. */
  predicate Harmless(f: Fields, op: Operation) {
    match op
    case Disable(m) => Clean(m) || !Contains(f.available + f.blocked, Format(m))
    case Enable(m) => Clean(m) || !Contains(f.blocked + f.available, Format(m))
    case _ => true
  }

  lemma PrintInjective(a: seq<Name>, b: seq<Name>)
    requires AllClean(a) && AllClean(b)
    ensures Print(a) == Print(b) ==> a == b
  {
    PrintThenParse(BotReader, a);
    PrintThenParse(BotReader, b);
  }

  lemma SliceIsClean(names: seq<Name>, i: nat, j: nat)
    requires AllClean(names) && i <= j <= |names|
    ensures AllClean(names[i..j])
  {
  }

  lemma ListsStayClean(ls: Lists, op: Operation)
    requires AllClean(ls.available) && AllClean(ls.blocked)
    requires (op.Disable? && op.name in ls.available) || (op.Enable? && op.name in ls.blocked) ==> Clean(op.name)
    ensures AllClean(ApplyLists(ls, op).available) && AllClean(ApplyLists(ls, op).blocked)
  {
    if op.Disable? {
      RemoveFirstContents(ls.available, op.name);
    } else if op.Enable? {
      RemoveFirstContents(ls.blocked, op.name);
    }
  }

  /** An operation on the strings is the same operation on the lists exactly when it is harmless; a request
      that is not harmless changes the strings in another way, or finds what is not there. */
  lemma ApplyRefinesIff(f: Fields, ls: Lists, op: Operation)
    requires Shows(f, ls)
    ensures Harmless(f, op) ==> Shows(Apply(f, op), ApplyLists(ls, op))
    ensures Agrees(f, ls, op) <==> Harmless(f, op)
  {
    ListsStayClean(ls, op);
    match op
    case Disable(m) => CleanToggleIff(ls.available, ls.blocked, m);
    case Enable(m) => CleanToggleIff(ls.blocked, ls.available, m);
    case _ => GatherIsConcatenation(ls.available, ls.blocked);
  }

  /** The operation on the strings does, and reports, what the one on the lists does. */
  ghost predicate Agrees(f: Fields, ls: Lists, op: Operation) {
    match op
    case Disable(m) => Toggle(f.available, f.blocked, m) == ListMove(ls.available, ls.blocked, m)
    case Enable(m) => Toggle(f.blocked, f.available, m) == ListMove(ls.blocked, ls.available, m)
    case _ => Shows(Apply(f, op), ApplyLists(ls, op))
  }

  // ---- Whole runs ----

  /** Every name of `all` is in exactly one of the two lists, once. */
  ghost predicate Partition(ls: Lists, all: set<Name>) {
    && Distinct(ls.available + ls.blocked)
    && (forall n :: n in all <==> n in ls.available || n in ls.blocked)
  }

  lemma DistinctMove(source: seq<Name>, target: seq<Name>, m: Name)
    requires Distinct(source + target) && m in source
    ensures Distinct(RemoveFirst(source, m) + (target + [m])) && m !in target
  {
    DistinctParts(source, target);
    RemoveFirstDistinct(source, m);
    RemoveFirstContents(source, m);
    JoinDistinct(target, [m]);
    JoinDistinct(RemoveFirst(source, m), target + [m]);
  }

  lemma DistinctParts(a: seq<Name>, b: seq<Name>)
    requires Distinct(a + b)
    ensures Distinct(a) && Distinct(b) && forall n | n in a :: n !in b
  {
    forall i, j | 0 <= i < |a| && 0 <= j < |b| ensures a[i] != b[j] {
      assert (a + b)[i] == a[i] && (a + b)[|a| + j] == b[j];
    }
    forall i, j | 0 <= i < j < |a| ensures a[i] != a[j] {
      assert (a + b)[i] == a[i] && (a + b)[j] == a[j];
    }
    forall i, j | 0 <= i < j < |b| ensures b[i] != b[j] {
      assert (a + b)[|a| + i] == b[i] && (a + b)[|a| + j] == b[j];
    }
  }

  lemma JoinDistinct(a: seq<Name>, b: seq<Name>)
    requires Distinct(a) && Distinct(b) && forall n | n in a :: n !in b
    ensures Distinct(a + b)
  {
    forall i, j | 0 <= i < j < |a + b| ensures (a + b)[i] != (a + b)[j] {
      if i < |a| <= j {
        assert (a + b)[i] in a && (a + b)[j] in b;
      }
    }
  }

  lemma SwapDistinct(a: seq<Name>, b: seq<Name>)
    requires Distinct(a + b)
    ensures Distinct(b + a)
  {
    DistinctParts(a, b);
    JoinDistinct(b, a);
  }

  lemma ApplyKeepsPartition(ls: Lists, op: Operation, all: set<Name>)
    requires Partition(ls, all)
    ensures Partition(ApplyLists(ls, op), all)
  {
    match op
    case Disable(m) =>
      if m in ls.available {
        DistinctMove(ls.available, ls.blocked, m);
        RemoveFirstContents(ls.available, m);
      }
    case Enable(m) =>
      if m in ls.blocked {
        SwapDistinct(ls.available, ls.blocked);
        DistinctMove(ls.blocked, ls.available, m);
        RemoveFirstContents(ls.blocked, m);
        SwapDistinct(RemoveFirst(ls.blocked, m), ls.available + [m]);
      }
    case DisableAll => assert [] + (ls.available + ls.blocked) == ls.available + ls.blocked;
    case EnableAll => assert (ls.available + ls.blocked) + [] == ls.available + ls.blocked;
  }

  function Run(f: Fields, ops: seq<Operation>): Fields
    decreases |ops|
  {
    if ops == [] then f else Run(Apply(f, ops[0]), ops[1..])
  }

  function RunLists(ls: Lists, ops: seq<Operation>): Lists
    decreases |ops|
  {
    if ops == [] then ls else RunLists(ApplyLists(ls, ops[0]), ops[1..])
  }

  /** Every operation of the run does, and reports, what it does on the lists. */
  ghost predicate RunAgrees(f: Fields, ls: Lists, ops: seq<Operation>)
    decreases |ops|
  {
    ops == [] || (Agrees(f, ls, ops[0]) && RunAgrees(Apply(f, ops[0]), ApplyLists(ls, ops[0]), ops[1..]))
  }

  predicate RunHarmless(f: Fields, ops: seq<Operation>)
    decreases |ops|
  {
    ops == [] || (Harmless(f, ops[0]) && RunHarmless(Apply(f, ops[0]), ops[1..]))
  }

  /** Main result: a run on the strings is the run on the lists, step by step, exactly when every request is for
      a clean name or for a marker that is not there. */
  lemma {:induction false} RunRefinesIff(f: Fields, ls: Lists, ops: seq<Operation>)
    requires Shows(f, ls)
    ensures RunAgrees(f, ls, ops) <==> RunHarmless(f, ops)
    ensures RunHarmless(f, ops) ==> Shows(Run(f, ops), RunLists(ls, ops))
    decreases |ops|
  {
    if ops == [] {
    } else {
      ApplyRefinesIff(f, ls, ops[0]);
      if Harmless(f, ops[0]) {
        RunRefinesIff(Apply(f, ops[0]), ApplyLists(ls, ops[0]), ops[1..]);
      }
    }
  }

  // ---- The partition under any requests ----

  lemma MovedRunIsPartition(source: seq<Name>, target: seq<Name>, i: nat, k: nat)
    requires i + k <= |source| && Distinct(source + target)
    ensures Distinct(source[..i] + source[i + k..] + (target + source[i..i + k]))
    ensures forall n :: n in source || n in target
                        <==> n in source[..i] + source[i + k..] || n in target + source[i..i + k]
  {
    var kept, run := source[..i] + source[i + k..], source[i..i + k];
    assert source == source[..i] + run + source[i + k..];
    DistinctParts(source, target);
    DistinctParts(source[..i] + run, source[i + k..]);
    DistinctParts(source[..i], run);
    JoinDistinct(source[..i], source[i + k..]);
    JoinDistinct(target, run);
    JoinDistinct(kept, target + run);
  }

  /** The target cannot hold the same marker: the lists have no name in common. */
  lemma RunNotInTarget(source: seq<Name>, target: seq<Name>, i: nat, k: nat, m: Name)
    requires AllClean(source) && AllClean(target) && Distinct(source + target)
    requires 1 <= k && i + k <= |source| && Format(m) == Print(source[i..i + k])
    ensures !Contains(Print(target), Format(m))
  {
    DistinctParts(source, target);
    if Contains(Print(target), Format(m)) {
      var j, l := MarkerIsRun(target, m);
      SliceIsClean(source, i, i + k);
      SliceIsClean(target, j, j + l);
      assert source[i..i + k][0] == source[i] && source[i] in source;
      assert target[j..j + l][0] == target[j] && target[j] in target;
      PrintInjective(source[i..i + k], target[j..j + l]);
    }
  }

  /** Whatever the name, the request leaves the strings alone or moves names that follow one another. */
  lemma ToggleMovesRun(source: seq<Name>, target: seq<Name>, m: Name) returns (left: seq<Name>, right: seq<Name>)
    requires AllClean(source) && AllClean(target) && Distinct(source + target)
    ensures AllClean(left) && AllClean(right) && Distinct(left + right)
    ensures forall n :: n in left || n in right <==> n in source || n in target
    ensures Toggle(Print(source), Print(target), m) in {NotFound, Moved(Print(left), Print(right))}
    ensures Toggle(Print(source), Print(target), m) == NotFound ==> left == source && right == target
  {
    var toggled := Toggle(Print(source), Print(target), m);
    left, right := source, target;
    if toggled != NotFound && Contains(Print(source), Format(m)) {
      var i, k := MarkerIsRun(source, m);
      RunNotInTarget(source, target, i, k, m);
      MovedRunIsPartition(source, target, i, k);
      left, right := source[..i] + source[i + k..], target + source[i..i + k];
      PrintAppend(target, source[i..i + k]);
    }
  }

  lemma AnyKeepsPartition(f: Fields, ls: Lists, op: Operation, all: set<Name>) returns (after: Lists)
    requires Shows(f, ls) && Partition(ls, all)
    ensures Shows(Apply(f, op), after) && Partition(after, all)
  {
    match op
    case Disable(m) =>
      var left, right := ToggleMovesRun(ls.available, ls.blocked, m);
      after := Lists(left, right);
    case Enable(m) =>
      SwapDistinct(ls.available, ls.blocked);
      var left, right := ToggleMovesRun(ls.blocked, ls.available, m);
      SwapDistinct(left, right);
      after := Lists(right, left);
    case _ =>
      after := ApplyLists(ls, op);
      ApplyRefinesIff(f, ls, op);
      ApplyKeepsPartition(ls, op, all);
  }

  lemma {:induction false} AnyRunKeepsPartition(f: Fields, ls: Lists, ops: seq<Operation>, all: set<Name>)
    returns (after: Lists)
    requires Shows(f, ls) && Partition(ls, all)
    ensures Shows(Run(f, ops), after) && Partition(after, all)
    decreases |ops|
  {
    if ops == [] {
      after := ls;
    } else {
      var next := AnyKeepsPartition(f, ls, ops[0], all);
      after := AnyRunKeepsPartition(Apply(f, ops[0]), next, ops[1..], all);
    }
  }

  /** Main result: start from disjoint duplicate-free lists of clean names and apply any run of enabling and
      disabling to the marker strings, whatever names are asked for. Read back, the strings still partition the
      same set of names. */
  lemma AvailableAndBlockedPartition(ls: Lists, ops: seq<Operation>, all: set<Name>)
    requires AllClean(ls.available) && AllClean(ls.blocked) && Partition(ls, all)
    ensures var f := Run(Fields(Print(ls.available), Print(ls.blocked)), ops);
      Partition(Lists(Parse(BotReader, f.available), Parse(BotReader, f.blocked)), all)
  {
    var after := AnyRunKeepsPartition(Fields(Print(ls.available), Print(ls.blocked)), ls, ops, all);
    PrintThenParse(BotReader, after.available);
    PrintThenParse(BotReader, after.blocked);
  }

  /** A request that is not harmless: it moves two markers at once. */
  lemma UncleanNameMovesTwo()
    ensures Toggle(Print(["a", "b"]), "", "a,<b") == Moved("", Print(["a", "b"]))
  {
    var text := Print(["a", "b"]);
    assert Print(["b"]) == "<b," && text == "<a,<b," == Format("a,<b");
    StartsWithItself(text);
    assert text + "" == text && "" + text == text;
    assert !Contains("", text);
  }

  // ---- The bot record ----

  class BotRecord {
    var blockPlugins: string
    var blockTasks: string
    var availablePlugins: string
    var availableTasks: string

    function FieldsOf(feature: Feature): Fields
      reads this
    {
      if feature.Plugins? then Fields(availablePlugins, blockPlugins) else Fields(availableTasks, blockTasks)
    }

    constructor ()
      ensures forall feature :: FieldsOf(feature) == Fields("", "")
    {
      blockPlugins, blockTasks, availablePlugins, availableTasks := "", "", "", "";
    }

    method SetFields(feature: Feature, f: Fields)
      modifies this
      ensures FieldsOf(feature) == f
      ensures forall other | other != feature :: FieldsOf(other) == old(FieldsOf(other))
    {
      if feature.Plugins? {
        availablePlugins, blockPlugins := f.available, f.blocked;
      } else {
        availableTasks, blockTasks := f.available, f.blocked;
      }
    }

    /** Move a marker between the feature's strings; `found` is false where the source raises. */
    method ToggleField(feature: Feature, disabling: bool, name: Name) returns (found: bool)
      modifies this
      ensures FieldsOf(feature) == Apply(old(FieldsOf(feature)), if disabling then Disable(name) else Enable(name))
      ensures forall other | other != feature :: FieldsOf(other) == old(FieldsOf(other))
      ensures var f := old(FieldsOf(feature));
        found <==> Contains(if disabling then f.available + f.blocked else f.blocked + f.available, Format(name))
    {
      var f := FieldsOf(feature);
      var source, target := f.blocked, f.available;
      if disabling {
        source, target := f.available, f.blocked;
      }
      var marker := Format(name);
      found := Contains(source + target, marker);
      if !found {
        return;
      }
      if Contains(source, marker) {
        source := RemoveText(source, marker);
        if !Contains(target, marker) {
          target := target + marker;
        }
      }
      SetFields(feature, if disabling then Fields(source, target) else Fields(target, source));
    }

    method SetAll(feature: Feature, disabling: bool)
      modifies this
      ensures FieldsOf(feature) == Apply(old(FieldsOf(feature)), if disabling then DisableAll else EnableAll)
      ensures forall other | other != feature :: FieldsOf(other) == old(FieldsOf(other))
    {
      var f := FieldsOf(feature);
      var all := Print(Parse(BotReader, f.available) + Parse(BotReader, f.blocked));
      SetFields(feature, if disabling then Fields("", all) else Fields(all, ""));
    }
  }
}
