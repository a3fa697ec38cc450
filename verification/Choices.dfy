/** Whether a matcher is looked at for an event (bocchi/builtin_plugins/hooks/auth_activation.py:139-155, 272-370).
    What a shortcut, a command head of an Alconna matcher, and the heads of a route find in a text are parameters. */
module Choices {
  import opened Common
  import opened Text
  import opened Prefilter

  datatype Choice = Select | Skip | Certain

  /** The shortcuts are None for a matcher without any; whether it may be throttled is decided elsewhere. */
  datatype Descriptor = Descriptor(matcher: nat, owner: string, temp: bool, matcherType: string, commandLike: bool,
                                   customRule: bool, commands: seq<string>, shortcuts: Option<seq<string>>,
                                   alconna: seq<string>, rules: seq<Rule>, throttleable: bool, lane: string)

  datatype Context = Context(engine: Engine, message: Message, eventType: string, routeOwners: set<string>,
                             shortcutMatches: (string, string) -> bool,
                             headDecision: (string, seq<string>) -> Decision,
                             onRoute: (seq<string>, Option<seq<string>>) -> bool)

  function TextsOf(c: Context): seq<string> { Candidates(c.engine, c.message) }

  function RuleDecision(d: Descriptor, c: Context): Decision { Decide(c.engine, d.rules, c.message) }

  // ---- What is found in the texts ----

  predicate CommandFound(d: Descriptor, c: Context) {
    exists t, command | t in TextsOf(c) && command in d.commands :: MatcherCommandMatches(c.engine, t, command)
  }

  predicate ShortcutFound(d: Descriptor, c: Context) {
    d.shortcuts.Some? && exists t, s | t in TextsOf(c) && s in d.shortcuts.value :: c.shortcutMatches(t, s)
  }

  /** A head that matches settles it, a head that cannot be decided keeps the matcher. */
  function DecideHeads(decide: (string, seq<string>) -> Decision, heads: seq<string>, texts: seq<string>): Decision {
    if exists head | head in heads :: decide(head, texts) == Match then Match
    else if exists head | head in heads :: decide(head, texts) == Unknown then Unknown
    else Miss
  }

  function HeadsDecision(d: Descriptor, c: Context): Decision { DecideHeads(c.headDecision, d.alconna, TextsOf(c)) }

  // ---- The choice ----

  /** The choice for a command-like matcher that nothing has ruled out. */
  function Settle(d: Descriptor, c: Context, found: bool): Choice {
    var matched := found
                   || (RuleDecision(d, c) == Match && !d.customRule && d.shortcuts.None? && d.alconna == []);
    if d.commands == [] && d.shortcuts.None? && !matched && d.alconna == [] then Select
    else if c.routeOwners != {} && d.owner !in c.routeOwners && !c.onRoute(d.commands, d.shortcuts) then Select
    else if matched && !d.customRule then Certain
    else Select
  }

  function ChooseCommand(d: Descriptor, c: Context): Choice {
    if TextsOf(c) == [] then Select
    else if RuleDecision(d, c) == Miss then Skip
    else if d.alconna != [] then
      (match HeadsDecision(d, c)
       case Match => Settle(d, c, true)
       case Miss => Skip
       case Unknown => Select)
    else if d.commands != [] && !CommandFound(d, c) && !ShortcutFound(d, c) then
      if d.customRule then Select else Skip
    else Settle(d, c, CommandFound(d, c) || ShortcutFound(d, c))
  }

  function Choose(d: Descriptor, c: Context): Choice {
    if d.temp then Select
    else if d.matcherType != "" && d.matcherType != c.eventType then Skip
    else if c.eventType != "message" then if d.commandLike then Skip else Select
    else if d.commandLike then ChooseCommand(d, c)
    else
      match RuleDecision(d, c)
      case Match => Certain
      case Miss => Skip
      case Unknown => Select
  }

  // ---- When a matcher is dropped ----

  predicate OfOtherType(d: Descriptor, c: Context) { d.matcherType != "" && d.matcherType != c.eventType }

  /** Nothing in any text calls the matcher: no head of its Alconna commands, or else none of its commands and
      shortcuts. */
  ghost predicate NotCalled(d: Descriptor, c: Context) {
    if d.alconna != [] then forall head | head in d.alconna :: c.headDecision(head, TextsOf(c)) == Miss
    else
      && d.commands != [] && !d.customRule
      && (forall t, command | t in TextsOf(c) && command in d.commands ::
            !MatcherCommandMatches(c.engine, t, command))
      && (forall t, s | t in TextsOf(c) && d.shortcuts.Some? && s in d.shortcuts.value :: !c.shortcutMatches(t, s))
  }

  lemma HeadsMissIff(d: Descriptor, c: Context)
    ensures HeadsDecision(d, c) == Miss <==>
            forall head | head in d.alconna :: c.headDecision(head, TextsOf(c)) == Miss
  {
    if head :| head in d.alconna && c.headDecision(head, TextsOf(c)) != Miss {
      assert c.headDecision(head, TextsOf(c)) in {Match, Unknown};
    }
  }

  /** Main result: a matcher is dropped for a message exactly when it is not a temporary one and is of another
      type, or its rules decide against the message, or it is like a command and nothing calls it. */
  lemma DroppedIff(d: Descriptor, c: Context)
    requires c.eventType == "message"
    ensures Choose(d, c) == Skip <==>
            && !d.temp
            && (|| OfOtherType(d, c)
                || (RuleDecision(d, c) == Miss && (d.commandLike ==> TextsOf(c) != []))
                || (d.commandLike && TextsOf(c) != [] && NotCalled(d, c)))
  {
    HeadsMissIff(d, c);
  }

  /** Main result: so a matcher is dropped for its type, because a rule of it rejects the message, or because
      nothing calls it, as long as none of its regular expressions is empty. */
  lemma DroppedForAReason(d: Descriptor, c: Context)
    requires c.eventType == "message" && Choose(d, c) == Skip
    requires forall i | 0 <= i < |d.rules| :: !EmptyPattern(d.rules[i])
    ensures !d.temp
    ensures OfOtherType(d, c) || SomeRejects(c.engine, d.rules, c.message) || (d.commandLike && NotCalled(d, c))
  {
    DroppedIff(d, c);
    MissIsSound(c.engine, d.rules, c.message);
  }

  /** An event that is no message drops just the matchers of another type and those like commands; it makes none
      certain. */
  lemma OtherEventsDropIff(d: Descriptor, c: Context)
    requires c.eventType != "message"
    ensures Choose(d, c) == Skip <==> !d.temp && (OfOtherType(d, c) || d.commandLike)
    ensures Choose(d, c) != Certain
  {
  }

  /** Main result: a matcher is certain exactly for a message of its type that its rules or its command settle: one
      that is not like a command when its rules match; one that is, when it has no custom rule, something calls it or,
      for one without shortcuts and Alconna commands, its rules match, and no route goes elsewhere. */
  lemma CertainIff(d: Descriptor, c: Context)
    ensures Choose(d, c) == Certain <==>
            && !d.temp && !OfOtherType(d, c) && c.eventType == "message"
            && if !d.commandLike then RuleDecision(d, c) == Match
               else
                 && TextsOf(c) != [] && RuleDecision(d, c) != Miss && !d.customRule
                 && (c.routeOwners == {} || d.owner in c.routeOwners || c.onRoute(d.commands, d.shortcuts))
                 && if d.alconna != [] then HeadsDecision(d, c) == Match
                    else
                      || CommandFound(d, c) || ShortcutFound(d, c)
                      || (d.commands == [] && d.shortcuts.None? && RuleDecision(d, c) == Match)
  {
  }

  /** A matcher for plain commands: its one rule is for them. */
  predicate PlainCommands(d: Descriptor) {
    && !d.temp && d.matcherType in {"", "message"} && d.commandLike
    && d.commands != [] && d.rules == [Command(d.commands)]
    && d.alconna == [] && d.shortcuts.None? && !d.customRule
  }

  lemma CommandRuleIff(engine: Engine, commands: seq<string>, texts: seq<string>)
    ensures TextRuleHolds(engine, Command(commands), texts) <==>
            exists t, command | t in texts && command in commands :: MatcherCommandMatches(engine, t, command)
  {
    var rule := Command(commands);
    if t, command :| t in texts && command in commands && MatcherCommandMatches(engine, t, command) {
      assert PairHolds(engine, rule, Fold(engine, IgnoresCase(rule), t), Fold(engine, IgnoresCase(rule), command));
    }
  }

  lemma OneRuleDecides(engine: Engine, commands: seq<string>, m: Message)
    ensures var holds := TextRuleHolds(engine, Command(commands), Candidates(engine, m));
      Decide(engine, [Command(commands)], m) == if holds then Match else Miss
  {
    var rules := [Command(commands)];
    assert rules[0] == Command(commands);
    if TextRuleHolds(engine, Command(commands), Candidates(engine, m)) {
      MatchIff(engine, rules, m);
    } else {
      RejectionIsFound(engine, rules, m, 0);
    }
  }

  lemma CommandRuleDecides(d: Descriptor, c: Context)
    requires PlainCommands(d)
    ensures RuleDecision(d, c) == if CommandFound(d, c) then Match else Miss
  {
    CommandRuleIff(c.engine, d.commands, TextsOf(c));
    OneRuleDecides(c.engine, d.commands, c.message);
  }

  /** Main result: a matcher for plain commands is dropped for a message with a text exactly when no text calls one
      of them; when one is called it is certain, unless a route names other owners and other heads. */
  lemma PlainCommandsIff(d: Descriptor, c: Context)
    requires PlainCommands(d) && c.eventType == "message"
    ensures Choose(d, c) == Skip <==> TextsOf(c) != [] && !CommandFound(d, c)
    ensures Choose(d, c) == Certain <==>
            CommandFound(d, c) && (c.routeOwners == {} || d.owner in c.routeOwners || c.onRoute(d.commands, None))
  {
    CommandRuleDecides(d, c);
  }

  /** A command that is stripped, no pattern, and ends with an ASCII character. */
  predicate PlainCommand(command: string) {
    && command != "" && Trim(command) == command && !StartsWith(command, "re:")
    && command[|command| - 1] <= 127 as char
  }

  /** What it is to call such a command: it stands alone or before white space. */
  lemma PlainCommandCalledIff(engine: Engine, text: string, command: string)
    requires PlainCommand(command)
    ensures MatcherCommandMatches(engine, text, command) <==>
            exists rest :: text == command + rest && (rest == "" || IsSpace(rest[0]))
  {
    CommandMatchesMeaning(text, command);
  }

  // ---- The loops ----

  method Calls(engine: Engine, text: string, commands: seq<string>) returns (found: bool)
    ensures found <==> exists command | command in commands :: MatcherCommandMatches(engine, text, command)
  {
    var j := 0;
    while j < |commands|
      invariant 0 <= j <= |commands|
      invariant forall k | 0 <= k < j :: !MatcherCommandMatches(engine, text, commands[k])
    {
      if MatcherCommandMatches(engine, text, commands[j]) {
        return true;
      }
      j := j + 1;
    }
    return false;
  }

  method AnyCommand(engine: Engine, commands: seq<string>, texts: seq<string>) returns (found: bool)
    ensures found <==>
            exists t, command | t in texts && command in commands :: MatcherCommandMatches(engine, t, command)
  {
    var i := 0;
    while i < |texts|
      invariant 0 <= i <= |texts|
      invariant forall k | 0 <= k < i ::
        forall command | command in commands :: !MatcherCommandMatches(engine, texts[k], command)
    {
      found := Calls(engine, texts[i], commands);
      if found {
        return;
      }
      i := i + 1;
    }
    return false;
  }

  method AnyOf(finds: string -> bool, values: seq<string>) returns (found: bool)
    ensures found <==> exists v | v in values :: finds(v)
  {
    var j := 0;
    while j < |values|
      invariant 0 <= j <= |values|
      invariant forall k | 0 <= k < j :: !finds(values[k])
    {
      if finds(values[j]) {
        return true;
      }
      j := j + 1;
    }
    return false;
  }

  method AnyShortcut(matches: (string, string) -> bool, shortcuts: Option<seq<string>>, texts: seq<string>)
    returns (found: bool)
    ensures found <==>
            shortcuts.Some? && exists t, s | t in texts && s in shortcuts.value :: matches(t, s)
  {
    if shortcuts.None? {
      return false;
    }
    var i := 0;
    while i < |texts|
      invariant 0 <= i <= |texts|
      invariant forall k | 0 <= k < i :: forall s | s in shortcuts.value :: !matches(texts[k], s)
    {
      var text := texts[i];
      found := AnyOf(s => matches(text, s), shortcuts.value);
      if found {
        return;
      }
      i := i + 1;
    }
    return false;
  }

  /** The loop of the Alconna index over the heads. */
  method SelectHeads(decide: (string, seq<string>) -> Decision, heads: seq<string>, texts: seq<string>)
    returns (decision: Decision)
    ensures decision == DecideHeads(decide, heads, texts)
  {
    var sawUnknown, i := false, 0;
    while i < |heads|
      invariant 0 <= i <= |heads|
      invariant forall k | 0 <= k < i :: decide(heads[k], texts) != Match
      invariant sawUnknown <==> exists k :: 0 <= k < i && decide(heads[k], texts) == Unknown
    {
      var found := decide(heads[i], texts);
      if found == Match {
        assert heads[i] in heads;
        return Match;
      }
      sawUnknown := sawUnknown || found == Unknown;
      i := i + 1;
    }
    return if sawUnknown then Unknown else Miss;
  }

  method SelectCommandDescriptor(d: Descriptor, c: Context) returns (choice: Choice)
    ensures choice == ChooseCommand(d, c)
  {
    var texts := Candidates(c.engine, c.message);
    if texts == [] {
      return Select;
    }
    var ruleMatch := MatcherRuleMatchesText(c.engine, d.rules, c.message);
    if ruleMatch == Miss {
      return Skip;
    }
    var commandMatched := false;
    if d.alconna != [] {
      var heads := SelectHeads(c.headDecision, d.alconna, texts);
      if heads == Miss {
        return Skip;
      } else if heads == Unknown {
        return Select;
      }
      commandMatched := true;
    } else if d.commands != [] {
      commandMatched := AnyCommand(c.engine, d.commands, texts);
      if !commandMatched {
        commandMatched := AnyShortcut(c.shortcutMatches, d.shortcuts, texts);
        if !commandMatched {
          return if d.customRule then Select else Skip;
        }
      }
    } else {
      commandMatched := AnyShortcut(c.shortcutMatches, d.shortcuts, texts);
    }
    if ruleMatch == Match && !d.customRule && d.shortcuts.None? && d.alconna == [] {
      commandMatched := true;
    }
    if d.commands == [] && d.shortcuts.None? && !commandMatched && d.alconna == [] {
      return Select;
    }
    if c.routeOwners != {} && d.owner !in c.routeOwners && !c.onRoute(d.commands, d.shortcuts) {
      return Select;
    }
    return if commandMatched && !d.customRule then Certain else Select;
  }

  method SelectDescriptor(d: Descriptor, c: Context) returns (choice: Choice)
    ensures choice == Choose(d, c)
  {
    if d.temp {
      return Select;
    }
    if d.matcherType != "" && d.matcherType != c.eventType {
      return Skip;
    }
    if c.eventType != "message" {
      return if d.commandLike then Skip else Select;
    }
    if d.commandLike {
      choice := SelectCommandDescriptor(d, c);
      return;
    }
    var ruleMatch := MatcherRuleMatchesText(c.engine, d.rules, c.message);
    return match ruleMatch case Match => Certain case Miss => Skip case Unknown => Select;
  }
}
