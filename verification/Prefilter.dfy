/** Deciding from the text alone whether a matcher's rules can hold
    (bocchi/builtin_plugins/hooks/auth_activation.py:637-810, 1306-1332). The regular expression engine,
    case folding and HTML unescaping are parameters. */
module Prefilter {
  import opened Common
  import opened Text

  datatype Decision = Match | Miss | Unknown

  /** `regex(pattern, full, text, flags)` is None for a pattern the engine refuses. */
  datatype Engine = Engine(regex: (string, bool, string, int) -> Option<bool>,
                           casefold: string -> string, unescape: string -> string)

  datatype Rule =
    | Custom
    | Alconna
    | Command(commands: seq<string>)
    | Regex(pattern: string, full: bool, flags: int)
    | Startswith(values: seq<string>, ignorecase: bool)
    | Endswith(values: seq<string>, ignorecase: bool)
    | Fullmatch(values: seq<string>, ignorecase: bool)
    | Keywords(values: seq<string>)
    | ToMe
    | IsType(types: seq<string>)

  /** The message under both of its texts, the classes of its event if there is one. */
  datatype Message = Message(raw: string, plain: string, eventPlain: Option<string>, event: Option<set<string>>,
                             toMe: bool)

  // ---- Candidate texts ----

  function WithText(engine: Engine, candidates: seq<string>, text: string): seq<string> {
    var normalized := Trim(text);
    var first := if normalized != "" && normalized !in candidates then candidates + [normalized] else candidates;
    var unescaped := if normalized == "" then "" else engine.unescape(normalized);
    if unescaped != "" && unescaped !in first then first + [unescaped] else first
  }

  function Candidates(engine: Engine, m: Message): seq<string> {
    var fromPlain := WithText(engine, [], m.plain);
    var fromEvent := if m.eventPlain.Some? then WithText(engine, fromPlain, m.eventPlain.value) else fromPlain;
    WithText(engine, fromEvent, m.raw)
  }

  /** The text is there, stripped, and so is its unescaped form. */
  predicate Covered(engine: Engine, candidates: seq<string>, text: string) {
    var normalized := Trim(text);
    normalized != "" ==>
      && normalized in candidates
      && (engine.unescape(normalized) != "" ==> engine.unescape(normalized) in candidates)
  }

  lemma WithTextKeeps(engine: Engine, candidates: seq<string>, text: string)
    requires Distinct(candidates) && "" !in candidates
    ensures var more := WithText(engine, candidates, text);
      Distinct(more) && "" !in more && candidates <= more && Covered(engine, more, text)
  {
  }

  /** All the texts of a message. */
  function TextsOf(m: Message): seq<string> {
    [m.plain] + (if m.eventPlain.Some? then [m.eventPlain.value] else []) + [m.raw]
  }

  /** Every text of the message is a candidate when it is not blank, stripped and unescaped; no candidate is
      empty or there twice. */
  lemma CandidatesCoverTexts(engine: Engine, m: Message)
    ensures Distinct(Candidates(engine, m)) && "" !in Candidates(engine, m)
    ensures forall text | text in TextsOf(m) :: Covered(engine, Candidates(engine, m), text)
  {
    var fromPlain := WithText(engine, [], m.plain);
    var fromEvent := if m.eventPlain.Some? then WithText(engine, fromPlain, m.eventPlain.value) else fromPlain;
    WithTextKeeps(engine, [], m.plain);
    if m.eventPlain.Some? {
      WithTextKeeps(engine, fromPlain, m.eventPlain.value);
    }
    WithTextKeeps(engine, fromEvent, m.raw);
    var candidates := Candidates(engine, m);
    forall text | text in TextsOf(m) ensures Covered(engine, candidates, text) {
      if text == m.plain {
        StaysCovered(engine, fromPlain, fromEvent, text);
        StaysCovered(engine, fromEvent, candidates, text);
      } else if text != m.raw {
        StaysCovered(engine, fromEvent, candidates, text);
      }
    }
  }

  lemma StaysCovered(engine: Engine, candidates: seq<string>, more: seq<string>, text: string)
    requires candidates <= more && Covered(engine, candidates, text)
    ensures Covered(engine, more, text)
  {
    assert forall c | c in candidates :: c in more;
  }

  // ---- Commands ----

  predicate MatcherCommandMatches(engine: Engine, text: string, command: string) {
    var normalized := Trim(command);
    if normalized == "" then false
    else if StartsWith(normalized, "re:") then
      StartsWithIsPrefix(normalized, "re:");
      var pattern := Trim(normalized[3..]);
      pattern != "" && engine.regex(pattern, false, text, 0) == Some(true)
    else
      CommandMatches(text, normalized)
      || (StartsWith(text, normalized) && normalized[|normalized| - 1] > 127 as char)
  }

  predicate EndsWith(text: string, sub: string) { |sub| <= |text| && text[|text| - |sub|..] == sub }

  // ---- What a rule means ----

  datatype Meaning = Accepts | Rejects | Undecided

  function Fold(engine: Engine, ignorecase: bool, text: string): string {
    if ignorecase then engine.casefold(text) else text
  }

  function ValuesOf(rule: Rule): seq<string> {
    match rule
    case Command(commands) => commands
    case Startswith(values, _) => values
    case Endswith(values, _) => values
    case Fullmatch(values, _) => values
    case Keywords(values) => values
    case _ => []
  }

  predicate IgnoresCase(rule: Rule) { (rule.Startswith? || rule.Endswith? || rule.Fullmatch?) && rule.ignorecase }

  /** What the rule asks of one text and one value. */
  predicate PairHolds(engine: Engine, rule: Rule, text: string, value: string) {
    match rule
    case Command(_) => MatcherCommandMatches(engine, text, value)
    case Startswith(_, _) => value != "" && StartsWith(text, value)
    case Endswith(_, _) => value != "" && EndsWith(text, value)
    case Fullmatch(_, _) => text == value
    case Keywords(_) => value != "" && Contains(text, value)
    case _ => false
  }

  predicate TextRuleHolds(engine: Engine, rule: Rule, texts: seq<string>) {
    exists t, v | t in texts && v in ValuesOf(rule) ::
      PairHolds(engine, rule, Fold(engine, IgnoresCase(rule), t), Fold(engine, IgnoresCase(rule), v))
  }

  function MessageText(m: Message): string { if m.raw != "" then m.raw else m.plain }

  function Verdict(holds: bool): Meaning { if holds then Accepts else Rejects }

  /** What each rule says of the message. An empty pattern is found in every text and matches only the empty
      text in full; no event is an instance of no class at all. */
  function MeaningOf(engine: Engine, rule: Rule, m: Message): Meaning {
    match rule
    case Custom => Undecided
    case Alconna => Undecided
    case Regex(pattern, full, flags) =>
      if pattern == "" then Verdict(!full || MessageText(m) == "")
      else
        (match engine.regex(pattern, full, MessageText(m), flags)
         case None => Undecided
         case Some(found) => Verdict(found))
    case ToMe => Verdict(m.toMe)
    case IsType(types) =>
      if m.event.None? then Undecided else Verdict(exists t | t in types :: t in m.event.value)
    case _ => Verdict(TextRuleHolds(engine, rule, Candidates(engine, m)))
  }

  /** What the rules on texts ask of one text and one value. */
  lemma PairMeaning(engine: Engine, text: string, value: string, ignorecase: bool)
    ensures PairHolds(engine, Startswith([], ignorecase), text, value) <==>
            value != "" && exists rest :: text == value + rest
    ensures PairHolds(engine, Endswith([], ignorecase), text, value) <==>
            value != "" && exists front :: text == front + value
    ensures PairHolds(engine, Keywords([]), text, value) <==> value != "" && exists a, b :: text == a + value + b
    ensures PairHolds(engine, Fullmatch([], ignorecase), text, value) <==> text == value
  {
    BeginsMeaning(text, value);
    ContainsMeaning(text, value);
    if EndsWith(text, value) {
      assert text == text[..|text| - |value|] + value;
    }
  }

  /** Which rule is asked makes no difference but for its kind. */
  lemma PairIsOfKind(engine: Engine, rule: Rule, text: string, value: string)
    ensures PairHolds(engine, rule, text, value) ==
            match rule
            case Command(_) => PairHolds(engine, Command([]), text, value)
            case Startswith(_, _) => PairHolds(engine, Startswith([], false), text, value)
            case Endswith(_, _) => PairHolds(engine, Endswith([], false), text, value)
            case Fullmatch(_, _) => PairHolds(engine, Fullmatch([], false), text, value)
            case Keywords(_) => PairHolds(engine, Keywords([]), text, value)
            case _ => false
  {
  }

  /** What a command asks of a text: a blank command nothing at all, one that begins with "re:" that the pattern behind
      it is found, one that ends with an ASCII character that it stands alone or before white space, any other one
      that the text begins with it. */
  lemma CommandMeaning(engine: Engine, text: string, command: string)
    ensures var normal := Trim(command);
      PairHolds(engine, Command([]), text, command) <==>
        && normal != ""
        && if |normal| >= 3 && normal[..3] == "re:"
           then Trim(normal[3..]) != "" && engine.regex(Trim(normal[3..]), false, text, 0) == Some(true)
           else exists rest :: text == normal + rest
                  && (rest == "" || IsSpace(rest[0]) || normal[|normal| - 1] > 127 as char)
  {
    var normal := Trim(command);
    StartsWithIsPrefix(normal, "re:");
    BeginsMeaning(text, normal);
    CommandMatchesMeaning(text, normal);
  }

  /** What the other rules ask: a pattern that it is found in the raw text, or in the plain one if there is none; to-me
      that the message is; a type that the event is an instance of some class. */
  lemma OtherMeaning(engine: Engine, m: Message, pattern: string, full: bool, flags: int, types: seq<string>)
    ensures pattern != "" ==>
      MeaningOf(engine, Regex(pattern, full, flags), m) ==
        match engine.regex(pattern, full, if m.raw == "" then m.plain else m.raw, flags)
        case None => Undecided
        case Some(found) => if found then Accepts else Rejects
    ensures MeaningOf(engine, ToMe, m) == if m.toMe then Accepts else Rejects
    ensures m.event.Some? ==>
      (MeaningOf(engine, IsType(types), m) == Accepts <==> exists t :: t in types && t in m.event.value)
  {
  }

  // ---- The decision ----

  /** Rules the loop passes over without looking at the message. */
  predicate Skipped(rule: Rule, m: Message) {
    (rule.Regex? && rule.pattern == "") || (rule.IsType? && rule.types == [] && m.event.Some?)
  }

  /** The loop ends at such a rule. */
  predicate Ends(engine: Engine, rule: Rule, m: Message) {
    && !rule.Custom? && !rule.Alconna? && !Skipped(rule, m)
    && MeaningOf(engine, rule, m) != Accepts
  }

  predicate Deterministic(rule: Rule) {
    !rule.Custom? && !rule.Alconna? && !rule.ToMe? && !rule.IsType?
  }

  /** The decision, by the first rule that ends the loop and by what kinds of rules there are. */
  function Decide(engine: Engine, rules: seq<Rule>, m: Message): Decision {
    if exists i | 0 <= i < |rules| :: Ends(engine, rules[i], m) then
      var i := FirstEnd(engine, rules, m);
      if MeaningOf(engine, rules[i], m) == Rejects then Miss else Unknown
    else if exists i | 0 <= i < |rules| :: rules[i].Custom? || rules[i].Alconna? then Unknown
    else if exists i | 0 <= i < |rules| :: Deterministic(rules[i]) && !Skipped(rules[i], m) then Match
    else if exists i | 0 <= i < |rules| :: Deterministic(rules[i]) then Miss
    else Unknown
  }

  function FirstEnd(engine: Engine, rules: seq<Rule>, m: Message): (i: nat)
    requires exists i | 0 <= i < |rules| :: Ends(engine, rules[i], m)
    ensures i < |rules| && Ends(engine, rules[i], m)
    ensures forall k | 0 <= k < i :: !Ends(engine, rules[k], m)
  {
    if Ends(engine, rules[0], m) then 0
    else
      assert exists i | 0 <= i < |rules[1..]| :: Ends(engine, rules[1..][i], m) by {
        var i :| 0 <= i < |rules| && Ends(engine, rules[i], m);
        assert rules[1..][i - 1] == rules[i];
      }
      1 + FirstEnd(engine, rules[1..], m)
  }

  // ---- Soundness ----

  predicate EmptyPattern(rule: Rule) { rule.Regex? && rule.pattern == "" }

  ghost predicate SomeRejects(engine: Engine, rules: seq<Rule>, m: Message) {
    exists i :: 0 <= i < |rules| && MeaningOf(engine, rules[i], m) == Rejects
  }

  /** A miss is justified by a rule that rejects, as long as no regular expression is empty. */
  lemma MissIsSound(engine: Engine, rules: seq<Rule>, m: Message)
    requires forall i | 0 <= i < |rules| :: !EmptyPattern(rules[i])
    ensures Decide(engine, rules, m) == Miss ==> SomeRejects(engine, rules, m)
  {
  }

  /** Rules that accept without counting as a match. */
  predicate AcceptsSilently(engine: Engine, rule: Rule, m: Message) {
    (rule.ToMe? || rule.IsType? || EmptyPattern(rule)) && MeaningOf(engine, rule, m) == Accepts
  }

  /** With empty patterns: a miss that no rule justifies is exactly a list of accepting rules none of which
      counts as a match, an empty pattern among them. */
  lemma UnsoundMissIff(engine: Engine, rules: seq<Rule>, m: Message)
    ensures Decide(engine, rules, m) == Miss && !SomeRejects(engine, rules, m) <==>
            && (exists i :: 0 <= i < |rules| && EmptyPattern(rules[i]))
            && (forall i | 0 <= i < |rules| :: AcceptsSilently(engine, rules[i], m))
  {
  }

  /** An empty search pattern accepts every message, but the decision is a miss. */
  lemma EmptyPatternMisses(engine: Engine, m: Message)
    ensures var rules := [Regex("", false, 0)];
      MeaningOf(engine, rules[0], m) == Accepts && Decide(engine, rules, m) == Miss
  {
  }

  /** A match is decided exactly when no rule is opaque, every rule accepts or is skipped, and a text rule
      is among those that accept. */
  lemma MatchIff(engine: Engine, rules: seq<Rule>, m: Message)
    ensures Decide(engine, rules, m) == Match <==>
            && (forall i | 0 <= i < |rules| :: !rules[i].Custom? && !rules[i].Alconna?
                  && (Skipped(rules[i], m) || MeaningOf(engine, rules[i], m) == Accepts))
            && (exists i :: 0 <= i < |rules| && Deterministic(rules[i]) && !Skipped(rules[i], m))
  {
  }

  /** The rules whose skipping matters. */
  predicate SkippedButRejects(rule: Rule, m: Message) {
    || (EmptyPattern(rule) && rule.full && MessageText(m) != "")
    || (rule.IsType? && rule.types == [])
  }

  /** After a match every rule accepts, unless a full match with the empty pattern or an empty list of
      classes was skipped. */
  lemma MatchIsSound(engine: Engine, rules: seq<Rule>, m: Message)
    requires Decide(engine, rules, m) == Match
    ensures (forall i | 0 <= i < |rules| :: MeaningOf(engine, rules[i], m) == Accepts)
            <==> (forall i | 0 <= i < |rules| :: !SkippedButRejects(rules[i], m))
  {
    MatchIff(engine, rules, m);
    forall i | 0 <= i < |rules|
      ensures MeaningOf(engine, rules[i], m) == Accepts <==> !SkippedButRejects(rules[i], m)
    {
      SkippedOrAccepts(engine, rules[i], m);
    }
  }

  lemma SkippedOrAccepts(engine: Engine, rule: Rule, m: Message)
    requires Skipped(rule, m) || MeaningOf(engine, rule, m) == Accepts
    ensures MeaningOf(engine, rule, m) == Accepts <==> !SkippedButRejects(rule, m)
  {
  }

  predicate Opaque(rule: Rule) { rule.Custom? || rule.Alconna? }

  /** A rule that looks at the message rejects it, and every earlier rule can be decided or is opaque. */
  ghost predicate RejectionReached(engine: Engine, rules: seq<Rule>, m: Message, i: nat) {
    && i < |rules| && MeaningOf(engine, rules[i], m) == Rejects && !Skipped(rules[i], m)
    && forall k | 0 <= k < i :: MeaningOf(engine, rules[k], m) != Undecided || Opaque(rules[k])
  }

  /** A rejecting rule is not overlooked: the decision is a miss unless an earlier rule cannot be decided. */
  lemma RejectionIsFound(engine: Engine, rules: seq<Rule>, m: Message, i: nat)
    requires RejectionReached(engine, rules, m, i)
    ensures Decide(engine, rules, m) == Miss
  {
  }

  // ---- What a decision may say ----

  ghost predicate AcceptsAllSilently(engine: Engine, rules: seq<Rule>, m: Message) {
    && (exists i :: 0 <= i < |rules| && EmptyPattern(rules[i]))
    && (forall i | 0 <= i < |rules| :: AcceptsSilently(engine, rules[i], m))
  }

  /** A miss is justified by a rejecting rule, but for lists of silently accepting rules; after a match every
      rule accepts, but for those whose skipping matters; a rejection that is reached is a miss. */
  ghost predicate Sound(engine: Engine, rules: seq<Rule>, m: Message, decision: Decision) {
    && (decision == Miss && !SomeRejects(engine, rules, m) <==> AcceptsAllSilently(engine, rules, m))
    && (decision == Match ==>
          forall i | 0 <= i < |rules| :: !Opaque(rules[i])
            && (MeaningOf(engine, rules[i], m) == Accepts <==> !SkippedButRejects(rules[i], m)))
    && (forall i: nat :: RejectionReached(engine, rules, m, i) ==> decision == Miss)
  }

  lemma DecisionIsSound(engine: Engine, rules: seq<Rule>, m: Message)
    ensures Sound(engine, rules, m, Decide(engine, rules, m))
  {
    var decision := Decide(engine, rules, m);
    UnsoundMissIff(engine, rules, m);
    if decision == Match {
      MatchIff(engine, rules, m);
      forall i | 0 <= i < |rules|
        ensures MeaningOf(engine, rules[i], m) == Accepts <==> !SkippedButRejects(rules[i], m)
      {
        SkippedOrAccepts(engine, rules[i], m);
      }
    }
    forall i: nat | RejectionReached(engine, rules, m, i) ensures decision == Miss {
      RejectionIsFound(engine, rules, m, i);
    }
  }

  // ---- The loops ----

  method FoldAll(engine: Engine, ignorecase: bool, texts: seq<string>) returns (folded: seq<string>)
    ensures |folded| == |texts|
    ensures forall k | 0 <= k < |texts| :: folded[k] == Fold(engine, ignorecase, texts[k])
  {
    if !ignorecase {
      return texts;
    }
    folded := [];
    var i := 0;
    while i < |texts|
      invariant 0 <= i == |folded| <= |texts|
      invariant forall k | 0 <= k < i :: folded[k] == Fold(engine, ignorecase, texts[k])
    {
      folded := folded + [engine.casefold(texts[i])];
      i := i + 1;
    }
  }

  /** any(... for text in texts for value in values) */
  method AnyPair(engine: Engine, rule: Rule, texts: seq<string>, values: seq<string>) returns (found: bool)
    ensures found <==>
            exists i, j :: 0 <= i < |texts| && 0 <= j < |values| && PairHolds(engine, rule, texts[i], values[j])
  {
    var i := 0;
    while i < |texts|
      invariant 0 <= i <= |texts|
      invariant forall k, j | 0 <= k < i && 0 <= j < |values| :: !PairHolds(engine, rule, texts[k], values[j])
    {
      var l := 0;
      while l < |values|
        invariant 0 <= l <= |values|
        invariant forall j | 0 <= j < l :: !PairHolds(engine, rule, texts[i], values[j])
      {
        if PairHolds(engine, rule, texts[i], values[l]) {
          return true;
        }
        l := l + 1;
      }
      i := i + 1;
    }
    return false;
  }

  /** A text rule: fold what it folds, then look for a pair that holds. */
  method LookAtTexts(engine: Engine, rule: Rule, candidates: seq<string>) returns (holds: bool)
    ensures holds == TextRuleHolds(engine, rule, candidates)
  {
    var values := FoldAll(engine, IgnoresCase(rule), ValuesOf(rule));
    var texts := FoldAll(engine, IgnoresCase(rule), candidates);
    holds := AnyPair(engine, rule, texts, values);
    SomePairIff(engine, rule, candidates, texts, values);
  }

  lemma SomePairIff(engine: Engine, rule: Rule, candidates: seq<string>, texts: seq<string>, values: seq<string>)
    requires |texts| == |candidates| && |values| == |ValuesOf(rule)|
    requires forall k | 0 <= k < |texts| :: texts[k] == Fold(engine, IgnoresCase(rule), candidates[k])
    requires forall k | 0 <= k < |values| :: values[k] == Fold(engine, IgnoresCase(rule), ValuesOf(rule)[k])
    ensures TextRuleHolds(engine, rule, candidates) <==>
            exists i, j :: 0 <= i < |texts| && 0 <= j < |values| && PairHolds(engine, rule, texts[i], values[j])
  {
    var ignorecase := IgnoresCase(rule);
    if t, v :| t in candidates && v in ValuesOf(rule)
               && PairHolds(engine, rule, Fold(engine, ignorecase, t), Fold(engine, ignorecase, v)) {
      var i :| 0 <= i < |candidates| && candidates[i] == t;
      var j :| 0 <= j < |ValuesOf(rule)| && ValuesOf(rule)[j] == v;
      assert PairHolds(engine, rule, texts[i], values[j]);
    }
    if i, j :| 0 <= i < |texts| && 0 <= j < |values| && PairHolds(engine, rule, texts[i], values[j]) {
      assert candidates[i] in candidates && ValuesOf(rule)[j] in ValuesOf(rule);
    }
  }

  /** One rule: None to go on, with whether it counts as a match. */
  method Look(engine: Engine, rule: Rule, m: Message, candidates: seq<string>)
    returns (stop: Option<Decision>, matched: bool)
    requires candidates == Candidates(engine, m)
    ensures stop == if !Ends(engine, rule, m) then None
                    else Some(if MeaningOf(engine, rule, m) == Rejects then Miss else Unknown)
    ensures stop.None? ==> (matched <==> Deterministic(rule) && !Skipped(rule, m))
  {
    stop, matched := None, false;
    match rule
    case Regex(pattern, full, flags) =>
      if pattern != "" {
        var found := engine.regex(pattern, full, if m.raw != "" then m.raw else m.plain, flags);
        if found.None? {
          stop := Some(Unknown);
        } else if found.value {
          matched := true;
        } else {
          stop := Some(Miss);
        }
      }
    case Custom =>
    case Alconna =>
    case ToMe =>
      if !m.toMe {
        stop := Some(Miss);
      }
    case IsType(types) =>
      if m.event.None? {
        stop := Some(Unknown);
      } else if types != [] && !exists t | t in types :: t in m.event.value {
        stop := Some(Miss);
      }
    case _ =>
      var holds := LookAtTexts(engine, rule, candidates);
      if holds {
        matched := true;
      } else {
        stop := Some(Miss);
      }
  }

  /** What the flags say of the rules looked at so far. */
  ghost predicate Flags(engine: Engine, rules: seq<Rule>, m: Message,
                        matchedAny: bool, sawDeterministic: bool, sawUnknown: bool)
  {
    && (forall k | 0 <= k < |rules| :: !Ends(engine, rules[k], m))
    && (sawUnknown <==> exists k :: 0 <= k < |rules| && (rules[k].Custom? || rules[k].Alconna?))
    && (sawDeterministic <==> exists k :: 0 <= k < |rules| && Deterministic(rules[k]))
    && (matchedAny <==> exists k :: 0 <= k < |rules| && Deterministic(rules[k]) && !Skipped(rules[k], m))
  }

  lemma FlagsGrow(engine: Engine, rules: seq<Rule>, m: Message,
                  matchedAny: bool, sawDeterministic: bool, sawUnknown: bool, rule: Rule)
    requires Flags(engine, rules, m, matchedAny, sawDeterministic, sawUnknown) && !Ends(engine, rule, m)
    ensures Flags(engine, rules + [rule], m, matchedAny || (Deterministic(rule) && !Skipped(rule, m)),
                  sawDeterministic || Deterministic(rule), sawUnknown || rule.Custom? || rule.Alconna?)
  {
    var more, n := rules + [rule], |rules|;
    assert forall k | 0 <= k < n :: more[k] == rules[k];
    assert more[n] == rule;
  }

  lemma FlagsDecide(engine: Engine, rules: seq<Rule>, m: Message,
                    matchedAny: bool, sawDeterministic: bool, sawUnknown: bool)
    requires Flags(engine, rules, m, matchedAny, sawDeterministic, sawUnknown)
    ensures Decide(engine, rules, m)
            == if sawUnknown then Unknown else if matchedAny then Match else if sawDeterministic then Miss else Unknown
  {
  }

  lemma FirstStop(engine: Engine, rules: seq<Rule>, m: Message, i: nat)
    requires i < |rules| && Ends(engine, rules[i], m) && forall k | 0 <= k < i :: !Ends(engine, rules[k], m)
    ensures Decide(engine, rules, m) == if MeaningOf(engine, rules[i], m) == Rejects then Miss else Unknown
  {
  }

  /** The decision of the loop, and that it is sound. */
  method MatcherRuleMatchesText(engine: Engine, rules: seq<Rule>, m: Message) returns (decision: Decision)
    ensures decision == Decide(engine, rules, m)
    ensures Sound(engine, rules, m, decision)
  {
    decision := DecideInOrder(engine, rules, m);
    DecisionIsSound(engine, rules, m);
  }

  method DecideInOrder(engine: Engine, rules: seq<Rule>, m: Message) returns (decision: Decision)
    ensures decision == Decide(engine, rules, m)
  {
    var matchedAny, sawDeterministic, sawUnknown := false, false, false;
    var candidates := Candidates(engine, m);
    var i := 0;
    while i < |rules|
      invariant 0 <= i <= |rules|
      invariant Flags(engine, rules[..i], m, matchedAny, sawDeterministic, sawUnknown)
    {
      var stop, matched := Look(engine, rules[i], m, candidates);
      NextRule(engine, rules, m, i, matchedAny, sawDeterministic, sawUnknown);
      if stop.Some? {
        return stop.value;
      }
      sawUnknown := sawUnknown || rules[i].Custom? || rules[i].Alconna?;
      sawDeterministic := sawDeterministic || Deterministic(rules[i]);
      matchedAny := matchedAny || matched;
      i := i + 1;
    }
    assert rules[..i] == rules;
    FlagsDecide(engine, rules, m, matchedAny, sawDeterministic, sawUnknown);
    if matchedAny {
      return if sawUnknown then Unknown else Match;
    }
    return if sawUnknown then Unknown else if sawDeterministic then Miss else Unknown;
  }

  lemma NextRule(engine: Engine, rules: seq<Rule>, m: Message, i: nat,
                 matchedAny: bool, sawDeterministic: bool, sawUnknown: bool)
    requires i < |rules| && Flags(engine, rules[..i], m, matchedAny, sawDeterministic, sawUnknown)
    ensures var rule := rules[i];
      if Ends(engine, rule, m)
      then Decide(engine, rules, m) == if MeaningOf(engine, rule, m) == Rejects then Miss else Unknown
      else Flags(engine, rules[..i + 1], m, matchedAny || (Deterministic(rule) && !Skipped(rule, m)),
                 sawDeterministic || Deterministic(rule), sawUnknown || rule.Custom? || rule.Alconna?)
  {
    if Ends(engine, rules[i], m) {
      assert forall k | 0 <= k < i :: rules[..i][k] == rules[k];
      FirstStop(engine, rules, m, i);
    } else {
      assert rules[..i + 1] == rules[..i] + [rules[i]];
      FlagsGrow(engine, rules[..i], m, matchedAny, sawDeterministic, sawUnknown, rules[i]);
    }
  }
}
