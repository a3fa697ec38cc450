/** The command route index by first character (bocchi/builtin_plugins/hooks/auth_checker.py:234-291). */
module RouteIndex {
  import opened Text

  /** A loaded plugin with the commands extracted from it, none of them empty. */
  datatype Plugin = Plugin(name: string, moduleName: string, commands: set<string>, ambiguous: bool)

  predicate Indexed(plugin: Plugin) { plugin.commands != {} && !plugin.ambiguous }

  predicate WellFormed(plugins: seq<Plugin>) { forall i | 0 <= i < |plugins| :: "" !in plugins[i].commands }

  /** All (command, module) pairs that go into the index. */
  ghost function Pairs(plugins: seq<Plugin>): set<(string, string)> {
    if plugins == [] then {}
    else Pairs(plugins[..|plugins| - 1]) + PairsOf(plugins[|plugins| - 1])
  }

  lemma {:induction false} PairsMeaning(plugins: seq<Plugin>, command: string, module_: string)
    ensures (command, module_) in Pairs(plugins) <==>
      exists i :: 0 <= i < |plugins| && !plugins[i].ambiguous
                  && plugins[i].name == module_ && command in plugins[i].commands
  {
    if plugins == [] {
    } else {
      var init, last := plugins[..|plugins| - 1], plugins[|plugins| - 1];
      assert plugins == init + [last];
      PairsMeaning(init, command, module_);
      if i :| 0 <= i < |init| && !init[i].ambiguous && init[i].name == module_ && command in init[i].commands {
        assert plugins[i] == init[i];
      }
    }
  }

  /** The modules that have commands in the index, under both of their names. */
  function Modules(plugins: seq<Plugin>): set<string> {
    if plugins == [] then {}
    else Modules(plugins[..|plugins| - 1]) + Names(plugins[|plugins| - 1])
  }

  function Names(plugin: Plugin): set<string> {
    if !Indexed(plugin) then {} else if plugin.moduleName == "" then {plugin.name} else {plugin.name, plugin.moduleName}
  }

  /** A module has commands in the index exactly when a plugin with commands, none of them ambiguous, goes by its name,
      be it the plugin's or its module's. */
  lemma {:induction false} ModulesMeaning(plugins: seq<Plugin>, module_: string)
    ensures module_ in Modules(plugins) <==>
      exists i :: 0 <= i < |plugins| && plugins[i].commands != {} && !plugins[i].ambiguous
                  && (module_ == plugins[i].name || (module_ != "" && module_ == plugins[i].moduleName))
  {
    if plugins == [] {
    } else {
      var init, last := plugins[..|plugins| - 1], plugins[|plugins| - 1];
      assert plugins == init + [last];
      ModulesMeaning(init, module_);
      if i :| 0 <= i < |init| && init[i].commands != {} && !init[i].ambiguous
              && (module_ == init[i].name || (module_ != "" && module_ == init[i].moduleName)) {
        assert plugins[i] == init[i];
      }
    }
  }

  function PairsOf(plugin: Plugin): set<(string, string)> {
    if Indexed(plugin) then set c | c in plugin.commands :: (c, plugin.name) else {}
  }

  /** What a scan of all pairs finds. */
  ghost function Scan(pairs: set<(string, string)>, text: string): set<string> {
    set pair | pair in pairs && CommandMatches(Trim(text), pair.0) :: pair.1
  }

  type CommandMap = map<string, set<string>>

  type PrefixMap = map<char, set<string>>

  ghost predicate CommandsHold(commands: CommandMap, pairs: set<(string, string)>) {
    && (forall c, m :: (c, m) in pairs ==> c in commands && m in commands[c])
    && (forall c, m :: c in commands && m in commands[c] ==> (c, m) in pairs)
  }

  predicate Filed(prefixes: PrefixMap, command: string) {
    command != "" && command[0] in prefixes && command in prefixes[command[0]]
  }

  predicate InBucket(prefixes: PrefixMap, ch: char, command: string) { ch in prefixes && command in prefixes[ch] }

  /** Every command is under its first character and under no other. */
  ghost predicate PrefixesHold(prefixes: PrefixMap, commands: CommandMap) {
    && (forall c | c in commands :: Filed(prefixes, c))
    && (forall ch, c :: InBucket(prefixes, ch, c) ==> c != "" && c[0] == ch)
  }

  function Entry<K, V>(index: map<K, set<V>>, key: K): set<V> { if key in index then index[key] else {} }

  /** setdefault(key, set()).add(value) */
  function Added<K, V>(index: map<K, set<V>>, key: K, value: V): map<K, set<V>> {
    index[key := Entry(index, key) + {value}]
  }

  lemma FiledStays(prefixes: PrefixMap, command: string, other: string)
    requires command != ""
    ensures Filed(Added(prefixes, command[0], command), command)
    ensures Filed(prefixes, other) ==> Filed(Added(prefixes, command[0], command), other)
  {
  }

  lemma AddedCommands(commands: CommandMap, pairs: set<(string, string)>, command: string, name: string)
    requires CommandsHold(commands, pairs)
    ensures CommandsHold(Added(commands, command, name), pairs + {(command, name)})
  {
  }

  lemma AddedPrefixes(commands: CommandMap, prefixes: PrefixMap, command: string, name: string)
    requires PrefixesHold(prefixes, commands) && command != ""
    ensures PrefixesHold(Added(prefixes, command[0], command), Added(commands, command, name))
  {
    var after := Added(prefixes, command[0], command);
    forall c | c in Added(commands, command, name) ensures Filed(after, c) {
      assert c == command || c in commands;
      FiledStays(prefixes, command, c);
    }
    forall ch, c | InBucket(after, ch, c) ensures c != "" && c[0] == ch {
      if c != command || ch != command[0] {
        assert InBucket(prefixes, ch, c);
      }
    }
  }

  /** A command that matches begins with the text's first character, so no other bucket is needed. */
  lemma MatchBeginsAlike(text: string, command: string)
    requires CommandMatches(text, command)
    ensures text[0] == command[0]
  {
  }

  /** Main result: looking into the bucket of the text's first character finds exactly what a scan of all
      pairs finds. */
  lemma BucketEqualsScan(commands: CommandMap, prefixes: PrefixMap, pairs: set<(string, string)>, text: string)
    requires CommandsHold(commands, pairs) && PrefixesHold(prefixes, commands)
    ensures Trim(text) == "" ==> Scan(pairs, text) == {}
    ensures Trim(text) != "" ==>
      Scan(pairs, text) == set c, m | c in Entry(prefixes, Trim(text)[0]) && CommandMatches(Trim(text), c)
                                      && m in Entry(commands, c) :: m
  {
    var trimmed := Trim(text);
    if trimmed != "" {
      var found := set c, m | c in Entry(prefixes, trimmed[0]) && CommandMatches(trimmed, c)
                              && m in Entry(commands, c) :: m;
      forall m | m in Scan(pairs, text) ensures m in found {
        var c :| (c, m) in pairs && CommandMatches(trimmed, c);
        MatchBeginsAlike(trimmed, c);
        assert c in Entry(prefixes, trimmed[0]) && m in Entry(commands, c);
      }
      forall m | m in found ensures m in Scan(pairs, text) {
        var c :| c in Entry(prefixes, trimmed[0]) && CommandMatches(trimmed, c) && m in Entry(commands, c);
        assert InBucket(prefixes, trimmed[0], c) && (c, m) in pairs;
      }
    }
  }

  class Routes {
    var ready: bool
    var commands: CommandMap
    var prefixes: PrefixMap
    var modules: set<string>
    ghost var pairs: set<(string, string)>

    constructor ()
      ensures Valid() && !ready && pairs == {}
    {
      ready, commands, prefixes, modules, pairs := false, map[], map[], {}, {};
    }

    ghost predicate Valid()
      reads this
    {
      CommandsHold(commands, pairs) && PrefixesHold(prefixes, commands)
    }

    /** Built once from the loaded plugins. */
    method EnsureRouteIndex(plugins: seq<Plugin>)
      requires Valid() && WellFormed(plugins)
      modifies this
      ensures Valid() && ready
      ensures pairs == if old(ready) then old(pairs) else Pairs(plugins)
      ensures modules == if old(ready) then old(modules) else Modules(plugins)
    {
      if ready {
        return;
      }
      commands, prefixes, modules, pairs := map[], map[], {}, {};
      var i := 0;
      while i < |plugins|
        invariant 0 <= i <= |plugins| && Valid() && !ready && pairs == Pairs(plugins[..i])
        invariant modules == Modules(plugins[..i])
      {
        assert plugins[..i + 1][..i] == plugins[..i];
        AddPlugin(plugins[i]);
        i := i + 1;
      }
      assert plugins[..i] == plugins;
      ready := true;
    }

    method AddPlugin(plugin: Plugin)
      requires Valid() && "" !in plugin.commands
      modifies this`modules, this`commands, this`prefixes, this`pairs
      ensures Valid() && pairs == old(pairs) + PairsOf(plugin) && modules == old(modules) + Names(plugin)
    {
      if plugin.commands == {} || plugin.ambiguous {
        return;
      }
      modules := modules + {plugin.name};
      if plugin.moduleName != "" && plugin.moduleName != plugin.name {
        modules := modules + {plugin.moduleName};
      }
      AddCommands(plugin);
    }

    method AddCommands(plugin: Plugin)
      requires Valid() && "" !in plugin.commands
      modifies this`commands, this`prefixes, this`pairs
      ensures Valid() && pairs == old(pairs) + set c | c in plugin.commands :: (c, plugin.name)
    {
      var rest := plugin.commands;
      while rest != {}
        invariant rest <= plugin.commands && Valid()
        invariant pairs == old(pairs) + set c | c in plugin.commands - rest :: (c, plugin.name)
        decreases rest
      {
        var command :| command in rest;
        rest := rest - {command};
        AddedCommands(commands, pairs, command, plugin.name);
        AddedPrefixes(commands, prefixes, command, plugin.name);
        commands := Added(commands, command, plugin.name);
        prefixes := Added(prefixes, command[0], command);
        pairs := pairs + {(command, plugin.name)};
      }
    }

    method MatchRouteModules(text: string) returns (matched: set<string>)
      requires Valid()
      ensures matched == Scan(pairs, text)
    {
      var trimmed := Trim(text);
      BucketEqualsScan(commands, prefixes, pairs, text);
      if trimmed == "" {
        return {};
      }
      matched := {};
      ghost var bucket := Entry(prefixes, trimmed[0]);
      var rest := Entry(prefixes, trimmed[0]);
      while rest != {}
        invariant rest <= bucket
        invariant matched == set c, m | c in bucket - rest && CommandMatches(trimmed, c) && m in Entry(commands, c) :: m
        decreases rest
      {
        var command :| command in rest;
        rest := rest - {command};
        if CommandMatches(trimmed, command) {
          matched := matched + Entry(commands, command);
        }
      }
    }
  }
}
