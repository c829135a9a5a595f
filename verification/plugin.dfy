/**
 * The plugin object: the label fields it edits, the dictionary it matches
 * chat lines against, and its handlers for the chat hook, the /nael command
 * and the "Save and Close" button.
 */
module NaelPlugin {
  import opened Wrappers
  import opened Quotes
  import opened Mechanics
  import opened Matcher
  import opened Chat
  import opened Settings

  const Name := "Big Nael Quotes"

  /** ToLower on one character; only A-Z are mapped. */
  function LowerChar(c: char): char
  {
    if 'A' <= c <= 'Z' then (c as int + 32) as char else c
  }

  function ToLower(s: string): string
  {
    seq(|s|, i requires 0 <= i < |s| => LowerChar(s[i]))
  }

  /** What the /nael command does with its argument. */
  datatype Command = OpenConfig | RunTest | Toggle

  function ParseCommand(args: string): (r: Command)
    ensures r == OpenConfig ==> |args| == 3
    ensures r == RunTest ==> |args| == 4
  {
    var a := ToLower(args);
    if a == "cfg" then OpenConfig else if a == "test" then RunTest else Toggle
  }

  /** The command ignores case: "cfg" and "test" in any mix of upper and lower
      case are recognised, and nothing else (not "", not "CFGX") is. */
  lemma ParseCommandIgnoresCase(args: string)
    ensures ParseCommand(args) == OpenConfig <==>
              |args| == 3 && (args[0] == 'c' || args[0] == 'C') && (args[1] == 'f' || args[1] == 'F') &&
              (args[2] == 'g' || args[2] == 'G')
    ensures ParseCommand(args) == RunTest <==>
              |args| == 4 && (args[0] == 't' || args[0] == 'T') && (args[1] == 'e' || args[1] == 'E') &&
              (args[2] == 's' || args[2] == 'S') && (args[3] == 't' || args[3] == 'T')
  {
    var a := ToLower(args);
    assert |a| == |args| && forall i :: 0 <= i < |a| ==> a[i] == LowerChar(args[i]);
    if |args| == 3 {
      assert a == "cfg" <==> a[0] == 'c' && a[1] == 'f' && a[2] == 'g';
    }
    if |args| == 4 {
      assert a == "test" <==> a[0] == 't' && a[1] == 'e' && a[2] == 's' && a[3] == 't';
    }
  }

  /** The Enabled flag after the command. */
  function EnabledAfter(args: string, enabled: bool): bool
  {
    if ParseCommand(args) == Toggle then !enabled else enabled
  }

  /** The same command given twice leaves the flag as it was. */
  lemma CommandTwiceRestores(args: string, enabled: bool)
    ensures EnabledAfter(args, EnabledAfter(args, enabled)) == enabled
  {
  }

  /** What a command leaves behind for the host: the configuration window
      opened, the test lines printed, or the status line printed. */
  datatype CommandOutcome = ConfigOpened | TestPrinted(lines: seq<string>) | StatusPrinted(message: string)

  class BigNaelQuotes {
    const configuration: Configuration
    const catalog: seq<Quote>

    var configDynamo: string
    var configChariot: string
    var configBeam: string
    var configDive: string
    var configMeteorStream: string
    var configSeparator: string

    /** The quote dictionary, in insertion order. */
    var table: seq<Entry>
    /** The language and labels the dictionary was last built for. */
    ghost var tableLang: Language
    ghost var tableLabels: Labels

    function CurrentLabels(): Labels
      reads this
    {
      Labels(configDynamo, configChariot, configBeam, configDive, configMeteorStream, configSeparator)
    }

    /** The dictionary is the one BuildTable makes for its language and labels. */
    ghost predicate Valid()
      reads this
    {
      BuildTable(catalog, tableLang, tableLabels) == Ok(table)
    }

    /** Loads the labels from the configuration and builds the dictionary;
        the source's constructor throws when the dictionary cannot be built,
        which Create models. */
    constructor (configuration: Configuration, catalog: seq<Quote>, lang: Language)
      requires BuildTable(catalog, lang, configuration.LabelValues()).Ok?
      ensures this.configuration == configuration && this.catalog == catalog
      ensures CurrentLabels() == configuration.LabelValues()
      ensures Valid() && tableLang == lang && tableLabels == CurrentLabels()
    {
      this.configuration := configuration;
      this.catalog := catalog;
      configDynamo, configChariot, configBeam, configDive := "", "", "", "";
      configMeteorStream, configSeparator := "", "";
      table := [];
      new;
      LoadConfiguration();
      var err := LoadQuotesDictionary(lang);
    }

    /** Plugin start-up: the saved configuration, or a fresh one when there is
        none, then the plugin, or the error that aborts its construction. */
    static method Create(saved: Configuration?, defaults: Labels, catalog: seq<Quote>, lang: Language)
      returns (r: Result<BigNaelQuotes, TableError>)
      ensures var labels := if saved != null then saved.LabelValues() else defaults;
              && (r.Ok? <==> BuildTable(catalog, lang, labels).Ok?)
              && (r.Err? ==> r.error == BuildTable(catalog, lang, labels).error)
              && (r.Ok? ==> fresh(r.value) && r.value.Valid() && r.value.catalog == catalog &&
                            r.value.CurrentLabels() == labels && r.value.tableLang == lang)
      ensures r.Ok? && saved != null ==> r.value.configuration == saved
      ensures r.Ok? && saved == null ==>
                && fresh(r.value.configuration) && r.value.configuration.enabled
                && r.value.configuration.version == 0
                && r.value.configuration.characterName == "Nael deus Darnus"
                && r.value.configuration.textDisplayDurationSeconds == 4
    {
      var config: Configuration;
      if saved != null {
        config := saved;
      } else {
        config := new Configuration(defaults);
      }
      var built := BuildTable(catalog, lang, config.LabelValues());
      if built.Err? {
        return Err(built.error);
      }
      var plugin := new BigNaelQuotes(config, catalog, lang);
      r := Ok(plugin);
    }

    /** Copies the six labels from the configuration. */
    method LoadConfiguration()
      modifies this
      ensures CurrentLabels() == configuration.LabelValues()
      ensures table == old(table) && tableLang == old(tableLang) && tableLabels == old(tableLabels)
    {
      configDynamo := configuration.dynamo;
      configChariot := configuration.chariot;
      configBeam := configuration.beam;
      configDive := configuration.dive;
      configMeteorStream := configuration.meteorStream;
      configSeparator := configuration.separator;
    }

    /** Copies the six labels into the configuration; nothing else in it changes. */
    method SaveConfiguration()
      modifies configuration
      ensures configuration.LabelValues() == CurrentLabels()
      ensures configuration.enabled == old(configuration.enabled)
      ensures configuration.version == old(configuration.version)
      ensures configuration.characterName == old(configuration.characterName)
      ensures configuration.textDisplayDurationSeconds == old(configuration.textDisplayDurationSeconds)
    {
      configuration.dynamo := configDynamo;
      configuration.chariot := configChariot;
      configuration.beam := configBeam;
      configuration.dive := configDive;
      configuration.meteorStream := configMeteorStream;
      configuration.separator := configSeparator;
    }

    /** Saving and then loading gives back the labels that were saved. */
    method SaveThenLoadRestoresLabels()
      modifies this, configuration
      ensures CurrentLabels() == old(CurrentLabels())
      ensures configuration.LabelValues() == old(CurrentLabels())
      ensures table == old(table) && tableLang == old(tableLang) && tableLabels == old(tableLabels)
      ensures configuration.enabled == old(configuration.enabled)
      ensures configuration.version == old(configuration.version)
      ensures configuration.characterName == old(configuration.characterName)
      ensures configuration.textDisplayDurationSeconds == old(configuration.textDisplayDurationSeconds)
    {
      SaveConfiguration();
      LoadConfiguration();
    }

    /** Rebuilds the dictionary from the current labels; when that fails the
        old dictionary stays and the error is returned. */
    method LoadQuotesDictionary(lang: Language) returns (err: Option<TableError>)
      modifies this`table, this`tableLang, this`tableLabels
      ensures var built := BuildTable(catalog, lang, CurrentLabels());
              && (built.Ok? ==> err.None? && Valid() && tableLang == lang && tableLabels == CurrentLabels())
              && (built.Err? ==> err == Some(built.error) && table == old(table) &&
                                 tableLang == old(tableLang) && tableLabels == old(tableLabels))
    {
      var built := BuildTable(catalog, lang, CurrentLabels());
      if built.Ok? {
        table := built.value;
        tableLang, tableLabels := lang, CurrentLabels();
        err := None;
      } else {
        err := Some(built.error);
      }
    }

    /** The "Save and Close" button: store the labels, then rebuild the
        dictionary so that later chat lines get the new strings. With the
        language the dictionary was built for, the rebuild cannot fail. */
    method SaveAndClose(lang: Language) returns (err: Option<TableError>)
      modifies configuration, this`table, this`tableLang, this`tableLabels
      ensures configuration.LabelValues() == CurrentLabels() == old(CurrentLabels())
      ensures configuration.enabled == old(configuration.enabled)
      ensures configuration.version == old(configuration.version)
      ensures configuration.characterName == old(configuration.characterName)
      ensures configuration.textDisplayDurationSeconds == old(configuration.textDisplayDurationSeconds)
      ensures old(Valid()) && lang == old(tableLang) ==> err.None?
      ensures err.None? ==> Valid() && tableLang == lang && tableLabels == CurrentLabels()
      ensures err.Some? ==> table == old(table) && tableLang == old(tableLang) && tableLabels == old(tableLabels)
    {
      SaveConfiguration();
      RebuildKeepsKeys(catalog, lang, tableLabels, CurrentLabels());
      err := LoadQuotesDictionary(lang);
    }

    /** Every catalog quote, in catalog order, in the client language. */
    method TestPlugin(lang: Language) returns (lines: seq<string>)
      ensures |lines| == |catalog|
      ensures forall i :: 0 <= i < |catalog| ==> GetQuote(catalog, lang, catalog[i].id) == Some(lines[i])
      ensures (forall i, j :: 0 <= i < j < |catalog| ==> catalog[i].id != catalog[j].id) ==>
                forall i :: 0 <= i < |catalog| ==> lines[i] == Collapse(TextFor(catalog[i].text, lang))
    {
      lines := [];
      for i := 0 to |catalog|
        invariant |lines| == i
        invariant forall k :: 0 <= k < i ==> GetQuote(catalog, lang, catalog[k].id) == Some(lines[k])
      {
        var quote := GetQuote(catalog, lang, catalog[i].id);
        lines := lines + [quote.value];
      }
      if forall i, j :: 0 <= i < j < |catalog| ==> catalog[i].id != catalog[j].id {
        forall i | 0 <= i < |catalog| ensures lines[i] == Collapse(TextFor(catalog[i].text, lang)) {
          GetQuoteFirstRecord(catalog, lang, catalog[i].id, i);
        }
      }
    }

    /** The /nael command. */
    method NaelCommand(args: string, lang: Language) returns (outcome: CommandOutcome)
      modifies configuration`enabled
      ensures configuration.enabled == EnabledAfter(args, old(configuration.enabled))
      ensures ParseCommand(args) == OpenConfig ==> outcome == ConfigOpened
      ensures ParseCommand(args) == RunTest ==>
                outcome.TestPrinted? && |outcome.lines| == |catalog| &&
                forall i :: 0 <= i < |catalog| ==> GetQuote(catalog, lang, catalog[i].id) == Some(outcome.lines[i])
      ensures ParseCommand(args) == Toggle ==>
                outcome == StatusPrinted(Name + " " + if configuration.enabled then "enabled" else "disabled")
    {
      match ParseCommand(args)
      case OpenConfig =>
        outcome := ConfigOpened;
      case RunTest =>
        var lines := TestPlugin(lang);
        outcome := TestPrinted(lines);
      case Toggle =>
        configuration.enabled := !configuration.enabled;
        var status := if configuration.enabled then "enabled" else "disabled";
        outcome := StatusPrinted(Name + " " + status);
    }

    /** The chat hook: while enabled, every present text of an NPC dialogue
        announcement is replaced, in place, by NaelIt of it. */
    method OnChatMessage(chatType: ChatType, message: array<Payload>, scorer: Scorer)
      modifies message
      ensures !configuration.enabled || chatType != NPCDialogueAnnouncements ==>
                message[..] == old(message[..])
      ensures configuration.enabled && chatType == NPCDialogueAnnouncements ==>
                message[..] == Rewritten(old(message[..]), table, scorer)
    {
      if !configuration.enabled {
        return;
      }
      if chatType != NPCDialogueAnnouncements {
        return;
      }
      for i := 0 to message.Length
        invariant forall k :: 0 <= k < i ==> message[k] == RewritePayload(old(message[k]), table, scorer)
        invariant forall k :: i <= k < message.Length ==> message[k] == old(message[k])
      {
        match message[i]
        case TextPayload(Some(text)) =>
          message[i] := TextPayload(Some(NaelIt(table, scorer, text)));
        case _ =>
      }
      ghost var before := old(message[..]);
      forall k | 0 <= k < message.Length
        ensures |Rewritten(before, table, scorer)| == message.Length
        ensures message[..][k] == Rewritten(before, table, scorer)[k]
      {
        RewrittenAt(before, table, scorer, k);
      }
      if message.Length == 0 {
        assert before == [];
      }
    }
  }
}
