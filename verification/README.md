# Big Nael Quotes, modelled in Dafny

Big Nael Quotes is a Dalamud plugin for the Unending Coil of Bahamut. During
the fight, Nael deus Darnus announces each attack with a scripted quote in
NPC dialogue announcements. The plugin recognises each of these 14 quotes in
chat and replaces the line with the names of the mechanics it announces (for
example "Dynamo -> Chariot"). The mechanic names and the separator are
labels the user can edit.

The model covers the translator in `BigNaelQuotes/BigNaelQuotes/BigNaelQuotes.cs`:

- `quotes.dfy` (module `Quotes`) models the quote catalog and `GetQuote`. `GetQuote` picks the text for
  the client language, with a fallback to Chinese, and collapses `"\n\n"` to `"\n"`.
- `mechanics.dfy` (module `Mechanics`) holds the script of 14 quote ids and their mechanics. It also
  covers the mechanic strings built from the labels, and `BuildTable`, the dictionary that
  `LoadQuotesDictionary` builds. The dictionary is a sequence of entries in insertion order.
- `matcher.dfy` (module `Matcher`) models `Process.ExtractOne` over an abstract scorer, and `NaelIt`
  with its threshold of 85.
- `chat.dfy` (module `Chat`) holds chat types, payloads and the per-payload rewrite that the chat hook
  applies.
- `settings.dfy` (module `Settings`) holds the `Configuration` object and the `Labels` value of its six label fields.
- `plugin.dfy` (module `NaelPlugin`) holds the plugin class, `BigNaelQuotes`. It covers the label
  copying, the dictionary rebuild, the `/nael` command, the test printout and the in-place chat hook.
- `wrappers.dfy` holds Option and Result.

Inputs that come from the host are parameters. These are the client language (read from
`ClientState` in the source), the similarity scorer (FuzzySharp) and the chat message. The scorer
is any function from (query, choice) to a score in 0..100. Nothing else is assumed about it. In
particular, an exact match is not assumed to score 100.

Points where the code's behaviour is easy to misread:

- `GetQuote` fails when an id is missing from the catalog. `Find` returns a default record whose
  text is null, and `Replace` then throws. It is not a graceful miss. The model returns `None`
  here, and `BuildTable` turns that into `QuoteNotFound`.
- The cleaned-up text can still contain `"\n\n"`: three newlines in a row become two
  (`Quotes.ThreeNewlinesBecomeTwo`). What does hold is narrower: a text without three newlines in
  a row comes back with no `"\n\n"` at all.
- The source reads the fields `Text_en`, `Text_fr`, `Text_de`, `Text_ja` and `Text_chs`
  (BigNaelQuotes.cs:148-152). Those names are not the ones declared in `NaelQuotes.cs`
  (`EN`, `FR`, `DE`, `JP`, `CN`), and the `nael` namespace the source imports is not part of this
  model. The model's `Text` datatype follows `NaelQuotes.cs`.
- `TextDisplayDurationSeconds` and `CharacterName` are declared in `Configuration.cs` but not
  used by the translator. The duration is never clamped, and no sender name is matched.

## Model

| member | source | states |
|---|---|---|
| `Quotes.IndexOf` | BigNaelQuotes/BigNaelQuotes/BigNaelQuotes.cs:145 | `List.Find`: the index of the first record with the id, or none exactly when no record has it |
| `Quotes.TextFor` | BigNaelQuotes/BigNaelQuotes/BigNaelQuotes.cs:146-153 | English, French, German and Japanese each select their own field; every other language value selects the Chinese field |
| `Quotes.GetQuote` | BigNaelQuotes/BigNaelQuotes/BigNaelQuotes.cs:143-157 | fails (None) exactly when no catalog record carries the id |
| `Quotes.Collapse` | BigNaelQuotes/BigNaelQuotes/BigNaelQuotes.cs:154 | `Replace("\n\n", "\n")`, left to right and without overlap; its contract says only that the text never grows; `CollapseLength`, `CollapseUnchangedIff`, `CollapseKeepsOtherCharacters`, `CollapseRemovesPairsWithoutTriples` and `ThreeNewlinesBecomeTwo` state what it does |
| `Quotes.GetQuoteFirstRecord` | BigNaelQuotes/BigNaelQuotes/BigNaelQuotes.cs:145-154 | the text returned is the collapsed translation of the first record with the id |
| `Quotes.CollapseLength` | BigNaelQuotes/BigNaelQuotes/BigNaelQuotes.cs:154 | each non-overlapping, left-to-right `"\n\n"` replacement shortens the text by exactly one |
| `Quotes.ReplacementsZeroIff` | BigNaelQuotes/BigNaelQuotes/BigNaelQuotes.cs:154 | no replacement happens exactly when the text has no `"\n\n"` |
| `Quotes.CollapseUnchangedIff` | BigNaelQuotes/BigNaelQuotes/BigNaelQuotes.cs:154 | the text comes back unchanged exactly when it has no `"\n\n"` |
| `Quotes.CollapseKeepsOtherCharacters` | BigNaelQuotes/BigNaelQuotes/BigNaelQuotes.cs:154 | only newlines are removed; every other character survives, in order |
| `Quotes.CollapseNewlineFreePrefix` | BigNaelQuotes/BigNaelQuotes/BigNaelQuotes.cs:154 | a prefix without newlines passes through untouched |
| `Quotes.CollapseRemovesPairsWithoutTriples` | BigNaelQuotes/BigNaelQuotes/BigNaelQuotes.cs:154 | a text that never has three newlines in a row comes back with no `"\n\n"` |
| `Quotes.ThreeNewlinesBecomeTwo` | BigNaelQuotes/BigNaelQuotes/BigNaelQuotes.cs:154 | three newlines become two, so the result can still contain `"\n\n"` |
| `Quotes.BlankLineFront` | BigNaelQuotes/BigNaelQuotes/BigNaelQuotes.cs:154 | a blank line in front of newline-free text becomes a single break |
| `Quotes.BlankLineBecomesBreak` | BigNaelQuotes/BigNaelQuotes/BigNaelQuotes.cs:154 | `head + "\n\n" + tail` becomes `head + "\n" + tail` when head and tail have no newlines |
| `Mechanics.ScriptShape` | BigNaelQuotes/BigNaelQuotes/BigNaelQuotes.cs:166-179 | 14 script lines with distinct ids; the first eight name two mechanics and the last six name three |
| `Mechanics.ScriptStrings` | BigNaelQuotes/BigNaelQuotes/BigNaelQuotes.cs:166-179 | each id's mechanic string is its labels, in the listed order, joined by `" " + separator + " "` (6492 gives dynamo, sep, chariot, and so on) |
| `Mechanics.Format` | BigNaelQuotes/BigNaelQuotes/BigNaelQuotes.cs:166-179 | the interpolated mechanic string; its contract says only that one mechanic gives its bare label; `FormatTwo`, `FormatThree` and `ScriptStrings` state the two- and three-label forms |
| `Mechanics.FormatTwo` | BigNaelQuotes/BigNaelQuotes/BigNaelQuotes.cs:166-173 | two mechanics give `"{a} {sep} {b}"` |
| `Mechanics.FormatThree` | BigNaelQuotes/BigNaelQuotes/BigNaelQuotes.cs:174-179 | three mechanics give `"{a} {sep} {b} {sep} {c}"` |
| `Mechanics.BuildFrom` | BigNaelQuotes/BigNaelQuotes/BigNaelQuotes.cs:164-180 | the collection initializer, one lookup and `Add` per script line in order; a successful build keeps the entries already added and adds one per line; `BuildFromCorrect` states when it succeeds and which entries it adds |
| `Mechanics.BuildTable` | BigNaelQuotes/BigNaelQuotes/BigNaelQuotes.cs:162-181 | the dictionary built from the empty one; a built dictionary has one entry per script line; `BuildTableCorrect` and `BuiltEntry` state when it is built and what each entry holds |
| `Mechanics.BuildFromCorrect` | BigNaelQuotes/BigNaelQuotes/BigNaelQuotes.cs:164-180 | adding the lines in order succeeds exactly when every id is found and no key repeats; it then appends one entry (text, mechanic string) per line |
| `Mechanics.BuildTableCorrect` | BigNaelQuotes/BigNaelQuotes/BigNaelQuotes.cs:162-181 | the dictionary is built exactly when all 14 ids are in the catalog and their texts are pairwise distinct; it then has 14 entries with distinct keys, entry i mapping the text of id i to its mechanic string |
| `Mechanics.BuiltEntry` | BigNaelQuotes/BigNaelQuotes/BigNaelQuotes.cs:164-180 | entry k of a built dictionary pairs the text of script id k with that line's mechanic string |
| `Mechanics.JoinThree` | BigNaelQuotes/BigNaelQuotes/BigNaelQuotes.cs:174-179 | three parts join as `x + " " + sep + " " + y + " " + sep + " " + z` |
| `Mechanics.RebuildKeepsKeys` | BigNaelQuotes/BigNaelQuotes/BigNaelQuotes.cs:164-180 | whether the dictionary builds, and its keys, do not depend on the labels |
| `Matcher.ExtractOne` | BigNaelQuotes/BigNaelQuotes/BigNaelQuotes.cs:132 | no match exactly when there are no keys; otherwise a key with its score, and no key scores higher |
| `Matcher.Lookup` | BigNaelQuotes/BigNaelQuotes/BigNaelQuotes.cs:134 | the value returned belongs to an entry with the key |
| `Matcher.NaelIt` | BigNaelQuotes/BigNaelQuotes/BigNaelQuotes.cs:130-135 | the chat line is kept or replaced by a value of the dictionary; `NaelItChoosesBest` and `NaelItUniqueBest` state the threshold rule |
| `Matcher.NaelItChoosesBest` | BigNaelQuotes/BigNaelQuotes/BigNaelQuotes.cs:130-135 | when every key scores below 85 (or there are no keys) the line is unchanged; otherwise the line becomes the value of a highest-scoring key, whose score is at least 85 |
| `Matcher.NaelItUniqueBest` | BigNaelQuotes/BigNaelQuotes/BigNaelQuotes.cs:132-134 | when one key scores strictly highest and at least 85, the line becomes that key's value |
| `Matcher.NaelItOnBuiltTable` | BigNaelQuotes/BigNaelQuotes/BigNaelQuotes.cs:130-135 | on the dictionary built from the labels, a line whose unique best match is the quote of script line k becomes that line's mechanic string |
| `Chat.RewritePayload` | BigNaelQuotes/BigNaelQuotes/BigNaelQuotes.cs:118-122 | one payload of the `foreach`: its kind and whether it has text are kept, and non-text payloads are returned as they are; `RewrittenSpec` states the rewritten text |
| `Chat.Rewritten` | BigNaelQuotes/BigNaelQuotes/BigNaelQuotes.cs:118-122 | the `foreach` over the payload list; the count is kept; `RewrittenAt` and `RewrittenSpec` state each payload |
| `Chat.RewrittenAt` | BigNaelQuotes/BigNaelQuotes/BigNaelQuotes.cs:118-122 | the rewrite keeps the payload count, and payload i becomes the rewrite of payload i |
| `Chat.RewrittenSpec` | BigNaelQuotes/BigNaelQuotes/BigNaelQuotes.cs:118-122 | payload count, order and kinds are kept; non-text payloads and null texts are untouched; each present text t becomes NaelIt(t) |
| `Chat.RewrittenNoMatch` | BigNaelQuotes/BigNaelQuotes/BigNaelQuotes.cs:118-122 | a message in which no text reaches the threshold against any key is left as it was |
| `Settings.Configuration.constructor` | BigNaelQuotes/BigNaelQuotes/Configuration.cs:8-11 | a fresh configuration is enabled, with version 0, character name "Nael deus Darnus" and a 4-second duration |
| `NaelPlugin.ParseCommand` | BigNaelQuotes/BigNaelQuotes/BigNaelQuotes.cs:72-80 | `switch (args.ToLower())`; its contract says only that the two commands are three and four characters long; `ParseCommandIgnoresCase` states which arguments open the configuration, run the test or toggle |
| `NaelPlugin.ParseCommandIgnoresCase` | BigNaelQuotes/BigNaelQuotes/BigNaelQuotes.cs:72-80 | the argument is lower-cased first: it opens the configuration exactly when it is "cfg" in any case, and runs the test exactly when it is "test" in any case; anything else ("", "CFGX") toggles |
| `NaelPlugin.CommandTwiceRestores` | BigNaelQuotes/BigNaelQuotes/BigNaelQuotes.cs:80-82 | the same command given twice leaves Enabled as it was |
| `NaelPlugin.BigNaelQuotes.constructor` | BigNaelQuotes/BigNaelQuotes/BigNaelQuotes.cs:41-68 | loads the labels from the configuration and builds the dictionary for the client language |
| `NaelPlugin.BigNaelQuotes.Create` | BigNaelQuotes/BigNaelQuotes/BigNaelQuotes.cs:45-67 | uses the saved configuration, or a fresh enabled one with version 0, name "Nael deus Darnus" and a 4-second duration; the plugin exists exactly when the dictionary can be built, and otherwise the build error is returned |
| `NaelPlugin.BigNaelQuotes.LoadConfiguration` | BigNaelQuotes/BigNaelQuotes/BigNaelQuotes.cs:226-234 | the six labels are copied from the configuration, and the dictionary is untouched |
| `NaelPlugin.BigNaelQuotes.SaveConfiguration` | BigNaelQuotes/BigNaelQuotes/BigNaelQuotes.cs:236-246 | the six labels are copied into the configuration; Enabled, name, duration and version are untouched |
| `NaelPlugin.BigNaelQuotes.SaveThenLoadRestoresLabels` | BigNaelQuotes/BigNaelQuotes/BigNaelQuotes.cs:226-243 | a save followed by a load leaves the plugin's labels unchanged, and the configuration then holds them; the dictionary and every other configuration field stay as they were |
| `NaelPlugin.BigNaelQuotes.LoadQuotesDictionary` | BigNaelQuotes/BigNaelQuotes/BigNaelQuotes.cs:162-181 | the dictionary becomes BuildTable of the current labels; when that fails it stays as it was and the error is returned |
| `NaelPlugin.BigNaelQuotes.SaveAndClose` | BigNaelQuotes/BigNaelQuotes/BigNaelQuotes.cs:204-209 | saves the labels and rebuilds the dictionary from them; no other configuration field changes; with an unchanged language the rebuild cannot fail, so later lines get the new strings; a failed rebuild leaves the dictionary, and so the plugin's validity, as it was |
| `NaelPlugin.BigNaelQuotes.TestPlugin` | BigNaelQuotes/BigNaelQuotes/BigNaelQuotes.cs:92-96 | one line per catalog record, in catalog order, each being GetQuote of that record's id; with distinct ids, line i is record i's cleaned-up text |
| `NaelPlugin.BigNaelQuotes.NaelCommand` | BigNaelQuotes/BigNaelQuotes/BigNaelQuotes.cs:70-90 | "cfg" and "test" leave Enabled alone and open the window or print the test lines; any other argument flips Enabled and reports the new status |
| `NaelPlugin.BigNaelQuotes.OnChatMessage` | BigNaelQuotes/BigNaelQuotes/BigNaelQuotes.cs:110-123 | while disabled, or for any other chat type, the message is untouched; otherwise the payloads are rewritten in place, as `Chat.Rewritten` states |

## Left out

- Drawing the configuration window with ImGui, and the static `_drawConfiguration` flag. This is UI. The "cfg" command is modelled only as its outcome (`ConfigOpened`). The text-field edits of the labels, with their 32- and 8-character limits, are not modelled.
- Dalamud wiring is host plumbing and is not modelled: event subscription and unsubscription, command registration, `Dispose`, the static service locators, `Configuration.Initialize`, `_chatGui.Print` and `NaelMessage`. Printed lines are returned as method results instead.
- Loading the embedded JSON resource and deserializing it. This is I/O and a library call. The catalog is a given sequence of records. Null strings in those records are not modelled.
- Persisting the configuration (`Configuration.Save`, `SavePluginConfig`). The host owns that.
- FuzzySharp's scoring. It is a foreign library and is taken as an abstract function.
- `Matcher.ExtractOne`: FuzzySharp leaves ties to the library. The model picks the earliest key among equal scores, in dictionary insertion order. The proved contracts hold for any choice among the highest-scoring keys.
- `NaelPlugin.ToLower`: only `A`-`Z` are lower-cased. Culture-dependent mappings of other characters are not modelled. The model assumes no non-ASCII character lower-cases to a letter of "cfg" or "test".
- `NaelPlugin.BigNaelQuotes.constructor`: requires that the dictionary can be built. In the source, the constructor throws in that case and the plugin fails to load; `Create` models that path.
- The chat hook's message is an array of payload values. If the same payload object appears twice in a message, the source rewrites it twice; the model does not represent that aliasing.
- The timestamp, sender and `handled` arguments of the chat hook are unused in the source and not modelled.
