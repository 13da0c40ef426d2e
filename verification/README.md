# Ganja, modelled in Dafny

Ganja is a coding agent for the terminal. This project models four parts of it whose correctness is a
matter of order and bookkeeping, and a fifth, smaller one, and proves what each is for.

- **Config translation.** `ganja config migrate` turns a JSON config into TOML (`Migrate`, `MigrateMeaning`,
  `MigrateRun`); `ganja config import-opencode` maps another tool's config into ganja's (`DeepMerge`, `Tiers`,
  `Tokens`, `Guarding`, `PermissionFold`, `FoldOrder`, `Fields`, `Entries`, `AgentRows`, `Services`, `Import`,
  `ImportRun`). What its document then holds, decides and says of each key, told of the config alone, is
  `Holding`, `ToolDecisions`, `ImportHolds` and `Verdicts`.
  Permission rules are decided by the last one that matches, so an order lost on the way is a decision changed. TOML
  documents, their printing (a table's own values before the tables below it) and their reading are
  `Toml`, `TomlReading` and `TomlLayout`; rules, the wildcard matcher and the walk that decides a call are
  `Permissions`. What the import's report promises is in `Landing`, `Accounts` and `Walks`: every scalar of
  the source is accounted for, and what a key said to have landed becomes is at its destination. `ImportKept`
  and `ImportWritten` follow the document to the file and back, and `ReadBack` says what a loader of either file
  finds at each path of its source; what a number's spelling becomes is `Numbers`.
- **The agent registry** (`Agents`, `ToolLists`, `AgentDecisions`): builtins, definition files and the config's map,
  folded into one list; the rules a `tools:` line compiles to; and what the assembled agents are and decide.
- **The event stream** (`Sse`, `EventStream`): bytes into frames, and frames into what a caller reads.
- **Live sessions** (`SessionProtocol`, `SessionListing`, `SessionRun`): binders and listings over one socket
  directory, as a transition system in which any number of processes interleave and any of them may crash at
  any step; the listing as it runs over a directory nobody else is moving in; and that the two agree.
- **`ganja run`** (`Reporting` in `Reporter.dfy`, `Telling`, `SchemaWalk`, `PathText`): the reporter's streamed parts,
  the lines they come to, the walk over a JSON Schema, and the path it prints.

Code that the source writes as loops over changing state is a method here, proved against a function whose
properties the lemmas state. Paths are sequences of keys and indices: written with dots, two paths can be
spelled alike. An import's rows are kept in one sequence, in the order written; the source's two lists are
its mapped rows and its skipped rows. A JSON object's keys are distinct, which is what reading one gives
(`Json::from_ast` inserts) and what merging keeps (`DeepMerge.MergeWellFormed`).

## What was found

Each is a promise the code does not keep on every input; each has an input that shows it, and the exact condition.

- `permission` and `tools` are folded with the claimed entries at their explicit place. The comment above the
  function describes upstream's deep merge, in which they keep the derived place. As maps the two are one; as
  orders they are not, and any name that covers a tool, spelled beside it, is enough to decide differently
  (`FoldOrder.FoldCanDiffer`): a `*` (`FoldOrder.FoldCanDifferUnderAStar`), or the glob of an MCP server with no
  `*` anywhere (`FoldOrder.FoldCanDifferUnderAGlob`). Whatever the names, they decide every call alike if and only
  if, for each call, the last tool to answer it by the places the fold gives and the last by the places the merge
  gives say the same, places being read off where `tools` and `permission` spell them
  (`FoldOrder.FoldDecidesAlikeExactly`). Where every name is literal or `*`, that is: each tool whose rules clash
  with the `*`'s stands on the same side of it in both (`FoldOrder.NamesDecideAlikeExactly`; of one-word rules,
  `FoldOrder.WordsDecideAlikeExactly`).
- The comments above `tool_rules` and `CONVERSATION_TOOLS` say a `tools:` list leaves the gate on outside
  directories and the three conversation tools as they were. Each is left so if and only if no name the list opens
  covers it (`ToolLists.LeftAloneExactly`): a `*` opens all four, and naming the gate opens the gate
  (`ToolLists.LeftAloneCanBeOpened`).
- A row that says a key landed can be false in three ways, and `Import.RowsAreTrueExactly` says when for every row
  of every import. A command left out for having no template keeps its mapped rows, and none of them landed
  (`Import.RefusedCommandLandsNowhere`). An agent a `mode` of the same name replaced keeps the rows it wrote
  before, and such a row is true just when the mode spells the key, what it spells can be held, and it says the
  same (`AgentRows.SaysExactly`, `Import.ReplacedAgentAt`, `Import.ReplacedRowCanBeFalse`). And where two keys share
  a destination both have a row and one is overruled: of several names of one tool the last decides
  (`PermissionFold.EarlierNameSuperseded`), and of a provider's `endpoint` and `baseURL` the endpoint does
  (`Services.BothAddressesRowed`).
- Folding the project files lists each instruction path once, unless the first of the lists repeats one itself:
  a list that was there first is kept as it is (`Tiers.TiersAreFirsts`, `Tiers.FirstRepeatStays`).
- The `{env:}` token with nothing between the colon and the brace counts as a token in the code; the upstream
  pattern quoted above it asks for at least one character (`Tokens.EmptyTokenIsRefused`). What is found, less the
  empty tokens, is what that pattern finds in any text (`Tokens.LessEmptyIsThePattern`).
- A key of a migrated file spelled twice, the second time as `null`, keeps its first value
  (`MigrateMeaning.SetThenNulled`), and a reader that keeps the last spelling differs exactly there
  (`MigrateMeaning.NullUnsaysNothing`). The config is decoded before it is translated
  (`crates/ganja-cli/src/migrate.rs:122-125`), and a struct's key spelled twice is refused there; what is left is
  the free-form `initialization` of a language server (`crates/ganja-core/src/config.rs:1139`), where the
  comparison at `crates/ganja-cli/src/migrate.rs:147` then declines to write.

## Model

| member | source | states |
|---|---|---|
| DeepMerge.MergeTwice | crates/ganja-cli/src/import.rs:500-512 | overlaying the same tree twice is overlaying it once |
| DeepMerge.MergedKeys | crates/ganja-cli/src/import.rs:486-512 | a merge keeps every key of the target where it was and adds the source's new ones after, in their order |
| DeepMerge.MergeWellFormed | crates/ganja-cli/src/import.rs:491-512 | merging keeps keys distinct in every object at every depth |
| DeepMerge.RightBiased | crates/ganja-cli/src/import.rs:497-512 | on every path of keys the source spells, the merge holds the source's value over the target's, merged where both are objects; what is not an object leads where the source has it on any path |
| DeepMerge.SilenceKeeps | crates/ganja-cli/src/import.rs:497-512 | on every path the source says nothing about, the target's value stays |
| DeepMerge.AbsorbsExactly | crates/ganja-cli/src/import.rs:500-512 | exactly which trees a merge leaves as they were |
| DeepMerge.MergeAssociates | crates/ganja-cli/src/import.rs:2083-2127 | three tiers may be regrouped if and only if no aligned triple is object, non-object, object with something lost |
| DeepMerge.RegroupingCanDiffer | crates/ganja-cli/src/import.rs:500-512 | a concrete triple of tiers whose two groupings differ |
| Tiers.MergeInto | crates/ganja-cli/src/import.rs:500-512 | the in-place merge, as it loops, is the merge of the two trees |
| Tiers.MergeProject | crates/ganja-cli/src/import.rs:2116-2120 | folding the project files one by one is the fold of the tiers |
| Tiers.TiersAreFirsts | crates/ganja-cli/src/import.rs:521-547 | whether or not the config beneath spells a list, `instructions` is the first occurrence of every path of all lists in file order if and only if the first of those lists has no repeats |
| Tiers.FirstRepeatStays | crates/ganja-cli/src/import.rs:533-547 | a list that repeats a path, when it is the first, stays as it is |
| Tiers.TiersConcatenate | crates/ganja-cli/src/import.rs:2084-2120 | from any start the first list there is stays first and whole, and each path of the later ones is added once, in order |
| Tiers.FirstsHaveNoRepeats | crates/ganja-cli/src/import.rs:533-547 | a list's first occurrences hold no path twice, and a list without repeats is all of them |
| Tiers.ReplacedWhenNotLists | crates/ganja-cli/src/import.rs:535-537 | when the two sides are not both lists, nor both objects, `instructions` is replaced like any other key |
| Tiers.FoldWellFormed | crates/ganja-cli/src/import.rs:2116-2120 | folding files keeps keys distinct at every depth, so what is imported is a config like any other |
| Tokens.TokensAreLeftmost | crates/ganja-cli/src/import.rs:1006-1032 | what is found is exactly the leftmost, non-overlapping tokens, and stopping at an unclosed opener loses none |
| Tokens.LeftmostIsUnique | crates/ganja-cli/src/import.rs:1006-1032 | there is only one such list |
| Tokens.NoneLost | crates/ganja-cli/src/import.rs:1006-1032 | every token of the text begins inside a found one |
| Tokens.FindTokens | crates/ganja-cli/src/import.rs:1007-1032 | the `start` loop ends and returns that list |
| Tokens.GuardRefusesTokens | crates/ganja-cli/src/import.rs:981-1004 | a value is left out if and only if, trimmed, it is one token; otherwise it is carried unchanged |
| Tokens.TrimTakesBlanks | crates/ganja-cli/src/import.rs:981-1004 | what is trimmed off a value is the blanks at its ends, all of them and nothing else |
| Tokens.BeyondThePattern | crates/ganja-cli/src/import.rs:981-1032 | a token is one of the quoted pattern's if and only if something stands between its opener and its brace |
| Tokens.LessEmptyIsThePattern | crates/ganja-cli/src/import.rs:1006-1032 | in any text, what is found less the empty tokens is the leftmost list of the quoted pattern |
| Tokens.EmptyTokenIsRefused | crates/ganja-cli/src/import.rs:981-1032 | an empty token is left out though that pattern is nowhere in it |
| Guarding.GuardedPrunes | crates/ganja-cli/src/import.rs:1160-1196 | what is carried is an order-preserving pruning with no null, no number out of range and no lone token in it |
| Guarding.GuardedWholeExactly | crates/ganja-cli/src/import.rs:1160-1196 | a value comes across whole and without a row if and only if nothing in it had to be left out |
| Guarding.GuardedOnce | crates/ganja-cli/src/import.rs:1160-1196 | guarding what was guarded changes nothing and says nothing |
| Guarding.GuardedConserves | crates/ganja-cli/src/import.rs:1160-1196 | scalars in are scalars out plus skip rows |
| Guarding.GuardedRowsExplain | crates/ganja-cli/src/import.rs:1160-1196 | each row names one scalar that could not be held, with the reason that is true of it |
| Guarding.GuardedNamesExactly | crates/ganja-cli/src/import.rs:1160-1196 | a scalar has a row of its own if and only if it could not be held |
| Guarding.ValueKeepsAll | crates/ganja-cli/src/import.rs:395-440 | the TOML value of a guarded tree decodes to that tree, nothing dropped at any depth |
| ReadBack.ValueStays | crates/ganja-cli/src/import.rs:395-440 | that value leads, on every path, where the tree led and nowhere else: keys in order, lists of the same length, the same words, each fraction as spelled and each whole number as the number it is |
| Numbers.DecimalReads | crates/ganja-cli/src/import.rs:434-440 | a whole number reads back from its canonical spelling if and only if signed 64 bits hold it, and is never taken for a fraction |
| Numbers.WholeIsDecimal | crates/ganja-cli/src/import.rs:434-440 | every whole literal of JSON is the canonical spelling of a number, or `-0`, which is zero |
| Numbers.PartsSpell | crates/ganja-cli/src/import.rs:434-440 | whatever is put together of a sign, digits, a point and an exponent as a double is spelled is taken for one, and for a fraction if it has a point or an exponent |
| Numbers.SpellsInParts | crates/ganja-cli/src/import.rs:434-440 | and nothing else is |
| PermissionFold.FoldedInOrder | crates/ganja-cli/src/import.rs:1076-1150 | the folded value is the derived entries nothing explicit claims, then the explicit ones, guarded, in order |
| PermissionFold.FoldIsTheMerge | crates/ganja-cli/src/import.rs:1067-1150 | as a map, the fold is the guarded merge of the derived rules and the explicit ones |
| FoldOrder.FoldDecidesAlikeExactly | crates/ganja-cli/src/import.rs:1067-1150 | for any names, the fold decides every call as that merge does if and only if for each call the last answering tool by the fold's places and by the merge's say the same |
| FoldOrder.LastDecides | crates/ganja-permission/src/permission.rs:1135-1150 | a call is decided by the last entry whose rules answer it, and by nothing when none does |
| FoldOrder.NamesDecideAlikeExactly | crates/ganja-cli/src/import.rs:1067-1150 | where every name is literal or `*`: if and only if each tool that clashes with the `*` stands on the same side of it in both |
| FoldOrder.WordsDecideAlikeExactly | crates/ganja-cli/src/import.rs:1067-1150 | the same for such names with one-word rules, where to clash is to be another action |
| FoldOrder.FoldDecidesAlike | crates/ganja-cli/src/import.rs:1067-1150 | where every name is literal the fold decides every call as that merge does, whatever moved |
| FoldOrder.FoldedOrder | crates/ganja-cli/src/import.rs:1076-1150 | of two rules the fold holds, which comes first, from where each side spells them |
| FoldOrder.OverlaidOrder | crates/ganja-cli/src/import.rs:1067-1075 | the same for the merge |
| FoldOrder.FoldCanDiffer | crates/ganja-cli/src/import.rs:1076-1150 | for any tool and any other name that covers it, a config for which the fold allows a call the merge denies |
| FoldOrder.FoldCanDifferUnderAStar | crates/ganja-cli/src/import.rs:1076-1150 | such a config with a `*` |
| FoldOrder.FoldCanDifferUnderAGlob | crates/ganja-cli/src/import.rs:1076-1150 | such a config with an MCP server's glob and no `*` |
| PermissionFold.FoldHolds | crates/ganja-cli/src/import.rs:1076-1150 | under each tool the fold holds what is explicit, guarded, and failing that what `tools` last said; nothing beside a bare action |
| PermissionFold.PermissionAccounts | crates/ganja-cli/src/import.rs:1076-1150 | every rule `tools` or `permission` spells has a row |
| PermissionFold.PermissionHonest | crates/ganja-cli/src/import.rs:1076-1150 | every row names a spelled rule, and every rule said to have landed holds its value, or for a tool what the last of its names said |
| PermissionFold.LastNameDecides | crates/ganja-cli/src/import.rs:1088-1128 | of several names of one tool the last decides its rule |
| ToolDecisions.FlagDecides | crates/ganja-cli/src/import.rs:1088-1128 | every call of a tool is allowed where the last entry of `tools` for it says true and denied where it says false, unless something explicit covers it or another name of `tools` does from a later place |
| ImportHolds.ImportedToolDecides | crates/ganja-cli/src/import.rs:774-851 | so do the rules of the imported document |
| ImportHolds.AgentToolDecides | crates/ganja-cli/src/import.rs:1247-1286 | and those of an imported agent |
| ToolDecisions.BareActionDecides | crates/ganja-cli/src/import.rs:1082-1129 | a bare action comes across alone and decides every call |
| Verdicts.ToolsRowed | crates/ganja-cli/src/import.rs:1088-1121 | the first rows of a fold are one for each entry of `tools`, in order: malformed, overruled by what is explicit, or landed on its tool |
| PermissionFold.EarlierNameSuperseded | crates/ganja-cli/src/import.rs:1088-1128 | two names of one tool: a row each, one rule, the last one's |
| Accounts.EveryLeafHasARow | crates/ganja-cli/src/import.rs:774-851 | accounting for a value part by part comes to a row for every scalar, naming it or an ancestor |
| Walks.WalkSound | crates/ganja-cli/src/import.rs:1255-1280 | over a whole key loop, rows stay true of the document the slots make, if each key's rows are true of its own |
| Entries.AgentTold | crates/ganja-cli/src/import.rs:1247-1286 | an agent's rows account for all of it and are true of the definition built, folds and forced modes included |
| Verdicts.AgentKeysRowed | crates/ganja-cli/src/import.rs:1247-1286 | every key of an agent outside its rules has one row: landed if its value is one the key takes, and otherwise with what is wrong |
| Entries.CommandTold | crates/ganja-cli/src/import.rs:1326-1357 | a command's rows account for all of it, and are true of it when it comes across |
| Verdicts.CommandKeysRowed | crates/ganja-cli/src/import.rs:1326-1357 | the same for a command, and a row of its own where it says nothing to send |
| Services.ServerTold | crates/ganja-cli/src/import.rs:1417-1499 | an MCP server's rows account for all of it and are true of what was written, or of its being left out |
| Services.LspTold | crates/ganja-cli/src/import.rs:1590-1764 | the same for a language server |
| Services.ProviderTold | crates/ganja-cli/src/import.rs:1868-2027 | the same for a provider: its dialect is its package's wire, its address the one it is reached at, its headers a pruning |
| Services.RefusedClaimsNothing | crates/ganja-cli/src/import.rs:592-632 | a server, language server or provider left out leaves no mapped row, and of its keys only credentials |
| Verdicts.ServerRefusedRow | crates/ganja-cli/src/import.rs:1417-1499 | a server left out says why: its kind, or what is wrong with its program or address |
| Verdicts.LspRefusedRow | crates/ganja-cli/src/import.rs:1590-1764 | a language server left out says why: it leans on a definition this build has not got, one of its lists is wrong, the last spelled if both are, or it lacks one |
| Verdicts.ProviderRefusedRow | crates/ganja-cli/src/import.rs:1868-2027 | a provider left out says why: its name ships, the first of its keys that is wrong, or it lacks a wire or an address |
| Services.CredentialAlwaysRowed | crates/ganja-cli/src/import.rs:2001-2012 | an API key has its row whatever became of the provider it was in |
| Services.ProviderHolds | crates/ganja-cli/src/import.rs:1868-2027 | a carried provider has the wire of its package, its endpoint or failing that its base URL, and no key |
| Services.BothAddressesRowed | crates/ganja-cli/src/import.rs:1950-2027 | a carried provider that spells both addresses has a row for each, and the endpoint alone |
| Import.CommandNeedsTemplate | crates/ganja-cli/src/import.rs:1349-1357 | a command comes across if and only if it spells a template that is a string and not a lone token |
| Import.SectionFinds | crates/ganja-cli/src/import.rs:1200-1215 | under each name a section holds what that name's entry became, and nothing else |
| Import.AgentsAfterModes | crates/ganja-cli/src/import.rs:844-851 | an agent of the document is the mode's definition where a mode has the name, and otherwise its own |
| Import.ModeAlwaysAgent | crates/ganja-cli/src/import.rs:1274-1286 | every `mode` entry that is an object becomes an agent, and a primary one whatever it said |
| ImportHolds.WordsHeld | crates/ganja-cli/src/import.rs:774-851 | the document holds the five top-level words just as spelled, unless one is no string or a lone token |
| ImportHolds.ValuesHeld | crates/ganja-cli/src/import.rs:774-851 | it holds the snapshot flag, and of the instructions exactly those that are neither addresses nor lone tokens, in order |
| ImportHolds.AgentImported | crates/ganja-cli/src/import.rs:774-851 | each agent is there if a mode is or if it has anything, and holds, field by field, what the mode or else its own entry spells that can be read |
| ImportHolds.CommandImported | crates/ganja-cli/src/import.rs:1326-1357 | each command is there if and only if it has a template, and holds the words of its four fields |
| ImportHolds.ServerImported | crates/ganja-cli/src/import.rs:1417-1499 | each MCP server is there if and only if it names a kind and that kind's program or reachable address, and holds the fields of its kind |
| ImportHolds.LspImported | crates/ganja-cli/src/import.rs:1590-1764 | each language server is there if and only if its lists can be read and it brings what neither this build nor its being off supplies, and holds its five fields |
| ImportHolds.ProviderImported | crates/ganja-cli/src/import.rs:1868-2027 | each provider is there if and only if its name is its own, its package has a wire and an address is spelled and all of them are reachable; it holds the wire, the address and the headers |
| ImportHolds.NothingElse | crates/ganja-cli/src/import.rs:637-770 | the document has no key beside its thirteen |
| Verdicts.RootKeysRowed | crates/ganja-cli/src/import.rs:774-851 | a top-level key of one value has the row the value earns, and one that goes nowhere has the reason why |
| Import.EveryScalarHasARow | crates/ganja-cli/src/import.rs:774-851 | for every config, each scalar has a row naming it or a value it sits in, across every refusal and fold |
| Import.ImportIsHonest | crates/ganja-cli/src/import.rs:774-851 | every row names a key of the config and, the two excused families apart, its destination holds what becomes of that key |
| Import.RowsAreTrueExactly | crates/ganja-cli/src/import.rs:774-851 | for every mapped row of every import, whether its destination is there and whether it holds what the row's own key says, by conditions on the config |
| AgentRows.RowsAreShaped | crates/ganja-cli/src/import.rs:1247-1286 | every mapped row of an agent is of a field, of its bare action, of one explicit rule or of one tool |
| AgentRows.HasExactly | crates/ganja-cli/src/import.rs:1247-1286 | a mode's definition has something where an agent's row leads if and only if the mode spells something there that can be held |
| AgentRows.SaysExactly | crates/ganja-cli/src/import.rs:1247-1286 | it says there what the agent's row says if and only if the mode's own keys do |
| Landing.LastWordExactly | crates/ganja-cli/src/import.rs:1094-1121 | a destination holds what a key itself says if and only if no later name of the same tool and no endpoint beside a base URL overrules it |
| Import.RefusedCommandLandsNowhere | crates/ganja-cli/src/import.rs:1349-1357 | nothing an untemplated command's rows say landed is in the document |
| Import.ReplacedAgentAt | crates/ganja-cli/src/import.rs:844-851 | every path into an agent a mode replaced leads where it leads in the mode's definition |
| Import.ReplacedRowCanBeFalse | crates/ganja-cli/src/import.rs:844-851 | an agent of one prompt beside an empty mode of its name: its row says the prompt landed, and it is nowhere |
| Import.ModeRowsAreHonest | crates/ganja-cli/src/import.rs:844-851 | a mode's rows are true of the agents of the final document |
| ImportRun.Report.Settle | crates/ganja-cli/src/import.rs:584-632 | a refusal leaves its own row and the credential rows; a clean walk leaves every row |
| ImportRun.ReadGuarded | crates/ganja-cli/src/import.rs:1160-1196 | the recursion, as it writes rows, carries and reports what the specification says |
| ImportRun.ReadTexts | crates/ganja-cli/src/import.rs:958-973 | the list is carried whole, or the first element at fault gives the reason |
| ImportRun.ReadPermission | crates/ganja-cli/src/import.rs:1076-1150 | the two loops of the fold come to the specified value and rows |
| ImportRun.ReadAgent | crates/ganja-cli/src/import.rs:1247-1286 | the loop over an agent's keys, with its `folded` flag, comes to the specified definition and rows |
| ImportRun.ReadServer | crates/ganja-cli/src/import.rs:1417-1499 | the loop over a server's keys, with its own report and its last refusal, comes to the specified entry and rows |
| ImportRun.ReadProvider | crates/ganja-cli/src/import.rs:1868-1948 | the same for a provider, where the first refusal stands |
| ImportRun.MapConfig | crates/ganja-cli/src/import.rs:774-851 | the whole mapping, as it runs, builds the specified document and writes the specified rows |
| ImportWritten.ImportIsKept | crates/ganja-cli/src/import.rs:382-440 | nothing an import builds would be dropped by the writing of it |
| ImportWritten.WrittenReadsBack | crates/ganja-cli/src/import.rs:707-770 | the written file, read back, holds under every top-level key exactly what was built, every order kept |
| ReadBack.WrittenStays | crates/ganja-cli/src/import.rs:707-770 | on every path the file, read back, holds what the document holds: keys in order, lists of the same length, the same words, fractions as spelled, whole numbers as the numbers they are |
| TomlReading.ReadPrinted | crates/ganja-cli/src/migrate.rs:386-450 | any printable TOML tree is read back from its printed sections, values ahead of sub-tables |
| MigrateMeaning.MigrationKeepsMeaning | crates/ganja-cli/src/migrate.rs:340-492 | the migrated document, printed and read back, is the source less its null properties |
| ReadBack.MigratedStays | crates/ganja-cli/src/migrate.rs:340-510 | the migrated file, read back, leads somewhere on exactly the paths where the source has something that is not null, and holds there the same word or flag, a list as long, a fraction as spelled or the same whole number |
| MigrateMeaning.AgreeAt | crates/ganja-cli/src/migrate.rs:340-492 | no key path is lost or invented, and each leads to the source's value |
| MigrateMeaning.PermissionKeepsOrder | crates/ganja-cli/src/migrate.rs:374-382 | a permission table at any depth reads back in its own order |
| MigrateMeaning.MigrationKeepsDecisions | crates/ganja-cli/src/migrate.rs:374-382 | so the migrated rules decide every call as the source's did |
| MigrateMeaning.HeadersWouldReorder | crates/ganja-cli/src/migrate.rs:374-382 | rendered under headers instead, a permission table can decide a call differently |
| MigrateMeaning.TranslatedExactly | crates/ganja-cli/src/migrate.rs:340-492 | a source is translated if and only if every number fits and no list holds a null |
| MigrateMeaning.RefusalNamesTheCause | crates/ganja-cli/src/migrate.rs:340-510 | the path a refusal names leads to a number TOML cannot hold or to a null in a list |
| MigrateMeaning.MeaningPrunesNulls | crates/ganja-cli/src/migrate.rs:386-450 | what is left out of a migration is its null properties and nothing else |
| MigrateMeaning.NullUnsaysNothing | crates/ganja-cli/src/migrate.rs:386-450 | a key holds the last value spelled for it that is not null, which is the last one spelled unless that is null after another |
| MigrateMeaning.SetThenNulled | crates/ganja-cli/src/migrate.rs:386-450 | a key set and then spelled again as null keeps what it was set to |
| MigrateRun.Translate | crates/ganja-cli/src/migrate.rs:340-372 | the translation, as it inserts and pushes rows, builds the specified document and reports each null |
| MigrateRun.SkippedAreNulls | crates/ganja-cli/src/migrate.rs:386-492 | the skipped rows are exactly the paths that lead to a null |
| Permissions.Glob | crates/ganja-permission/src/permission.rs:1939-1972 | the backtracking matcher ends and decides what a wildcard pattern covers |
| Permissions.MatchesText | crates/ganja-permission/src/permission.rs:1909-1936 | a match is a match up to the kind of separator, with a trailing ` *` optional |
| Permissions.LiteralMatches | crates/ganja-permission/src/permission.rs:1909-1972 | a literal name matches itself alone |
| Permissions.PrefixMatches | crates/ganja-permission/src/permission.rs:1909-1972 | a trailing star matches by prefix |
| Permissions.DecideAppend | crates/ganja-core/src/agent_tests.rs:22-33 | later rules decide; earlier ones are reached only when no later one covers the call |
| ToolLists.ToolRules | crates/ganja-core/src/agent.rs:1080-1114 | the two loops of `tool_rules` come to the specified rules |
| ToolLists.ListDecides | crates/ganja-core/src/agent.rs:1080-1114 | the decision table of any list over any rules: what an opened name covers is allowed, other registered and MCP names denied, the rest as before |
| ToolLists.ListTable | crates/ganja-core/src/agent.rs:1080-1114 | the same table with every name spelled out |
| ToolLists.LiteralListSays | crates/ganja-core/src/agent.rs:1080-1114 | a list of literal names allows exactly those it holds, conversation tools aside |
| ToolLists.LeftAloneExactly | crates/ganja-core/src/agent.rs:157-166 | under any list the outside-directory gate, and each conversation tool, decides as before if and only if no name the list opens covers it |
| ToolLists.LeftAloneCanBeOpened | crates/ganja-core/src/agent.rs:1080-1114 | a `*` opens the gate and all three conversation tools over any rules, and naming the gate opens the gate |
| Agents.Roster.ApplyDefinition | crates/ganja-core/src/agent.rs:914-931 | a definition file states its fields and its list's rules over whatever answered to its name |
| Agents.Roster.Overlay | crates/ganja-core/src/agent.rs:756-772 | the config's map removes what it disables and states the rest over what is there |
| Agents.Roster.ResolveDefault | crates/ganja-core/src/agent.rs:1122-1144 | the search for the agent to start on gives the specified name or error |
| Agents.Build | crates/ganja-core/src/agent.rs:325-333 | the whole assembly comes to the specified list and start |
| Agents.RegistryIsPerName | crates/ganja-core/src/agent.rs:325-333 | names stay distinct, and each name answers with the last word of its tiers on every field, all their rules in order, or nothing if disabled |
| AgentDecisions.AnswersToItsName | crates/ganja-core/src/agent.rs:325-333 | a name answers if and only if something ships under it or a file or the config speaks of it, and the config does not turn it off |
| AgentDecisions.DecidesInTurn | crates/ganja-core/src/agent.rs:390-813 | every agent decides every call by its layers in turn: the config's entry of it, its files from the last, the config's own rules, what ships with that agent, and what ships with all |
| AgentDecisions.IsWhatWasSaid | crates/ganja-core/src/agent.rs:390-813 | every field of every agent is what the config's entry says, or else the last file to say it, or else what ships |
| Agents.HighestTierDecides | crates/ganja-core/src/agent.rs:792-813 | of an agent's tiers, the highest whose rules cover a call decides it |
| Agents.ListedInAFile | crates/ganja-core/src/agent.rs:914-931 | any list in the last definition file of a name decides for its agent over the file's other rules and all beneath |
| Agents.DefaultIsSelectable | crates/ganja-core/src/agent.rs:1122-1144 | a session starts if and only if there is an agent it may start on, and what it starts on exists and may be switched to |
| AgentDecisions.StartsOnTheFirst | crates/ganja-core/src/agent.rs:1122-1144 | with nothing named a session starts on the first agent that is neither hidden nor only sent for, or fails for want of one |
| AgentDecisions.StartsAsNamed | crates/ganja-core/src/agent.rs:1122-1144 | a name that was asked for starts the session or is refused as unknown, as sent for only, or as hidden, in that order |
| Agents.RegistryKeepsOrder | crates/ganja-core/src/agent.rs:325-333 | a shipped agent that is not disabled stays ahead of all that came after it |
| Agents.StartsOnBuild | crates/ganja-core/src/agent.rs:390-600 | with nothing named and no tier speaking of it, a session starts on `build` |
| Sse.Frames.Push | crates/ganja-client/src/sse.rs:130-132 | bytes join what was pushed, and nothing popped changes |
| Sse.Frames.Pop | crates/ganja-client/src/sse.rs:139-162 | what is popped is the first whole frame of the buffer, read, and the rest stays |
| Sse.PoppedAreTheSplit | crates/ganja-client/src/sse.rs:113-171 | for any interleaving of pushes and pops, what has come out is the start of the split of all bytes pushed, and what is left is its rest |
| Sse.RoundTripsExactly | crates/ganja-client/src/sse.rs:139-162 | a frame reads back as written if and only if no part ends in a carriage return and a payload of several lines does not start with an empty one |
| Sse.AnyFrameReads | crates/ganja-client/src/sse.rs:139-162 | whoever wrote it, a frame has the name its last event line gives, or `message`, and its data lines joined, but for empty ones at the start |
| Sse.StreamReadsBack | crates/ganja-serve/src/sse.rs:122-127 | a list of frames written one after another splits into exactly those frames |
| Sse.PrintOneIsPrint | crates/ganja-serve/src/sse.rs:122-127 | the frame serve writes is the one-line case |
| EventStream.Events | crates/ganja-client/src/lib.rs:746-790 | the handshake's outcome depends on the bytes alone, and what the caller then reads is what follows `connected`, buffered bytes included |
| EventStream.Stream.Next | crates/ganja-client/src/lib.rs:942-997 | each poll takes the first of what is left to read, an error is the last, and an end means nothing was left |
| EventStream.ItemsAreMessagesThenAnEnding | crates/ganja-client/src/lib.rs:942-997 | what is read is the messages before the first terminal cause, in order, then at most one error |
| EventStream.ChunkingIsInvisible | crates/ganja-client/src/lib.rs:746-790 | however the same bytes are cut into chunks, the handshake and all that is read after it are the same |
| EventStream.ServedIsRead | crates/ganja-serve/src/sse.rs:71-127 | every event serve writes after the hello is read, in order, up to the first frame whose name or payload this build cannot read or that is an eviction; that one is read as the error it is, and failing one, what is read last is how the bytes stopped |
| EventStream.HelloByName | crates/ganja-client/src/lib.rs:746-790 | the handshake succeeds if and only if the first frame is named `connected` |
| SessionProtocol.StepKeepsInv | crates/ganja-cli/src/main.rs:1515-1638 | every step of every binder and listing keeps: locks agree with their holders, and a holder's files are its own |
| SessionProtocol.RunKeepsInv | crates/ganja-cli/src/main.rs:1515-1638 | so does every run from any leftover directory |
| SessionProtocol.ListingsTouchNothingHeld | crates/ganja-cli/src/main.rs:1583-1619 | no step of a listing changes the socket or record of a name another process holds |
| SessionProtocol.ServingIsStable | crates/ganja-cli/src/main.rs:1707-1726 | a served name's socket stays until its binder unlinks it or dies |
| SessionProtocol.BindNeverFindsAFile | crates/ganja-serve/src/socket.rs:166-238 | a binder that cleared its name finds no file when it binds |
| SessionProtocol.NamesAreExclusive | crates/ganja-serve/src/socket.rs:166-238 | two binders never serve one name |
| SessionProtocol.HeldRowsAreTrue | crates/ganja-cli/src/main.rs:1583-1595 | a row printed as held is of a name somebody else held at that moment |
| SessionProtocol.EarlyReleaseLosesASocket | crates/ganja-cli/src/main.rs:1707-1726 | if the lock were let go before the unlink, a binder that takes the name then loses the socket it has just bound |
| SessionProtocol.EarlyReleaseFromTheStart | crates/ganja-cli/src/main.rs:1707-1726 | a schedule from a leftover directory that reaches it |
| SessionListing.Directory.Live | crates/ganja-cli/src/main.rs:1515-1638 | with no binder moving, a listing removes exactly the stale sockets, and of the records read exactly those neither held nor backed by a socket |
| SessionListing.RowsAreTheLive | crates/ganja-cli/src/main.rs:1542-1619 | a name has a row if and only if its socket answered or is held |
| SessionListing.RowsAreTrue | crates/ganja-cli/src/main.rs:1542-1619 | each row says what its socket answered, under the name its record gives, and none is printed twice |
| SessionRun.ListingAlone | crates/ganja-cli/src/main.rs:1515-1638 | every run in which one listing alone moves and ends leaves the locks as they were, the files and records a listing leaves, and a row for each live name |
| SessionRun.StepsEnd | crates/ganja-cli/src/main.rs:1515-1638 | every step of a listing brings it nearer its end, whoever else moves |
| SessionRun.ComesToItsEnd | crates/ganja-cli/src/main.rs:1515-1638 | from wherever such a run has come to there is a way to its end |
| SchemaWalk.WalkFindsFirstOpen | crates/ganja-cli/src/run.rs:574-630 | nothing is found if and only if every object reached closes itself; what is found is reached, open, and the first in document order |
| SchemaWalk.WalkFindsWhatIsLeftOpen | crates/ganja-cli/src/run.rs:574-630 | the same with every keyword spelled out: which paths lead to subschemas, and which nodes leave their objects open |
| PathText.PrintedNamesOnePath | crates/ganja-cli/src/run.rs:635-644 | two paths print alike only if they are one path, whatever their keys are spelled with |
| PathText.PrintedStep | crates/ganja-cli/src/run.rs:635-644 | a path one step longer prints as the path and then the step: a dot and the name, a quoted name, or an index |
| Reporting.Reporter.Apply | crates/ganja-cli/src/run.rs:1040-1173 | one event moves the reporter to the specified state, in either format, and says whether the turn is over |
| Reporting.Reporter.Flush | crates/ganja-cli/src/run.rs:1225-1250 | every open part is written, in order, and none is left open |
| Reporting.Account | crates/ganja-cli/src/run.rs:960-983 | a turn's account is that of its events up to the one that ends it, with everything flushed |
| Reporting.AccountIsTold | crates/ganja-cli/src/run.rs:1040-1173 | between closes: what is written at once, then every part opened, in order and whole, then the closing line; nothing stays open |
| Telling.ReadableAccount | crates/ganja-cli/src/run.rs:1040-1250 | for any events in the readable format: the answers are exactly the text parts opened, in order, whole and trimmed, but for blank ones; each finished call is told as it ended; the header stands once, for the first assistant message; and there is no other line |
| Telling.MachineAccount | crates/ganja-cli/src/run.rs:1040-1250 | for any events in the other: every text and reasoning part opened, in order, whole and under its own name; and each step, finished call and failure in order |
| Telling.ToldInOrder | crates/ganja-cli/src/run.rs:1040-1250 | each event first tells the answers it closes and then its own line; a failed call gives its reason on the other channel |
| Telling.FailsAsTold | crates/ganja-cli/src/run.rs:1103-1268 | a turn fails with what its last event says, after whatever had failed before |
| Reporting.OpenAtTheClose | crates/ganja-cli/src/run.rs:1097-1101 | a part holds, when it closes, its start and the deltas sent to it while it was the first open part of its id |
| Reporting.EachPartOnce | crates/ganja-cli/src/run.rs:1225-1250 | every text or reasoning part opened before the end is written exactly once, in opening order |
| Reporting.OpenedHoldTheirDeltas | crates/ganja-cli/src/run.rs:1097-1101 | where open ids are distinct, each part holds its start and exactly the deltas addressed to it |

## Left out

- File discovery, reading and writing, terminal prompts and printed tables: I/O. Sources are trees, definition files are already parsed, the memory door's rules and the shipped texts are parameters.
- Warnings, and every sentence written for a person: a refusal is its one-word reason.
- `reachable_in_the_clear` and its host check, and the list of shipped providers: parameters, so every theorem holds for any of them.
- `jsonc_parser`, `toml_edit` and `serde`: a JSON tree is given, TOML is a tree, its printed sections and their reading; comments and layout within a line are not modelled.
- Floats: a number written as a fraction is its spelling, carried when it spells a decimal double.
- UTF-8: frames are split on bytes, and the lossy decoding of a line's text is not modelled.
- HTTP, TLS, timers: a read is a chunk, a timeout, an error or the end, in any order; event and notice payloads decode by parameters. A script that has run out reads as waiting.
- `claude_hooks.rs`, `mcp.rs`, `login.rs` and the other commands: the same accounting in smaller forms, or wiring.
- The registry of an unreadable directory and failed unlinks in a listing: each ends it or leaves names out, and no file is touched.
- Replies to permission requests in a run, which are commands, and the line on stderr that says one was refused.
- Escape codes, timestamps and the session id in the reporter's lines: constants or a clock beside the parts modelled.
- PathText.Escape: which characters print as themselves is a parameter, as the table of printable characters is the standard library's.
