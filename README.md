# ChestCleaner: the cleaning-item command

This project models `CleaningItemCommand`, the `/cleaningitem` command of the
ChestCleaner Minecraft plugin. The model covers:

- **Routes.** The fourteen routes its constructor registers with the command tree.
- **Reading the configuration.** The handler that shows a configuration value.
- **The cleaning item.** The handlers that hand out the cleaning item and the
  ones that change it (item, display name, lore).
- **Flags.** The three Boolean flags: cleaning item active, durability loss,
  open-event mode.
- **Tab completion.**

The modules:

- `JavaStrings`: the Java library string behaviour the command relies on.
  - `equalsIgnoreCase`, `Boolean.parseBoolean`, `String.valueOf(boolean)`.
  - Joining with a separator and `AbstractCollection.toString`.
  - `String.split` on a literal separator, which drops trailing empty pieces.
  - `String.replace` of one character.
  - `String.compareTo` ordering and sorting.

  The properties are proved on these definitions: the split/join round trip,
  no `&` surviving the colour substitution, and the sort being ordered and a
  permutation.
- `Host`: what the command sees of the server, as plain values.
  - Senders, permission nodes, item stacks and messages.
  - The plugin configuration as a `ConfigStore` class whose setters change
    its fields in place.
- `Routes`: the sub-command names and the route records (pattern words,
  handler, capture type, greediness).
  - The table as written, with its discrepancy at line 84, and the
    corrected table.
  - The registration side of the command tree, a class whose `AddPath`
    appends a route.
- `CleaningItem`: the handlers.
  - Each state-changing handler is a method that works on the
    `ConfigStore`. Its postcondition ties the new configuration and the
    messages sent to a step function on configuration snapshots
    (`FlagStep`, `SetItemStep`, `NameStep`, `LoreStep`).
  - The properties the command promises are proved on those step functions.
  - The loops are kept as loops with their invariants. `BuildValue`
    builds the value for both `setItemName` and `setItemLore`. The
    lore-filling loop is kept in `SetItemLore`, and the loop over online
    players in `giveCleaningItem`.

The host's collaborators are parameters:

- `Bukkit.getPlayer` is a function `findPlayer` from a name to an optional
  player name.
- The online players are a sequence of names.
- `StringUtils.isStringTrueOrFalse` is a predicate `isTrueOrFalse`.
- `StringUtils.getBooleanValueStringList` is a sequence `booleanValues`.

## Model

| member | source | states |
|---|---|---|
| Routes.Table | src/chestcleaner/commands/CleaningItemCommand.java:61-90 | the fourteen registrations, in registration order, with the handler of "active true/false" as a parameter; its shape is stated by `TableConventions` and `TableHandlers` |
| Routes.AsWritten | src/chestcleaner/commands/CleaningItemCommand.java:57-90 | the constructor's fourteen registrations follow the route conventions; "active true/false" is bound to the lore handler with a Boolean capture, and no route reaches the active setter |
| Routes.Intended | src/chestcleaner/commands/CleaningItemCommand.java:57-90 | with line 84 bound to the active setter, every handler is registered and every Boolean route reaches the setter of its own sub-command |
| Routes.TableConventions | src/chestcleaner/commands/CleaningItemCommand.java:59-90 | fourteen routes, each "/cleaningitem" plus one or two words with a known sub-command; the capture is absent exactly on literal-only and "@a" routes; only the name and lore String captures are greedy; Boolean captures never are |
| Routes.TableHandlers | src/chestcleaner/commands/CleaningItemCommand.java:83-90 | entry 11 is "active true/false" with whatever handler line 84 binds; every other Boolean route reaches its own setter; no other route reaches the active setter |
| Routes.OtherHandlersRegistered | src/chestcleaner/commands/CleaningItemCommand.java:59-90 | whatever line 84 binds, every handler other than the active setter is registered |
| Routes.ActiveRouteMiswired | src/chestcleaner/commands/CleaningItemCommand.java:83-84 | the pattern "/cleaningitem active true/false" reaches the lore setter as written and the active setter as intended; only the intended table registers the active setter |
| CleaningItem.MiswiredActiveSetsLore | src/chestcleaner/commands/CleaningItemCommand.java:84 | "/cleaningitem active true", reaching the lore setter, makes the lore the one line "true" and leaves the active flag as it was |
| Routes.CommandTree.AddPath | src/chestcleaner/commands/CleaningItemCommand.java:61-90 | a registration appends exactly one route after the existing ones |
| CleaningItem.CleaningItemCommand.constructor | src/chestcleaner/commands/CleaningItemCommand.java:57-91 | the fourteen `addPath` calls leave a fresh tree under alias "cleaningitem" whose routes are exactly the as-written table, in order |
| CleaningItem.CleaningItemCommand.GetConfig | src/chestcleaner/commands/CleaningItemCommand.java:105-134 | one success notice with the key of the case-insensitive sub-command and the current value ("<null>" for an absent name or lore, the list text of a lore, "true"/"false" for a flag); key and value are empty for any other word |
| CleaningItem.PropertyOf | src/chestcleaner/commands/CleaningItemCommand.java:111-130 | the if-chain of getConfig: each of the five sub-commands, in any letter case, selects its own value, and a value is selected only by its own sub-command; any other word selects none |
| CleaningItem.NameText | src/chestcleaner/commands/CleaningItemCommand.java:113-115 | a present display name is shown as itself, an absent one as "<null>" |
| CleaningItem.LoreText | src/chestcleaner/commands/CleaningItemCommand.java:118-120 | a present lore is shown as its list text, which is never "<null>"; an absent one as "<null>" |
| CleaningItem.PropertyKey | src/chestcleaner/commands/CleaningItemCommand.java:48-52 | name, lore, active, durabilityLoss map to "cleaningitem " plus the sub-command; openEvent maps to the bare word; the key is empty exactly when the word is none of the five |
| CleaningItem.PropertyKeyIgnoresCase | src/chestcleaner/commands/CleaningItemCommand.java:111-130 | sub-commands differing only in letter case select the same key |
| CleaningItem.PropertyKeyDeterminesSubCommand | src/chestcleaner/commands/CleaningItemCommand.java:48-52 | two words with the same non-empty key are the same sub-command up to case |
| CleaningItem.ConfigSubCommandsExclusive | src/chestcleaner/commands/CleaningItemCommand.java:111-130 | at most one branch of the if-chain can match a word, so the order of the tests does not matter |
| CleaningItem.CheckPlayer | src/chestcleaner/commands/CleaningItemCommand.java:136-143 | no message exactly for a player; otherwise the "you are not a player" error |
| CleaningItem.CleaningItemCommand.GetCleaningItem | src/chestcleaner/commands/CleaningItemCommand.java:150-161 | the sender receives one item exactly when a player with the get permission; otherwise the not-a-player or permission error |
| CleaningItem.SetItemStep | src/chestcleaner/commands/CleaningItemCommand.java:169-197 | only the cleaning item can change; non-players, senders without permission and an empty hand (air) change nothing and get their error; otherwise the held item is stored with amount 1 and damage 0, its type, name and lore kept; a non-air item stays non-air |
| CleaningItem.Stored | src/chestcleaner/commands/CleaningItemCommand.java:185-190 | the stored item has amount 1 and damage 0 and is otherwise the held item |
| CleaningItem.CleaningItemCommand.SetCleaningItem | src/chestcleaner/commands/CleaningItemCommand.java:169-197 | the store afterwards and the messages are those of `SetItemStep` |
| CleaningItem.GiveStep | src/chestcleaner/commands/CleaningItemCommand.java:204-234 | without permission nobody receives anything; a name the lookup resolves gives that player one item, even "@a"; otherwise "@a" in any case gives every online player one item in order; otherwise the not-online error and nobody receives anything |
| CleaningItem.CleaningItemCommand.GiveCleaningItem | src/chestcleaner/commands/CleaningItemCommand.java:204-234 | the loop over online players delivers exactly `GiveStep` |
| CleaningItem.GiveNeedsPermission | src/chestcleaner/commands/CleaningItemCommand.java:207-226 | a non-empty delivery implies the give permission, and all its messages are successes |
| CleaningItem.GotItemNotices | src/chestcleaner/commands/CleaningItemCommand.java:221-226 | one "player got the item" notice per recipient, in order |
| CleaningItem.FlagStep | src/chestcleaner/commands/CleaningItemCommand.java:242-300 | one message; the item and the other flags never change; without permission the configuration is unchanged; a failed true/false check (active, durability loss) reports the validation error and changes nothing; otherwise the flag becomes `parseBoolean` of the token and the reported value is "true"/"false" |
| CleaningItem.CleaningItemCommand.SetCleaningItemActive | src/chestcleaner/commands/CleaningItemCommand.java:242-257 | the store afterwards and the messages are those of `FlagStep` for the active flag |
| CleaningItem.CleaningItemCommand.SetDurabilityLoss | src/chestcleaner/commands/CleaningItemCommand.java:265-280 | the store afterwards and the messages are those of `FlagStep` for the durability-loss flag |
| CleaningItem.CleaningItemCommand.SetOpenEventMode | src/chestcleaner/commands/CleaningItemCommand.java:288-300 | the store afterwards and the messages are those of `FlagStep` for the open-event flag, whatever the true/false check would say |
| CleaningItem.OpenEventAcceptsAnyToken | src/chestcleaner/commands/CleaningItemCommand.java:293-299 | a permitted open-event change never depends on the validator, always succeeds, and any token other than "true" in some case sets the flag to false |
| CleaningItem.FlagStepIdempotent | src/chestcleaner/commands/CleaningItemCommand.java:247-299 | running a Boolean setter twice with the same token leaves the configuration as after once |
| CleaningItem.ReportedFlagReadsBack | src/chestcleaner/commands/CleaningItemCommand.java:253-255 | the value reported in the changed-value message parses back to the stored flag, under the flag's key |
| CleaningItem.WithFlag | src/chestcleaner/commands/CleaningItemCommand.java:254 | setting one flag sets it and leaves the item and the other flags alone |
| CleaningItem.CleaningItemCommand.SetItemName | src/chestcleaner/commands/CleaningItemCommand.java:348-373 | the store afterwards and the messages are those of `NameStep` |
| CleaningItem.NameStep | src/chestcleaner/commands/CleaningItemCommand.java:348-373 | without permission nothing changes; otherwise only the display name changes, to `ItemName`: a string as long as the joined value, free of '&', with '§' wherever the value has '&' and the value's character everywhere else; the message shows that name |
| CleaningItem.ItemName | src/chestcleaner/commands/CleaningItemCommand.java:357-362 | the new name is as long as `args[1..]` joined by spaces, has no '&', has '§' wherever the joined value has '&' and the value's character everywhere else |
| CleaningItem.CleaningItemCommand.SetItemLore | src/chestcleaner/commands/CleaningItemCommand.java:308-340 | the store afterwards and the messages are those of `LoreStep`; the filling loop produces the coloured pieces in order |
| CleaningItem.LoreStep | src/chestcleaner/commands/CleaningItemCommand.java:308-340 | without permission nothing changes; otherwise only the lore changes, to the lore lines of the value, and the message shows them as a list |
| CleaningItem.BuildValue | src/chestcleaner/commands/CleaningItemCommand.java:317-320 | the loop builds exactly `args[1..]` joined by single spaces |
| CleaningItem.ValueIgnoresSubCommand | src/chestcleaner/commands/CleaningItemCommand.java:357-360 | name and lore depend only on `args[1..]`, never on the sub-command word; with two tokens the name is the coloured second token |
| CleaningItem.BuiltValueRecoversTokens | src/chestcleaner/commands/CleaningItemCommand.java:357-360 | when no token holds a space, splitting the built value at spaces gives `args[1..]` back |
| CleaningItem.Colour | src/chestcleaner/commands/CleaningItemCommand.java:327 | same length, no '&' left, each '&' becomes '§' and every other character stays in place |
| CleaningItem.LoreLines | src/chestcleaner/commands/CleaningItemCommand.java:322-329 | the lines are the split pieces, in order, each with colour codes applied; no line holds '&' or "/n" |
| CleaningItem.LoreWithoutBreakIsOneLine | src/chestcleaner/commands/CleaningItemCommand.java:322 | without "/n" in the value the lore is the single coloured value |
| CleaningItem.LoreLinesArePieces | src/chestcleaner/commands/CleaningItemCommand.java:322-329 | with "/n" present, the pieces joined with "/n" give the value back; the lines are the coloured leading pieces; only empty pieces are dropped, and only at the end |
| CleaningItem.PartialMatches | src/chestcleaner/commands/CleaningItemCommand.java:383 | each candidate that starts with the token, ignoring case, is kept as often as it occurs; nothing else is |
| CleaningItem.TakesBoolean | src/chestcleaner/commands/CleaningItemCommand.java:386-387 | the words completed with true/false are exactly those whose configuration value is one of the three flags |
| CleaningItem.Candidates | src/chestcleaner/commands/CleaningItemCommand.java:381-393 | one token: the sub-commands; two tokens after a flag sub-command: the true/false words; two tokens after give: the online names; anything else: nothing |
| CleaningItem.CleaningItemCommand.OnTabComplete | src/chestcleaner/commands/CleaningItemCommand.java:376-398 | the completions are sorted and are a permutation of the matching candidates; a word is offered exactly when it is a candidate for this position and starts with the current token; nothing is offered for other argument counts or unknown first words |
| JavaStrings.EqualsIgnoreCase | src/chestcleaner/commands/CleaningItemCommand.java:111 | equal strings compare equal; strings that compare equal have the same length |
| JavaStrings.StartsWithIgnoreCase | src/chestcleaner/commands/CleaningItemCommand.java:383 | a matching prefix is no longer than the string; an exact prefix always matches |
| JavaStrings.ParseBoolean | src/chestcleaner/commands/CleaningItemCommand.java:253 | only four-letter tokens parse as true; "true" does and "false" does not |
| JavaStrings.BoolText | src/chestcleaner/commands/CleaningItemCommand.java:255 | the text is "true" or "false" and parses back to the value |
| JavaStrings.JoinWith | src/chestcleaner/commands/CleaningItemCommand.java:317-320 | no pieces join to the empty string and one piece joins to itself |
| JavaStrings.ListText | src/chestcleaner/commands/CleaningItemCommand.java:338 | the text is bracketed; an empty list is "[]" and a one-element list is the element in brackets |
| JavaStrings.LessEq | src/chestcleaner/commands/CleaningItemCommand.java:396 | a prefix comes first; if a non-empty string comes first, the other is non-empty and starts with a character no smaller |
| JavaStrings.EqualsIgnoreCaseIsEquivalence | src/chestcleaner/commands/CleaningItemCommand.java:111 | case-insensitive equality is reflexive, symmetric and transitive |
| JavaStrings.ParseBooleanExactly | src/chestcleaner/commands/CleaningItemCommand.java:253 | a token parses as true exactly when it is the four letters t, r, u, e in any case |
| JavaStrings.JoinWithSnoc | src/chestcleaner/commands/CleaningItemCommand.java:319 | appending one token to a join adds the separator and the token at the end |
| JavaStrings.JoinWithLength | src/chestcleaner/commands/CleaningItemCommand.java:317-320 | a join is as long as its pieces plus one separator between each pair of neighbours |
| JavaStrings.SplitAll | src/chestcleaner/commands/CleaningItemCommand.java:322 | at least one piece; the first is a prefix, and no occurrence of the separator starts inside it (the split is at the leftmost occurrence); joining the pieces with the separator gives the input back; no piece contains the separator |
| JavaStrings.SplitAllFindsSeparator | src/chestcleaner/commands/CleaningItemCommand.java:322 | with two or more pieces the separator occurs right after the first piece |
| JavaStrings.DropTrailingEmpty | src/chestcleaner/commands/CleaningItemCommand.java:322 | keeps a prefix that does not end in an empty piece and drops only empty pieces |
| JavaStrings.JavaSplit | src/chestcleaner/commands/CleaningItemCommand.java:322 | without the separator the input is the only piece; otherwise all pieces minus trailing empty ones; no piece contains the separator |
| JavaStrings.SplitJoinRoundTrip | src/chestcleaner/commands/CleaningItemCommand.java:317-322 | splitting a join at a one-character separator that no piece contains gives the pieces back |
| JavaStrings.SplitNoSeparator | src/chestcleaner/commands/CleaningItemCommand.java:322 | a string without the separator splits into itself |
| JavaStrings.SplitAfterPiece | src/chestcleaner/commands/CleaningItemCommand.java:322 | a separator-free piece followed by the separator splits off as the first piece |
| JavaStrings.ReplaceChar | src/chestcleaner/commands/CleaningItemCommand.java:362 | same length; each occurrence of the old character becomes the new one, everything else stays in place |
| JavaStrings.ReplaceCharRemovesAll | src/chestcleaner/commands/CleaningItemCommand.java:362 | replacing with a different character leaves none of the old one |
| JavaStrings.ReplaceCharKeepsOccurrences | src/chestcleaner/commands/CleaningItemCommand.java:327 | a literal containing neither the old nor the new character occurs at the same positions before and after the replacement; this is why "/n" cannot appear in a coloured lore line |
| JavaStrings.LessEqTotal | src/chestcleaner/commands/CleaningItemCommand.java:396 | the `compareTo` order is total |
| JavaStrings.LessEqTransitive | src/chestcleaner/commands/CleaningItemCommand.java:396 | the `compareTo` order is transitive |
| JavaStrings.LessEqAntisymmetric | src/chestcleaner/commands/CleaningItemCommand.java:396 | the `compareTo` order is antisymmetric |
| JavaStrings.Insert | src/chestcleaner/commands/CleaningItemCommand.java:396 | inserting into a sorted list keeps it sorted and adds exactly the one element |
| JavaStrings.Sort | src/chestcleaner/commands/CleaningItemCommand.java:396 | the result is sorted and a permutation of the input |
| Host.ConfigStore.SetCleaningItem | src/chestcleaner/commands/CleaningItemCommand.java:192 | only the cleaning item changes, to the given one |
| Host.ConfigStore.SetCleaningItemActive | src/chestcleaner/commands/CleaningItemCommand.java:254 | only the active flag changes, to the given value |
| Host.ConfigStore.SetDurabilityLossActive | src/chestcleaner/commands/CleaningItemCommand.java:277 | only the durability-loss flag changes, to the given value |
| Host.ConfigStore.SetOpenEvent | src/chestcleaner/commands/CleaningItemCommand.java:297 | only the open-event flag changes, to the given value |

## Left out

- The command tree's matching and dispatch (`onCommand`, lines 93-97):
  `CommandTree` is not part of this model. Only the registration data is
  modelled, so which route a typed command reaches is not derived; the
  route-table lemmas only state which handler each pattern is bound to.
- Bukkit and the server: inventories (`addItem`), `ItemStack` cloning,
  `ItemMeta`/`Damageable`, the online-player collection and `Bukkit.getPlayer`
  are foreign libraries. The item is a record, the lookup a function
  parameter, the online players a sequence, and handing out an item a
  recipient in the result.
- `MessageSystem` output and message texts: a message is a tag with its
  substitution values. The text of `ItemStack.toString` is the host's, so the
  set-item report carries the item itself.
- `StringUtils.isStringTrueOrFalse` and `getBooleanValueStringList` are not
  part of this model. They are a predicate parameter and a sequence
  parameter.
- Persistence of `PluginConfigManager`: the configuration is an in-memory
  store.
- The `assert`/`requireNonNull` null checks on item meta (lines 113-119,
  187, 333, 366) are runtime plumbing. An absent name or lore is `None`, and
  `hasDisplayName`/`hasLore` are read as "is present".
- JavaStrings.EqualsIgnoreCase: case folding covers ASCII letters only. Java
  also folds other Unicode letters.
- JavaStrings.LessEq: compares characters by code, like `compareTo` on
  UTF-16 units. Surrogate pairs are not modelled, since a `char` here is a
  code point.
- JavaStrings.Sort: `Collections.sort` sorts the list in place (a stable
  merge sort). The model sorts a sequence value. Equal strings are
  indistinguishable, so the result is the same.
- CleaningItem.FlagStep, NameStep, LoreStep, GiveStep: require at least two
  tokens. The flag setters and giveCleaningItem read `args[1]` before the
  permission check; setItemLore and setItemName read it only after it. All
  of them rely on the command tree registering them only on patterns with a
  value, so the one-token call without permission is not modelled for
  setItemLore and setItemName.
- CleaningItem.CleaningItemCommand.GetConfig: requires at least one token, for
  the same reason (`args[0]`).
- CleaningItem.CleaningItemCommand.OnTabComplete: `copyPartialMatches` adds
  to the list in order; the model concatenates the matches, which is the
  same list.

## Findings

| source | as written | input that shows it | evidently intended | confidence | as-written member | corrected member |
|---|---|---|---|---|---|---|
| src/chestcleaner/commands/CleaningItemCommand.java:83-84 | "/cleaningitem active true/false" is registered with `loreConsumer`; `activeConsumer` is created and never used | "/cleaningitem active true" overwrites the lore with ["true"] instead of activating the cleaning item | register `activeConsumer`, so that the active setter is reachable | high (not executed) | Routes.AsWritten, Routes.ActiveRouteMiswired, CleaningItem.MiswiredActiveSetsLore | Routes.Intended |

The constructor keeps the registrations as written, since it models the
source's code. `Routes.Intended` is the table the handler properties assume
when they treat `SetCleaningItemActive` as reachable: it registers every
handler and binds every Boolean route to its own setter.
