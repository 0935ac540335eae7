/**
 * The cleaning-item command: its route registrations, its handlers for
 * reading and changing the cleaning item's configuration and for handing the
 * item out, and its tab completion.
 *
 * Each state-changing handler is a method on the configuration store whose
 * result is tied to a step function over configuration snapshots; the
 * properties the command promises are proved about the step functions.
 */
module CleaningItem {
  import opened JavaStrings
  import opened Host
  import opened Routes

  /** The separator that starts a new lore line. */
  const LoreLineBreak := "/n"

  /** The character players type for a colour code, and the one the client reads. */
  const ColourChar := '&'
  const SectionSign := '§'

  /** The target that stands for every online player. */
  const AllPlayers := "@a"

  /** Configuration keys, as shown in messages. */
  const NameProperty := Command + " " + NameSubCommand
  const LoreProperty := Command + " " + LoreSubCommand
  const ActiveProperty := Command + " " + ActiveSubCommand
  const DurabilityProperty := Command + " " + DurabilityLossSubCommand
  const OpenEventProperty := OpenEventSubCommand

  /** Shown by getConfig for an absent display name or lore. */
  const NullText := "<null>"

  /** How getConfig shows a display name and a lore. */
  function NameText(name: Option<string>): (r: string)
    ensures name.Some? ==> r == name.value
    ensures name.None? ==> r == NullText
  {
    match name
    case Some(n) => n
    case None => NullText
  }

  function LoreText(lore: Option<seq<string>>): (r: string)
    ensures lore.Some? ==> r == ListText(lore.value) && r != NullText
    ensures lore.None? ==> r == NullText
  {
    match lore
    case Some(l) => ListText(l)
    case None => NullText
  }

  /** What a setter leaves behind: the configuration afterwards and the messages sent. */
  datatype Reply = Reply(config: Config, messages: seq<Message>)

  /**
   * What a give handler does: the players who receive one copy of the
   * configured cleaning item, in order, and the messages sent.
   */
  datatype Delivery = Delivery(recipients: seq<string>, messages: seq<Message>)

  // ---------------------------------------------------------------------------
  // Value strings built from the command line
  // ---------------------------------------------------------------------------

  /** Turns every '&' into the section sign: `&` colour codes become real ones. */
  function Colour(s: string): (r: string)
    ensures |r| == |s| && ColourChar !in r
    ensures forall i :: 0 <= i < |s| ==> r[i] == (if s[i] == ColourChar then SectionSign else s[i])
  {
    ReplaceCharRemovesAll(s, ColourChar, SectionSign);
    ReplaceChar(s, ColourChar, SectionSign)
  }

  /**
   * The value typed after the sub-command: every token from args[1] on,
   * joined by single spaces, built left to right as the source does.
   */
  method BuildValue(args: seq<string>) returns (value: string)
    requires |args| >= 2
    ensures value == JoinWith(args[1..], " ")
  {
    value := args[1];
    for i := 2 to |args|
      invariant value == JoinWith(args[1..i], " ")
    {
      assert args[1..i + 1] == args[1..i] + [args[i]];
      JoinWithSnoc(args[1..i], args[i], " ");
      value := value + " " + args[i];
    }
    assert args[1..|args|] == args[1..];
  }

  /** The new display name: the joined value with colour codes applied. */
  function ItemName(args: seq<string>): (name: string)
    requires |args| >= 2
    ensures var value := JoinWith(args[1..], " ");
            && |name| == |value| && ColourChar !in name
            && forall i :: 0 <= i < |value| ==>
                 name[i] == (if value[i] == ColourChar then SectionSign else value[i])
  {
    Colour(JoinWith(args[1..], " "))
  }

  /** The new lore: the joined value split at "/n", each line with colour codes applied. */
  function LoreLines(args: seq<string>): (lines: seq<string>)
    requires |args| >= 2
    ensures var pieces := JavaSplit(JoinWith(args[1..], " "), LoreLineBreak);
            |lines| == |pieces| && forall i :: 0 <= i < |lines| ==> lines[i] == Colour(pieces[i])
    ensures forall i :: 0 <= i < |lines| ==> ColourChar !in lines[i] && Free(lines[i], LoreLineBreak)
  {
    var pieces := JavaSplit(JoinWith(args[1..], " "), LoreLineBreak);
    var lines := seq(|pieces|, i requires 0 <= i < |pieces| => Colour(pieces[i]));
    forall i, k: nat | 0 <= i < |lines| ensures !OccursAt(lines[i], LoreLineBreak, k) {
      ReplaceCharKeepsOccurrences(pieces[i], ColourChar, SectionSign, LoreLineBreak, k);
    }
    lines
  }

  /** The sub-command word is never part of the value, and two tokens give the second alone. */
  lemma ValueIgnoresSubCommand(a: seq<string>, b: seq<string>)
    requires |a| >= 2 && |b| >= 2 && a[1..] == b[1..]
    ensures ItemName(a) == ItemName(b) && LoreLines(a) == LoreLines(b)
    ensures |a| == 2 ==> ItemName(a) == Colour(a[1])
  {
  }

  /**
   * Joining loses nothing: when no token holds a space, splitting the built
   * value at spaces gives args[1..] back.
   */
  lemma BuiltValueRecoversTokens(args: seq<string>)
    requires |args| >= 2
    requires forall i :: 1 <= i < |args| ==> ' ' !in args[i]
    ensures SplitAll(JoinWith(args[1..], " "), " ") == args[1..]
  {
    SplitJoinRoundTrip(args[1..], ' ');
  }

  /** Without "/n" in the value, the lore is one line: the value with colour codes applied. */
  lemma LoreWithoutBreakIsOneLine(args: seq<string>)
    requires |args| >= 2
    requires Free(JoinWith(args[1..], " "), LoreLineBreak)
    ensures LoreLines(args) == [ItemName(args)]
  {
  }

  /**
   * The lore lines are the "/n"-separated pieces in order (colour codes
   * applied), only trailing empty pieces are dropped, and the pieces joined
   * with "/n" give the value back.
   */
  lemma LoreLinesArePieces(args: seq<string>)
    requires |args| >= 2
    requires !Free(JoinWith(args[1..], " "), LoreLineBreak)
    ensures var all := SplitAll(JoinWith(args[1..], " "), LoreLineBreak);
            var lines := LoreLines(args);
            && JoinWith(all, LoreLineBreak) == JoinWith(args[1..], " ")
            && |lines| <= |all|
            && (forall i :: 0 <= i < |lines| ==> lines[i] == Colour(all[i]))
            && (forall i :: |lines| <= i < |all| ==> all[i] == "")
            && (lines == [] || all[|lines| - 1] != "")
  {
    var value := JoinWith(args[1..], " ");
    var all := SplitAll(value, LoreLineBreak);
    var pieces := JavaSplit(value, LoreLineBreak);
    // The value holds a line break, so JavaSplit takes its splitting branch.
    assert !Free(value, LoreLineBreak);
    assert pieces == DropTrailingEmpty(all);
    var lines := LoreLines(args);
    assert |lines| == |pieces|;
    forall i | 0 <= i < |lines| ensures lines[i] == Colour(all[i]) {
      assert pieces[i] == all[i];
    }
  }

  // ---------------------------------------------------------------------------
  // Configuration keys
  // ---------------------------------------------------------------------------

  /** The five sub-commands that name a configuration value. */
  predicate IsConfigSubCommand(sub: string)
  {
    || EqualsIgnoreCase(sub, NameSubCommand)
    || EqualsIgnoreCase(sub, LoreSubCommand)
    || EqualsIgnoreCase(sub, ActiveSubCommand)
    || EqualsIgnoreCase(sub, DurabilityLossSubCommand)
    || EqualsIgnoreCase(sub, OpenEventSubCommand)
  }

  /** The five configuration sub-commands start with five different letters, so at most one matches. */
  lemma ConfigSubCommandsExclusive(s: string)
    ensures EqualsIgnoreCase(s, LoreSubCommand) ==> !EqualsIgnoreCase(NameSubCommand, s)
    ensures EqualsIgnoreCase(s, ActiveSubCommand) ==>
              !EqualsIgnoreCase(NameSubCommand, s) && !EqualsIgnoreCase(LoreSubCommand, s)
    ensures EqualsIgnoreCase(s, DurabilityLossSubCommand) ==>
              !EqualsIgnoreCase(NameSubCommand, s) && !EqualsIgnoreCase(LoreSubCommand, s)
              && !EqualsIgnoreCase(ActiveSubCommand, s)
    ensures EqualsIgnoreCase(s, OpenEventSubCommand) ==>
              !EqualsIgnoreCase(NameSubCommand, s) && !EqualsIgnoreCase(LoreSubCommand, s)
              && !EqualsIgnoreCase(ActiveSubCommand, s) && !EqualsIgnoreCase(DurabilityLossSubCommand, s)
  {
    if |s| > 0 {
      assert LowerChar(NameSubCommand[0]) == 'n' && LowerChar(LoreSubCommand[0]) == 'l';
      assert LowerChar(ActiveSubCommand[0]) == 'a' && LowerChar(DurabilityLossSubCommand[0]) == 'd';
      assert LowerChar(OpenEventSubCommand[0]) == 'o';
    }
  }

  /** The configuration values getConfig can show. */
  datatype Property = NameValue | LoreValue | ActiveValue | DurabilityValue | OpenEventValue

  /**
   * The value a sub-command selects, compared ignoring case and tested in the
   * order of getConfig's if-chain; None for anything else.
   */
  function PropertyOf(sub: string): (p: Option<Property>)
    ensures EqualsIgnoreCase(sub, NameSubCommand) <==> p == Some(NameValue)
    ensures EqualsIgnoreCase(sub, LoreSubCommand) <==> p == Some(LoreValue)
    ensures EqualsIgnoreCase(sub, ActiveSubCommand) <==> p == Some(ActiveValue)
    ensures EqualsIgnoreCase(sub, DurabilityLossSubCommand) <==> p == Some(DurabilityValue)
    ensures EqualsIgnoreCase(sub, OpenEventSubCommand) <==> p == Some(OpenEventValue)
    ensures p.None? <==> !IsConfigSubCommand(sub)
  {
    ConfigSubCommandsExclusive(sub);
    if EqualsIgnoreCase(NameSubCommand, sub) then Some(NameValue)
    else if EqualsIgnoreCase(LoreSubCommand, sub) then Some(LoreValue)
    else if EqualsIgnoreCase(ActiveSubCommand, sub) then Some(ActiveValue)
    else if EqualsIgnoreCase(DurabilityLossSubCommand, sub) then Some(DurabilityValue)
    else if EqualsIgnoreCase(OpenEventSubCommand, sub) then Some(OpenEventValue)
    else None
  }

  /**
   * The configuration key getConfig reports for a sub-command, compared
   * ignoring case; empty for anything else.
   */
  function PropertyKey(sub: string): (key: string)
    ensures EqualsIgnoreCase(sub, NameSubCommand) ==> key == NameProperty
    ensures EqualsIgnoreCase(sub, LoreSubCommand) ==> key == LoreProperty
    ensures EqualsIgnoreCase(sub, ActiveSubCommand) ==> key == ActiveProperty
    ensures EqualsIgnoreCase(sub, DurabilityLossSubCommand) ==> key == DurabilityProperty
    ensures EqualsIgnoreCase(sub, OpenEventSubCommand) ==> key == OpenEventProperty
    ensures key == "" <==> !IsConfigSubCommand(sub)
  {
    match PropertyOf(sub)
    case Some(NameValue) => NameProperty
    case Some(LoreValue) => LoreProperty
    case Some(ActiveValue) => ActiveProperty
    case Some(DurabilityValue) => DurabilityProperty
    case Some(OpenEventValue) => OpenEventProperty
    case None => ""
  }

  /** Sub-commands that differ only in letter case select the same key. */
  lemma PropertyKeyIgnoresCase(a: string, b: string)
    requires EqualsIgnoreCase(a, b)
    ensures PropertyKey(a) == PropertyKey(b)
  {
    EqualsIgnoreCaseIsEquivalence(a, b, NameSubCommand);
    EqualsIgnoreCaseIsEquivalence(a, b, LoreSubCommand);
    EqualsIgnoreCaseIsEquivalence(a, b, ActiveSubCommand);
    EqualsIgnoreCaseIsEquivalence(a, b, DurabilityLossSubCommand);
    EqualsIgnoreCaseIsEquivalence(a, b, OpenEventSubCommand);
    EqualsIgnoreCaseIsEquivalence(b, a, NameSubCommand);
    EqualsIgnoreCaseIsEquivalence(b, a, LoreSubCommand);
    EqualsIgnoreCaseIsEquivalence(b, a, ActiveSubCommand);
    EqualsIgnoreCaseIsEquivalence(b, a, DurabilityLossSubCommand);
    EqualsIgnoreCaseIsEquivalence(b, a, OpenEventSubCommand);
  }

  /** The keys of distinct values are distinct: the key tells the sub-command back. */
  lemma PropertyKeyDeterminesSubCommand(a: string, b: string)
    requires PropertyKey(a) == PropertyKey(b) != ""
    ensures EqualsIgnoreCase(a, b)
  {
    assert NameProperty == "cleaningitem name";
    assert LoreProperty == "cleaningitem lore";
    assert ActiveProperty == "cleaningitem active";
    assert DurabilityProperty == "cleaningitem durabilityLoss";
    // The five keys are distinct, so both select the same value.
    assert PropertyOf(a) == PropertyOf(b);
    var sub := match PropertyOf(a)
      case Some(NameValue) => NameSubCommand
      case Some(LoreValue) => LoreSubCommand
      case Some(ActiveValue) => ActiveSubCommand
      case Some(DurabilityValue) => DurabilityLossSubCommand
      case _ => OpenEventSubCommand;
    assert EqualsIgnoreCase(a, sub) && EqualsIgnoreCase(b, sub);
    EqualsIgnoreCaseIsEquivalence(a, sub, b);
    EqualsIgnoreCaseIsEquivalence(b, sub, a);
  }

  // ---------------------------------------------------------------------------
  // The three Boolean flags
  // ---------------------------------------------------------------------------

  datatype Flag = ActiveFlag | DurabilityLossFlag | OpenEventFlag

  function FlagOf(c: Config, f: Flag): bool
  {
    match f
    case ActiveFlag => c.cleaningItemActive
    case DurabilityLossFlag => c.durabilityLossActive
    case OpenEventFlag => c.openEvent
  }

  /** The configuration with one flag set and everything else as it was. */
  function WithFlag(c: Config, f: Flag, b: bool): (r: Config)
    ensures FlagOf(r, f) == b
    ensures forall g :: g != f ==> FlagOf(r, g) == FlagOf(c, g)
    ensures r.cleaningItem == c.cleaningItem
  {
    match f
    case ActiveFlag => c.(cleaningItemActive := b)
    case DurabilityLossFlag => c.(durabilityLossActive := b)
    case OpenEventFlag => c.(openEvent := b)
  }

  function FlagPermission(f: Flag): Permission
  {
    match f
    case ActiveFlag => CmdAdminItemSetActive
    case DurabilityLossFlag => CmdAdminItemSetDurabilityLoss
    case OpenEventFlag => CmdAdminItemSetEventMode
  }

  function FlagProperty(f: Flag): string
  {
    match f
    case ActiveFlag => ActiveProperty
    case DurabilityLossFlag => DurabilityProperty
    case OpenEventFlag => OpenEventProperty
  }

  /** The active and durability-loss setters check the token; the open-event setter does not. */
  predicate Validates(f: Flag)
  {
    f != OpenEventFlag
  }

  /**
   * A Boolean setter as a step on the configuration: permission is checked
   * first, then (for the validating setters) the true/false vocabulary, and
   * only then is the one flag set to Boolean.parseBoolean of the token.
   */
  function FlagStep(c: Config, t: CommandTuple, f: Flag, isTrueOrFalse: string -> bool): (r: Reply)
    requires |t.args| >= 2
    ensures |r.messages| == 1
    ensures r.config.cleaningItem == c.cleaningItem
    ensures forall g :: g != f ==> FlagOf(r.config, g) == FlagOf(c, g)
    ensures !HasPermission(t.sender, FlagPermission(f)) ==>
              r == Reply(c, [PermissionError(FlagPermission(f))])
    ensures HasPermission(t.sender, FlagPermission(f)) && Validates(f) && !isTrueOrFalse(t.args[1]) ==>
              r == Reply(c, [Notice(Error, ErrorValidationBoolean, [])])
    ensures HasPermission(t.sender, FlagPermission(f)) && (!Validates(f) || isTrueOrFalse(t.args[1])) ==>
              && FlagOf(r.config, f) == ParseBoolean(t.args[1])
              && r.messages == [ChangedValue(FlagProperty(f), BoolText(ParseBoolean(t.args[1])))]
  {
    var value := t.args[1];
    if !HasPermission(t.sender, FlagPermission(f)) then
      Reply(c, [PermissionError(FlagPermission(f))])
    else if Validates(f) && !isTrueOrFalse(value) then
      Reply(c, [Notice(Error, ErrorValidationBoolean, [])])
    else
      var b := ParseBoolean(value);
      Reply(WithFlag(c, f, b), [ChangedValue(FlagProperty(f), BoolText(b))])
  }

  /**
   * The open-event setter accepts every token: whatever the true/false check
   * says, a permitted sender sets the flag, and every token other than "true"
   * in some letter case sets it to false.
   */
  lemma OpenEventAcceptsAnyToken(c: Config, t: CommandTuple, v1: string -> bool, v2: string -> bool)
    requires |t.args| >= 2 && HasPermission(t.sender, CmdAdminItemSetEventMode)
    ensures FlagStep(c, t, OpenEventFlag, v1) == FlagStep(c, t, OpenEventFlag, v2)
    ensures FlagStep(c, t, OpenEventFlag, v1).messages[0].ChangedValue?
    ensures !EqualsIgnoreCase(t.args[1], "true") ==> !FlagStep(c, t, OpenEventFlag, v1).config.openEvent
  {
  }

  /** Repeating a Boolean setter with the same token changes nothing more. */
  lemma FlagStepIdempotent(c: Config, t: CommandTuple, f: Flag, isTrueOrFalse: string -> bool)
    requires |t.args| >= 2
    ensures var once := FlagStep(c, t, f, isTrueOrFalse).config;
            FlagStep(once, t, f, isTrueOrFalse).config == once
  {
  }

  /** The value a setter reports reads back, through Boolean.parseBoolean, as the flag it stored. */
  lemma ReportedFlagReadsBack(c: Config, t: CommandTuple, f: Flag, isTrueOrFalse: string -> bool)
    requires |t.args| >= 2
    ensures var r := FlagStep(c, t, f, isTrueOrFalse);
            r.messages[0].ChangedValue? ==>
              r.messages[0].key == FlagProperty(f) && ParseBoolean(r.messages[0].value) == FlagOf(r.config, f)
  {
    var r := FlagStep(c, t, f, isTrueOrFalse);
    if r.messages[0].ChangedValue? {
      var b := ParseBoolean(t.args[1]);
      ParseBooleanExactly(BoolText(b));
      assert BoolText(b) == (if b then "true" else "false");
    }
  }

  // ---------------------------------------------------------------------------
  // The other setters
  // ---------------------------------------------------------------------------

  /** checkPlayer: None when the sender is a player, else the error it sends. */
  function CheckPlayer(s: Sender): (m: Option<Message>)
    ensures m.None? <==> s.Player?
    ensures m.Some? ==> m.value == Notice(Error, ErrorYouNotPlayer, [])
  {
    if s.Player? then None else Some(Notice(Error, ErrorYouNotPlayer, []))
  }

  /** The item stored by setCleaningItem: the held item, undamaged, as a single item. */
  function Stored(held: Item): (r: Item)
    ensures r.amount == 1 && r.damage == 0
    ensures r.(amount := held.amount, damage := held.damage) == held
  {
    held.(damage := 0, amount := 1)
  }

  /**
   * setCleaningItem as a step: only a permitted player holding something
   * other than air changes the configuration, and then only the cleaning
   * item, to a single undamaged copy of what they hold. A configuration
   * whose cleaning item is not air keeps one that is not air.
   */
  function SetItemStep(c: Config, s: Sender): (r: Reply)
    ensures |r.messages| == 1
    ensures r.config == c.(cleaningItem := r.config.cleaningItem)
    ensures !s.Player? ==> r == Reply(c, [Notice(Error, ErrorYouNotPlayer, [])])
    ensures s.Player? && !HasPermission(s, CmdAdminItemSet) ==> r == Reply(c, [PermissionError(CmdAdminItemSet)])
    ensures s.Player? && HasPermission(s, CmdAdminItemSet) && s.mainHand.material == Air ==>
              r == Reply(c, [Notice(Error, ErrorYouHoldItem, [])])
    ensures s.Player? && HasPermission(s, CmdAdminItemSet) && s.mainHand.material != Air ==>
              && r.config.cleaningItem.material == s.mainHand.material
              && r.config.cleaningItem.amount == 1 && r.config.cleaningItem.damage == 0
              && r.config.cleaningItem.displayName == s.mainHand.displayName
              && r.config.cleaningItem.lore == s.mainHand.lore
              && r.messages == [ChangedItem(Command, r.config.cleaningItem)]
    ensures c.cleaningItem.material != Air ==> r.config.cleaningItem.material != Air
  {
    if CheckPlayer(s).Some? then
      Reply(c, [CheckPlayer(s).value])
    else if !HasPermission(s, CmdAdminItemSet) then
      Reply(c, [PermissionError(CmdAdminItemSet)])
    else if s.mainHand.material == Air then
      Reply(c, [Notice(Error, ErrorYouHoldItem, [])])
    else
      var item := Stored(s.mainHand);
      Reply(c.(cleaningItem := item), [ChangedItem(Command, item)])
  }

  /**
   * setItemName as a step: a permitted sender replaces the display name of
   * the cleaning item by the joined, coloured value, and nothing else; an
   * unpermitted one changes nothing.
   */
  function NameStep(c: Config, t: CommandTuple): (r: Reply)
    requires |t.args| >= 2
    ensures |r.messages| == 1
    ensures !HasPermission(t.sender, CmdAdminItemRename) ==> r == Reply(c, [PermissionError(CmdAdminItemRename)])
    ensures HasPermission(t.sender, CmdAdminItemRename) ==>
              && r.config == c.(cleaningItem := c.cleaningItem.(displayName := r.config.cleaningItem.displayName))
              && r.config.cleaningItem.displayName.Some?
              && var name := r.config.cleaningItem.displayName.value;
                 && |name| == |JoinWith(t.args[1..], " ")| && ColourChar !in name
                 && (forall i :: 0 <= i < |name| && JoinWith(t.args[1..], " ")[i] != ColourChar ==>
                       name[i] == JoinWith(t.args[1..], " ")[i])
                 && (forall i :: 0 <= i < |name| && JoinWith(t.args[1..], " ")[i] == ColourChar ==>
                       name[i] == SectionSign)
                 && name == ItemName(t.args)
                 && r.messages == [ChangedValue(NameProperty, name)]
  {
    if !HasPermission(t.sender, CmdAdminItemRename) then
      Reply(c, [PermissionError(CmdAdminItemRename)])
    else
      var name := ItemName(t.args);
      Reply(c.(cleaningItem := c.cleaningItem.(displayName := Some(name))), [ChangedValue(NameProperty, name)])
  }

  /**
   * setItemLore as a step: a permitted sender replaces the lore of the
   * cleaning item by the lore lines of the value, and nothing else; the
   * message shows them as a list.
   */
  function LoreStep(c: Config, t: CommandTuple): (r: Reply)
    requires |t.args| >= 2
    ensures |r.messages| == 1
    ensures !HasPermission(t.sender, CmdAdminItemSetLore) ==> r == Reply(c, [PermissionError(CmdAdminItemSetLore)])
    ensures HasPermission(t.sender, CmdAdminItemSetLore) ==>
              && r.config == c.(cleaningItem := c.cleaningItem.(lore := r.config.cleaningItem.lore))
              && r.config.cleaningItem.lore == Some(LoreLines(t.args))
              && r.messages == [ChangedValue(LoreProperty, ListText(LoreLines(t.args)))]
  {
    if !HasPermission(t.sender, CmdAdminItemSetLore) then
      Reply(c, [PermissionError(CmdAdminItemSetLore)])
    else
      var lines := LoreLines(t.args);
      Reply(c.(cleaningItem := c.cleaningItem.(lore := Some(lines))), [ChangedValue(LoreProperty, ListText(lines))])
  }

  /**
   * What "/cleaningitem active true" does under the as-written routes, where
   * it reaches the lore setter: the lore becomes the one line "true" and the
   * active flag keeps its value.
   */
  lemma MiswiredActiveSetsLore(c: Config, s: Sender)
    requires HasPermission(s, CmdAdminItemSetLore)
    ensures var r := LoreStep(c, CommandTuple(s, [ActiveSubCommand, "true"]));
            && r.config.cleaningItem.lore == Some(["true"])
            && r.config.cleaningItemActive == c.cleaningItemActive
  {
    var args := [ActiveSubCommand, "true"];
    assert args[1..] == ["true"];
    assert JoinWith(args[1..], " ") == "true";
    forall k: nat ensures !OccursAt("true", LoreLineBreak, k) {
      if k + 2 <= 4 {
        assert "true"[k] != '/';
      }
    }
    LoreWithoutBreakIsOneLine(args);
    assert Colour("true") == "true";
  }

  // ---------------------------------------------------------------------------
  // Handing out the item
  // ---------------------------------------------------------------------------

  /** One "player got the cleaning item" notice per name, in order. */
  function GotItemNotices(names: seq<string>): (ms: seq<Message>)
    ensures |ms| == |names|
    ensures forall i :: 0 <= i < |names| ==> ms[i] == Notice(Success, InfoCleanItemPlayerGet, [names[i]])
  {
    if names == [] then [] else [Notice(Success, InfoCleanItemPlayerGet, [names[0]])] + GotItemNotices(names[1..])
  }

  /**
   * giveCleaningItem as a step. `findPlayer` is the host's player lookup by
   * name. In order: without permission nobody receives anything; a name the
   * lookup resolves gives that one player one item, even when the name is
   * "@a"; otherwise "@a" in any letter case gives every online player one
   * item; otherwise the name is reported as not online.
   */
  function GiveStep(t: CommandTuple, online: seq<string>, findPlayer: string -> Option<string>): (r: Delivery)
    requires |t.args| >= 2
    ensures !HasPermission(t.sender, CmdCleaningItemGive) ==>
              r == Delivery([], [PermissionError(CmdCleaningItemGive)])
    ensures HasPermission(t.sender, CmdCleaningItemGive) && findPlayer(t.args[1]).Some? ==>
              && r.recipients == [findPlayer(t.args[1]).value]
              && r.messages == GotItemNotices(r.recipients)
    ensures HasPermission(t.sender, CmdCleaningItemGive) && findPlayer(t.args[1]).None?
            && EqualsIgnoreCase(t.args[1], AllPlayers) ==>
              r == Delivery(online, GotItemNotices(online))
    ensures HasPermission(t.sender, CmdCleaningItemGive) && findPlayer(t.args[1]).None?
            && !EqualsIgnoreCase(t.args[1], AllPlayers) ==>
              r == Delivery([], [Notice(Error, ErrorPlayerNotOnline, [t.args[1]])])
  {
    var playerName := t.args[1];
    if !HasPermission(t.sender, CmdCleaningItemGive) then
      Delivery([], [PermissionError(CmdCleaningItemGive)])
    else if findPlayer(playerName).Some? then
      var p := findPlayer(playerName).value;
      Delivery([p], GotItemNotices([p]))
    else if EqualsIgnoreCase(playerName, AllPlayers) then
      Delivery(online, GotItemNotices(online))
    else
      Delivery([], [Notice(Error, ErrorPlayerNotOnline, [playerName])])
  }

  /** Nobody receives an item without the give permission, and when somebody does, every message is a success. */
  lemma GiveNeedsPermission(t: CommandTuple, online: seq<string>, findPlayer: string -> Option<string>)
    requires |t.args| >= 2
    ensures var r := GiveStep(t, online, findPlayer);
            && (r.recipients != [] ==> HasPermission(t.sender, CmdCleaningItemGive))
            && (r.recipients != [] ==> forall i :: 0 <= i < |r.messages| ==> r.messages[i].Notice? && r.messages[i].kind == Success)
  {
  }

  // ---------------------------------------------------------------------------
  // Tab completion
  // ---------------------------------------------------------------------------

  /** The token being completed: the last one typed. */
  function CurrentToken(args: seq<string>): string
  {
    if args == [] then "" else args[|args| - 1]
  }

  /** The sub-commands that take true/false as their value. */
  predicate TakesBoolean(sub: string)
    ensures TakesBoolean(sub) <==>
              PropertyOf(sub).Some? && PropertyOf(sub).value != NameValue && PropertyOf(sub).value != LoreValue
  {
    EqualsIgnoreCase(sub, ActiveSubCommand) || EqualsIgnoreCase(sub, DurabilityLossSubCommand)
    || EqualsIgnoreCase(sub, OpenEventSubCommand)
  }

  /** The list completion draws from, chosen by the number of tokens and the first one. */
  function Candidates(args: seq<string>, booleanValues: seq<string>, onlineNames: seq<string>): (r: seq<string>)
    ensures |args| == 1 ==> r == SubCommands
    ensures |args| == 2 && TakesBoolean(args[0]) ==> r == booleanValues
    ensures |args| == 2 && EqualsIgnoreCase(args[0], GiveSubCommand) ==> r == onlineNames
    ensures |args| != 1 && |args| != 2 ==> r == []
    ensures |args| == 2 && !TakesBoolean(args[0]) && !EqualsIgnoreCase(args[0], GiveSubCommand) ==> r == []
  {
    if |args| == 1 then SubCommands
    else if |args| == 2 && TakesBoolean(args[0]) then booleanValues
    else if |args| == 2 && EqualsIgnoreCase(GiveSubCommand, args[0]) then onlineNames
    else []
  }

  /**
   * Bukkit's StringUtil.copyPartialMatches: the originals that start with
   * the token ignoring case, each as often as it occurs, in order.
   */
  function PartialMatches(token: string, originals: seq<string>): (r: seq<string>)
    ensures forall x :: multiset(r)[x] == if StartsWithIgnoreCase(x, token) then multiset(originals)[x] else 0
  {
    if originals == [] then []
    else
      assert originals == [originals[0]] + originals[1..];
      (if StartsWithIgnoreCase(originals[0], token) then [originals[0]] else [])
      + PartialMatches(token, originals[1..])
  }

  // ---------------------------------------------------------------------------
  // The command object
  // ---------------------------------------------------------------------------

  class CleaningItemCommand {
    const cmdTree: CommandTree

    /** Registers the fourteen routes, in the order the source adds them. */
    constructor ()
      ensures fresh(cmdTree) && cmdTree.alias == Command && cmdTree.routes == AsWritten()
    {
      cmdTree := new CommandTree(Command);
      new;
      cmdTree.AddPath(Root([GetSubCommand]), Handler.GetCleaningItem, NoArg, false);
      cmdTree.AddPath(Root([GiveSubCommand, "@a"]), Handler.GiveCleaningItem, NoArg, false);
      cmdTree.AddPath(Root([GiveSubCommand, "player"]), Handler.GiveCleaningItem, StringArg, false);
      cmdTree.AddPath(Root([SetSubCommand]), Handler.SetCleaningItem, NoArg, false);
      cmdTree.AddPath(Root([NameSubCommand]), Handler.GetConfig, NoArg, false);
      cmdTree.AddPath(Root([LoreSubCommand]), Handler.GetConfig, NoArg, false);
      cmdTree.AddPath(Root([ActiveSubCommand]), Handler.GetConfig, NoArg, false);
      cmdTree.AddPath(Root([DurabilityLossSubCommand]), Handler.GetConfig, NoArg, false);
      cmdTree.AddPath(Root([OpenEventSubCommand]), Handler.GetConfig, NoArg, false);
      cmdTree.AddPath(Root([NameSubCommand, NameSubCommand]), Handler.SetItemName, StringArg, true);
      cmdTree.AddPath(Root([LoreSubCommand, LoreSubCommand]), Handler.SetItemLore, StringArg, true);
      cmdTree.AddPath(Root([ActiveSubCommand, "true/false"]), Handler.SetItemLore, BooleanArg, false);
      cmdTree.AddPath(Root([DurabilityLossSubCommand, "true/false"]), Handler.SetDurabilityLoss, BooleanArg, false);
      cmdTree.AddPath(Root([OpenEventSubCommand, "true/false"]), Handler.SetOpenEventMode, BooleanArg, false);
    }

    /**
     * getConfig: one success notice carrying the key of the sub-command in
     * args[0] and the current value under it ("<null>" for an absent name or
     * lore); both are empty for any other sub-command.
     */
    function GetConfig(t: CommandTuple, c: Config): (m: Message)
      requires |t.args| >= 1
      ensures m.Notice? && m.kind == Success && m.id == InfoCurrentValue && |m.values| == 2
      ensures m.values[0] == PropertyKey(t.args[0])
      ensures !IsConfigSubCommand(t.args[0]) ==> m.values == ["", ""]
      ensures EqualsIgnoreCase(t.args[0], NameSubCommand) ==>
                m.values[1] == NameText(c.cleaningItem.displayName)
      ensures EqualsIgnoreCase(t.args[0], LoreSubCommand) ==>
                m.values[1] == LoreText(c.cleaningItem.lore)
      ensures EqualsIgnoreCase(t.args[0], ActiveSubCommand) ==> m.values[1] == BoolText(c.cleaningItemActive)
      ensures EqualsIgnoreCase(t.args[0], DurabilityLossSubCommand) ==> m.values[1] == BoolText(c.durabilityLossActive)
      ensures EqualsIgnoreCase(t.args[0], OpenEventSubCommand) ==> m.values[1] == BoolText(c.openEvent)
    {
      var command := t.args[0];
      var value :=
        match PropertyOf(command)
        case Some(NameValue) => NameText(c.cleaningItem.displayName)
        case Some(LoreValue) => LoreText(c.cleaningItem.lore)
        case Some(ActiveValue) => BoolText(c.cleaningItemActive)
        case Some(DurabilityValue) => BoolText(c.durabilityLossActive)
        case Some(OpenEventValue) => BoolText(c.openEvent)
        case None => "";
      Notice(Success, InfoCurrentValue, [PropertyKey(command), value])
    }

    /**
     * getCleaningItem: a player with the get permission receives one item
     * themselves; anyone else receives nothing and is told why.
     */
    function GetCleaningItem(s: Sender): (r: Delivery)
      ensures |r.messages| == 1 && |r.recipients| <= 1
      ensures r.recipients != [] <==> s.Player? && HasPermission(s, CmdCleaningItemGet)
      ensures r.recipients != [] ==> r.recipients == [s.name] && r.messages == [Notice(Success, InfoCleanItemYouGet, [])]
      ensures !s.Player? ==> r.messages == [Notice(Error, ErrorYouNotPlayer, [])]
      ensures s.Player? && !HasPermission(s, CmdCleaningItemGet) ==> r.messages == [PermissionError(CmdCleaningItemGet)]
    {
      if CheckPlayer(s).Some? then
        Delivery([], [CheckPlayer(s).value])
      else if !HasPermission(s, CmdCleaningItemGet) then
        Delivery([], [PermissionError(CmdCleaningItemGet)])
      else
        Delivery([s.name], [Notice(Success, InfoCleanItemYouGet, [])])
    }

    /** giveCleaningItem; the "@a" case hands out one item per online player in a loop. */
    method GiveCleaningItem(t: CommandTuple, online: seq<string>, findPlayer: string -> Option<string>)
      returns (d: Delivery)
      requires |t.args| >= 2
      ensures d == GiveStep(t, online, findPlayer)
    {
      var sender := t.sender;
      var playerName := t.args[1];
      if !HasPermission(sender, CmdCleaningItemGive) {
        d := Delivery([], [PermissionError(CmdCleaningItemGive)]);
      } else {
        var player2 := findPlayer(playerName);
        if player2.Some? {
          d := Delivery([player2.value], [Notice(Success, InfoCleanItemPlayerGet, [player2.value])]);
        } else if EqualsIgnoreCase(playerName, AllPlayers) {
          var recipients: seq<string> := [];
          var messages: seq<Message> := [];
          for i := 0 to |online|
            invariant recipients == online[..i]
            invariant messages == GotItemNotices(online[..i])
          {
            recipients := recipients + [online[i]];
            messages := messages + [Notice(Success, InfoCleanItemPlayerGet, [online[i]])];
            assert online[..i + 1] == online[..i] + [online[i]];
          }
          assert online[..|online|] == online;
          d := Delivery(recipients, messages);
        } else {
          d := Delivery([], [Notice(Error, ErrorPlayerNotOnline, [playerName])]);
        }
      }
    }

    /** setCleaningItem, applied to the configuration store. */
    method SetCleaningItem(t: CommandTuple, config: ConfigStore) returns (messages: seq<Message>)
      modifies config
      ensures config.Current() == SetItemStep(old(config.Current()), t.sender).config
      ensures messages == SetItemStep(old(config.Current()), t.sender).messages
    {
      var check := CheckPlayer(t.sender);
      if check.Some? {
        messages := [check.value];
      } else if !HasPermission(t.sender, CmdAdminItemSet) {
        messages := [PermissionError(CmdAdminItemSet)];
      } else {
        var item := t.sender.mainHand;
        if item.material == Air {
          messages := [Notice(Error, ErrorYouHoldItem, [])];
        } else {
          item := item.(damage := 0);
          item := item.(amount := 1);
          config.SetCleaningItem(item);
          messages := [ChangedItem(Command, item)];
        }
      }
    }

    /** setCleaningItemActive, applied to the configuration store. */
    method SetCleaningItemActive(t: CommandTuple, config: ConfigStore, isTrueOrFalse: string -> bool)
      returns (messages: seq<Message>)
      requires |t.args| >= 2
      modifies config
      ensures config.Current() == FlagStep(old(config.Current()), t, ActiveFlag, isTrueOrFalse).config
      ensures messages == FlagStep(old(config.Current()), t, ActiveFlag, isTrueOrFalse).messages
    {
      var value := t.args[1];
      if !HasPermission(t.sender, CmdAdminItemSetActive) {
        messages := [PermissionError(CmdAdminItemSetActive)];
      } else if !isTrueOrFalse(value) {
        messages := [Notice(Error, ErrorValidationBoolean, [])];
      } else {
        var b := ParseBoolean(value);
        config.SetCleaningItemActive(b);
        messages := [ChangedValue(ActiveProperty, BoolText(b))];
      }
    }

    /** setDurabilityLoss, applied to the configuration store. */
    method SetDurabilityLoss(t: CommandTuple, config: ConfigStore, isTrueOrFalse: string -> bool)
      returns (messages: seq<Message>)
      requires |t.args| >= 2
      modifies config
      ensures config.Current() == FlagStep(old(config.Current()), t, DurabilityLossFlag, isTrueOrFalse).config
      ensures messages == FlagStep(old(config.Current()), t, DurabilityLossFlag, isTrueOrFalse).messages
    {
      var value := t.args[1];
      if !HasPermission(t.sender, CmdAdminItemSetDurabilityLoss) {
        messages := [PermissionError(CmdAdminItemSetDurabilityLoss)];
      } else if !isTrueOrFalse(value) {
        messages := [Notice(Error, ErrorValidationBoolean, [])];
      } else {
        var b := ParseBoolean(value);
        config.SetDurabilityLossActive(b);
        messages := [ChangedValue(DurabilityProperty, BoolText(b))];
      }
    }

    /** setOpenEventMode, applied to the configuration store; the token is not validated. */
    method SetOpenEventMode(t: CommandTuple, config: ConfigStore) returns (messages: seq<Message>)
      requires |t.args| >= 2
      modifies config
      ensures forall v: string -> bool :: config.Current() == FlagStep(old(config.Current()), t, OpenEventFlag, v).config
      ensures forall v: string -> bool :: messages == FlagStep(old(config.Current()), t, OpenEventFlag, v).messages
    {
      var value := t.args[1];
      if !HasPermission(t.sender, CmdAdminItemSetEventMode) {
        messages := [PermissionError(CmdAdminItemSetEventMode)];
      } else {
        var b := ParseBoolean(value);
        config.SetOpenEvent(b);
        messages := [ChangedValue(OpenEventProperty, BoolText(b))];
      }
    }

    /** setItemLore, applied to the configuration store. */
    method SetItemLore(t: CommandTuple, config: ConfigStore) returns (messages: seq<Message>)
      requires |t.args| >= 2
      modifies config
      ensures config.Current() == LoreStep(old(config.Current()), t).config
      ensures messages == LoreStep(old(config.Current()), t).messages
    {
      if !HasPermission(t.sender, CmdAdminItemSetLore) {
        messages := [PermissionError(CmdAdminItemSetLore)];
      } else {
        var lore := BuildValue(t.args);
        var lorearray := JavaSplit(lore, LoreLineBreak);
        var lorelist: seq<string> := [];
        for k := 0 to |lorearray|
          invariant |lorelist| == k
          invariant forall j :: 0 <= j < k ==> lorelist[j] == Colour(lorearray[j])
        {
          var obj := Colour(lorearray[k]);
          lorelist := lorelist + [obj];
        }
        assert lorelist == LoreLines(t.args);
        var item := config.cleaningItem;
        config.SetCleaningItem(item.(lore := Some(lorelist)));
        messages := [ChangedValue(LoreProperty, ListText(lorelist))];
      }
    }

    /** setItemName, applied to the configuration store. */
    method SetItemName(t: CommandTuple, config: ConfigStore) returns (messages: seq<Message>)
      requires |t.args| >= 2
      modifies config
      ensures config.Current() == NameStep(old(config.Current()), t).config
      ensures messages == NameStep(old(config.Current()), t).messages
    {
      if !HasPermission(t.sender, CmdAdminItemRename) {
        messages := [PermissionError(CmdAdminItemRename)];
      } else {
        var newname := BuildValue(t.args);
        newname := Colour(newname);
        var item := config.cleaningItem;
        config.SetCleaningItem(item.(displayName := Some(newname)));
        messages := [ChangedValue(NameProperty, newname)];
      }
    }

    /**
     * onTabComplete: the candidates for the current position that start
     * with the current token ignoring case, sorted. `booleanValues` is the
     * host's list of true/false words and `onlineNames` the names of the
     * online players.
     */
    method OnTabComplete(args: seq<string>, booleanValues: seq<string>, onlineNames: seq<string>)
      returns (completions: seq<string>)
      ensures Sorted(completions)
      ensures multiset(completions) == multiset(PartialMatches(CurrentToken(args), Candidates(args, booleanValues, onlineNames)))
      ensures forall x :: x in completions <==>
                x in Candidates(args, booleanValues, onlineNames) && StartsWithIgnoreCase(x, CurrentToken(args))
      ensures |args| != 1 && |args| != 2 ==> completions == []
      ensures |args| == 2 && !TakesBoolean(args[0]) && !EqualsIgnoreCase(args[0], GiveSubCommand) ==> completions == []
    {
      completions := [];
      var cleaningItemCommands := SubCommands;
      if |args| == 1 {
        completions := completions + PartialMatches(args[0], cleaningItemCommands);
      } else if |args| == 2 {
        if TakesBoolean(args[0]) {
          completions := completions + PartialMatches(args[1], booleanValues);
        } else if EqualsIgnoreCase(GiveSubCommand, args[0]) {
          completions := completions + PartialMatches(args[1], onlineNames);
        }
      }
      completions := Sort(completions);
    }
  }
}
