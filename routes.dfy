/**
 * The names of the cleaning-item command and the routes its constructor
 * registers with the command tree. The tree's own matching is not part of
 * this model; what is kept is the registration data, in registration order.
 */
module Routes {
  import opened JavaStrings

  const Command := "cleaningitem"

  /** The first word of every registered pattern. */
  const RootWord := "/cleaningitem"

  // Sub-commands.
  const GetSubCommand := "get"
  const SetSubCommand := "set"
  const GiveSubCommand := "give"
  const NameSubCommand := "name"
  const LoreSubCommand := "lore"
  const ActiveSubCommand := "active"
  const DurabilityLossSubCommand := "durabilityLoss"
  const OpenEventSubCommand := "openEvent"

  /** The sub-commands offered by tab completion, in declaration order. */
  const SubCommands: seq<string> := [GetSubCommand, SetSubCommand, GiveSubCommand, NameSubCommand,
    LoreSubCommand, ActiveSubCommand, DurabilityLossSubCommand, OpenEventSubCommand]

  /** The handler methods a route can be bound to. */
  datatype Handler =
    | GetCleaningItem
    | GiveCleaningItem
    | SetCleaningItem
    | GetConfig
    | SetItemName
    | SetItemLore
    | SetCleaningItemActive
    | SetDurabilityLoss
    | SetOpenEventMode

  /** The type of a route's trailing capture; NoArg when every word is literal. */
  datatype ArgType = NoArg | StringArg | BooleanArg

  /**
   * One registration: the words of the pattern (the first is "/cleaningitem"),
   * the bound handler, the type of the trailing capture and whether it takes
   * every remaining token.
   */
  datatype Route = Route(words: seq<string>, handler: Handler, argType: ArgType, greedy: bool)

  /** The pattern as written at registration: the words separated by spaces. */
  function Pattern(r: Route): string
  {
    JoinWith(r.words, " ")
  }

  /** Which setter handles "<sub-command> true/false". */
  function BooleanSetter(sub: string): Handler
  {
    if sub == ActiveSubCommand then SetCleaningItemActive
    else if sub == DurabilityLossSubCommand then SetDurabilityLoss
    else SetOpenEventMode
  }

  /**
   * The shape every route follows: a root word and one or two more; the
   * capture type is absent exactly when the second word is the last or is the
   * literal "@a"; only the String captures of name and lore are greedy, and a
   * Boolean capture never is.
   */
  predicate Conventions(t: seq<Route>)
  {
    forall i :: 0 <= i < |t| ==>
      && 2 <= |t[i].words| <= 3
      && t[i].words[0] == RootWord
      && t[i].words[1] in SubCommands
      && (t[i].argType == NoArg <==> (|t[i].words| == 2 || t[i].words[2] == "@a"))
      && (t[i].greedy <==>
            t[i].argType == StringArg && (t[i].words[1] == NameSubCommand || t[i].words[1] == LoreSubCommand))
      && (t[i].argType == BooleanArg ==> !t[i].greedy)
  }

  /** Some route of the table is bound to `h`. */
  predicate Registers(t: seq<Route>, h: Handler)
  {
    exists i :: 0 <= i < |t| && t[i].handler == h
  }

  function Root(sub: seq<string>): seq<string>
  {
    [RootWord] + sub
  }

  /**
   * The fourteen registrations of the constructor, in order, with the handler
   * of the "active true/false" registration left as a parameter. It is written
   * as the successive registrations onto an empty tree, the shape in which the
   * constructor builds it; TableEntries gives the same table as one display.
   */
  function Table(activeRoute: Handler): (t: seq<Route>)
    ensures |t| == 14
  {
    []
    + [Route(Root([GetSubCommand]), GetCleaningItem, NoArg, false)]
    + [Route(Root([GiveSubCommand, "@a"]), GiveCleaningItem, NoArg, false)]
    + [Route(Root([GiveSubCommand, "player"]), GiveCleaningItem, StringArg, false)]
    + [Route(Root([SetSubCommand]), SetCleaningItem, NoArg, false)]
    + [Route(Root([NameSubCommand]), GetConfig, NoArg, false)]
    + [Route(Root([LoreSubCommand]), GetConfig, NoArg, false)]
    + [Route(Root([ActiveSubCommand]), GetConfig, NoArg, false)]
    + [Route(Root([DurabilityLossSubCommand]), GetConfig, NoArg, false)]
    + [Route(Root([OpenEventSubCommand]), GetConfig, NoArg, false)]
    + [Route(Root([NameSubCommand, NameSubCommand]), SetItemName, StringArg, true)]
    + [Route(Root([LoreSubCommand, LoreSubCommand]), SetItemLore, StringArg, true)]
    + [Route(Root([ActiveSubCommand, "true/false"]), activeRoute, BooleanArg, false)]
    + [Route(Root([DurabilityLossSubCommand, "true/false"]), SetDurabilityLoss, BooleanArg, false)]
    + [Route(Root([OpenEventSubCommand, "true/false"]), SetOpenEventMode, BooleanArg, false)]
  }

  /** The table as one sequence display. */
  lemma TableEntries(activeRoute: Handler)
    ensures Table(activeRoute) == [ Route(Root([GetSubCommand]), GetCleaningItem, NoArg, false),
        Route(Root([GiveSubCommand, "@a"]), GiveCleaningItem, NoArg, false),
        Route(Root([GiveSubCommand, "player"]), GiveCleaningItem, StringArg, false),
        Route(Root([SetSubCommand]), SetCleaningItem, NoArg, false),
        Route(Root([NameSubCommand]), GetConfig, NoArg, false),
        Route(Root([LoreSubCommand]), GetConfig, NoArg, false),
        Route(Root([ActiveSubCommand]), GetConfig, NoArg, false),
        Route(Root([DurabilityLossSubCommand]), GetConfig, NoArg, false),
        Route(Root([OpenEventSubCommand]), GetConfig, NoArg, false),
        Route(Root([NameSubCommand, NameSubCommand]), SetItemName, StringArg, true),
        Route(Root([LoreSubCommand, LoreSubCommand]), SetItemLore, StringArg, true),
        Route(Root([ActiveSubCommand, "true/false"]), activeRoute, BooleanArg, false),
        Route(Root([DurabilityLossSubCommand, "true/false"]), SetDurabilityLoss, BooleanArg, false),
        Route(Root([OpenEventSubCommand, "true/false"]), SetOpenEventMode, BooleanArg, false) ]
  {
  }

  /**
   * Whatever handler "active true/false" is bound to, the table follows the
   * conventions.
   */
  lemma TableConventions(activeRoute: Handler)
    ensures |Table(activeRoute)| == 14 && Conventions(Table(activeRoute))
  {
    TableEntries(activeRoute);
  }

  /**
   * Whatever handler "active true/false" is bound to, its entry has a Boolean
   * capture, every other Boolean route reaches the setter of its own
   * sub-command, and no other route is bound to the active setter.
   */
  lemma TableHandlers(activeRoute: Handler)
    ensures var t := Table(activeRoute);
      && |t| == 14
      && t[11] == Route(Root([ActiveSubCommand, "true/false"]), activeRoute, BooleanArg, false)
      && (forall i :: 0 <= i < |t| && i != 11 && t[i].argType == BooleanArg ==>
            t[i].handler == BooleanSetter(t[i].words[1]))
      && (forall i :: 0 <= i < |t| && i != 11 ==> t[i].handler != SetCleaningItemActive)
  {
    TableEntries(activeRoute);
  }

  /**
   * The registrations as the source writes them: "active true/false" is bound
   * to the lore handler, so the handler that sets the active flag is never
   * registered.
   */
  function AsWritten(): (t: seq<Route>)
    ensures |t| == 14 && Conventions(t)
    ensures t[11].handler == SetItemLore && t[11].argType == BooleanArg
    ensures !Registers(t, SetCleaningItemActive)
  {
    TableConventions(SetItemLore);
    TableHandlers(SetItemLore);
    Table(SetItemLore)
  }

  /**
   * The intended registrations: "active true/false" bound to the active
   * setter. Every handler is then reachable and every Boolean route reaches
   * the setter of its own sub-command.
   */
  function Intended(): (t: seq<Route>)
    ensures |t| == 14 && Conventions(t)
    ensures forall h: Handler :: Registers(t, h)
    ensures forall i :: 0 <= i < |t| && t[i].argType == BooleanArg ==> t[i].handler == BooleanSetter(t[i].words[1])
  {
    var t := Table(SetCleaningItemActive);
    TableConventions(SetCleaningItemActive);
    TableHandlers(SetCleaningItemActive);
    OtherHandlersRegistered(SetCleaningItemActive);
    assert Registers(t, SetCleaningItemActive) by { assert t[11].handler == SetCleaningItemActive; }
    t
  }

  /**
   * Whatever handler "active true/false" is bound to, every handler but the
   * active setter is registered.
   */
  lemma OtherHandlersRegistered(activeRoute: Handler)
    ensures forall h: Handler :: h != SetCleaningItemActive ==> Registers(Table(activeRoute), h)
  {
    var t := Table(activeRoute);
    TableEntries(activeRoute);
    forall h: Handler | h != SetCleaningItemActive ensures Registers(t, h) {
      var i := match h
        case GetCleaningItem => 0
        case GiveCleaningItem => 1
        case SetCleaningItem => 3
        case GetConfig => 4
        case SetItemName => 9
        case SetItemLore => 10
        case SetCleaningItemActive => 11
        case SetDurabilityLoss => 12
        case SetOpenEventMode => 13;
      assert t[i].handler == h;
    }
  }

  /**
   * The discrepancy: under the as-written table the command "active true"
   * reaches the lore setter, under the intended one the active setter.
   */
  lemma ActiveRouteMiswired()
    ensures Pattern(AsWritten()[11]) == "/cleaningitem active true/false"
    ensures AsWritten()[11].handler == SetItemLore
    ensures Intended()[11].handler == SetCleaningItemActive
    ensures Registers(Intended(), SetCleaningItemActive) && !Registers(AsWritten(), SetCleaningItemActive)
  {
    var w := ["/cleaningitem", "active", "true/false"];
    assert AsWritten()[11].words == w;
    assert JoinWith(w, " ") == "/cleaningitem active true/false";
    assert Intended()[11].handler == SetCleaningItemActive;
  }

  /** The registration side of the command tree. */
  class CommandTree {
    const alias: string
    var routes: seq<Route>

    constructor (alias: string)
      ensures this.alias == alias && routes == []
    {
      this.alias := alias;
      routes := [];
    }

    /** Registers one route after the ones already present. */
    method AddPath(words: seq<string>, handler: Handler, argType: ArgType, greedy: bool)
      modifies this
      ensures routes == old(routes) + [Route(words, handler, argType, greedy)]
    {
      routes := routes + [Route(words, handler, argType, greedy)];
    }
  }
}
