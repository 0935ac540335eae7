/**
 * What the cleaning-item command sees of its host: the permission nodes it
 * asks about, the sender of a command, the item stack it stores, the messages
 * it sends, and the plugin's configuration (PluginConfigManager), which the
 * setters update in place.
 */
module Host {

  datatype Option<T> = None | Some(value: T)

  /** The permission nodes the handlers consult (PluginPermissions). */
  datatype Permission =
    | CmdCleaningItemGet
    | CmdCleaningItemGive
    | CmdAdminItemSet
    | CmdAdminItemSetActive
    | CmdAdminItemSetDurabilityLoss
    | CmdAdminItemSetEventMode
    | CmdAdminItemSetLore
    | CmdAdminItemRename

  /** An item type; only AIR (an empty hand) is told apart by the command. */
  datatype Material = Air | Solid(key: string)

  /**
   * An item stack: its type, stack size, damage and the two parts of its meta
   * the command edits (a display name and a lore, each possibly absent).
   */
  datatype Item = Item(
    material: Material,
    amount: int,
    damage: int,
    displayName: Option<string>,
    lore: Option<seq<string>>)

  /**
   * Who issued a command: a player (with a name and the item in the main
   * hand) or any other sender such as the console. Each holds a set of
   * permission nodes.
   */
  datatype Sender =
    | Player(name: string, permissions: set<Permission>, mainHand: Item)
    | NonPlayer(permissions: set<Permission>)

  predicate HasPermission(s: Sender, p: Permission)
  {
    p in s.permissions
  }

  /** The sender and the command-line tokens after the root command word. */
  datatype CommandTuple = CommandTuple(sender: Sender, args: seq<string>)

  datatype MessageType = Success | Error

  datatype MessageId =
    | InfoCurrentValue
    | ErrorYouNotPlayer
    | InfoCleanItemYouGet
    | ErrorYouHoldItem
    | InfoCleanItemPlayerGet
    | ErrorPlayerNotOnline
    | ErrorValidationBoolean

  /**
   * A message sent to the sender (MessageSystem): a permission error, a
   * keyed notice with its substitution values, or a "value changed" report.
   * The report for a new cleaning item carries the item itself, since the
   * text of ItemStack.toString is the host's.
   */
  datatype Message =
    | PermissionError(permission: Permission)
    | Notice(kind: MessageType, id: MessageId, values: seq<string>)
    | ChangedValue(key: string, value: string)
    | ChangedItem(key: string, item: Item)

  /** A snapshot of the configuration the command reads and writes. */
  datatype Config = Config(
    cleaningItem: Item,
    cleaningItemActive: bool,
    durabilityLossActive: bool,
    openEvent: bool)

  /** The configuration store, updated in place by its setters. */
  class ConfigStore {
    var cleaningItem: Item
    var cleaningItemActive: bool
    var durabilityLossActive: bool
    var openEvent: bool

    function Current(): Config
      reads this
    {
      Config(cleaningItem, cleaningItemActive, durabilityLossActive, openEvent)
    }

    constructor (c: Config)
      ensures Current() == c
    {
      cleaningItem := c.cleaningItem;
      cleaningItemActive := c.cleaningItemActive;
      durabilityLossActive := c.durabilityLossActive;
      openEvent := c.openEvent;
    }

    method SetCleaningItem(item: Item)
      modifies this
      ensures Current() == old(Current()).(cleaningItem := item)
    {
      cleaningItem := item;
    }

    method SetCleaningItemActive(b: bool)
      modifies this
      ensures Current() == old(Current()).(cleaningItemActive := b)
    {
      cleaningItemActive := b;
    }

    method SetDurabilityLossActive(b: bool)
      modifies this
      ensures Current() == old(Current()).(durabilityLossActive := b)
    {
      durabilityLossActive := b;
    }

    method SetOpenEvent(b: bool)
      modifies this
      ensures Current() == old(Current()).(openEvent := b)
    {
      openEvent := b;
    }
  }
}
