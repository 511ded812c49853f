/**
 * The loot handler of the JunkToGold player script: a looted item that passes
 * every configured filter is sold on the spot. The player is credited the item's
 * sell price times the looted count, the item is destroyed, and optionally a
 * server-wide notice announces the sale.
 *
 * The handler's calls into the game server (`ModifyMoney`, `DestroyItem`,
 * `SendServerMessage`) are returned as `Effect` values, in the order they are
 * made. The account_tutorial table is a set of account ids.
 */
module JunkToGold {
  import opened Wrappers
  import opened Ints
  import opened ItemList
  import opened Transaction

  /** Host item constants: the bonding kind "bind when picked up" and the quest item class. */
  const BIND_WHEN_PICKED_UP: uint32 := 1
  const ITEM_CLASS_QUEST: uint32 := 12

  /** The module's settings, as `ReloadConfig` leaves them. */
  datatype Config = Config(
    enabled: bool,
    minQuality: uint8,
    maxQuality: uint8,
    showMessage: bool,
    minLevel: uint8,
    onlyForBots: bool,
    excludeBop: bool,
    excludeQuestItems: bool,
    blacklist: set<uint32>,
    whitelist: set<uint32>)

  /** The settings when the configuration file sets none of the options. */
  const DefaultConfig: Config :=
    Config(true, 0, 0, false, 1, true, true, true, {}, {})

  /**
   * The options as the configuration file gives them: `None` when an option is
   * not set. The lists are the raw comma-separated text.
   */
  datatype Options = Options(
    enable: Option<bool>,
    minQuality: Option<uint8>,
    maxQuality: Option<uint8>,
    showMessage: Option<bool>,
    minLevel: Option<uint8>,
    onlyForBots: Option<bool>,
    excludeBop: Option<bool>,
    excludeQuestItems: Option<bool>,
    blacklist: Option<string>,
    whitelist: Option<string>)

  const NoOptions: Options :=
    Options(None, None, None, None, None, None, None, None, None, None)

  /**
   * Reads every option, falling back to its default, and parses both lists.
   * The previous settings play no part: a reload replaces all of them.
   */
  function ReloadConfig(o: Options): (c: Config)
    ensures o.enable.Some? ==> c.enabled == o.enable.value
    ensures o.enable.None? ==> c.enabled == DefaultConfig.enabled
    ensures o.minQuality.Some? ==> c.minQuality == o.minQuality.value
    ensures o.minQuality.None? ==> c.minQuality == DefaultConfig.minQuality
    ensures o.maxQuality.Some? ==> c.maxQuality == o.maxQuality.value
    ensures o.maxQuality.None? ==> c.maxQuality == DefaultConfig.maxQuality
    ensures o.showMessage.Some? ==> c.showMessage == o.showMessage.value
    ensures o.showMessage.None? ==> c.showMessage == DefaultConfig.showMessage
    ensures o.minLevel.Some? ==> c.minLevel == o.minLevel.value
    ensures o.minLevel.None? ==> c.minLevel == DefaultConfig.minLevel
    ensures o.onlyForBots.Some? ==> c.onlyForBots == o.onlyForBots.value
    ensures o.onlyForBots.None? ==> c.onlyForBots == DefaultConfig.onlyForBots
    ensures o.excludeBop.Some? ==> c.excludeBop == o.excludeBop.value
    ensures o.excludeBop.None? ==> c.excludeBop == DefaultConfig.excludeBop
    ensures o.excludeQuestItems.Some? ==> c.excludeQuestItems == o.excludeQuestItems.value
    ensures o.excludeQuestItems.None? ==> c.excludeQuestItems == DefaultConfig.excludeQuestItems
    ensures o.blacklist.None? ==> c.blacklist == {}
    ensures o.whitelist.None? ==> c.whitelist == {}
    ensures forall id :: id in c.blacklist <==> id in ParseItemList(o.blacklist.GetOr(""))
    ensures forall id :: id in c.whitelist <==> id in ParseItemList(o.whitelist.GetOr(""))
  {
    Config(
      o.enable.GetOr(DefaultConfig.enabled),
      o.minQuality.GetOr(DefaultConfig.minQuality),
      o.maxQuality.GetOr(DefaultConfig.maxQuality),
      o.showMessage.GetOr(DefaultConfig.showMessage),
      o.minLevel.GetOr(DefaultConfig.minLevel),
      o.onlyForBots.GetOr(DefaultConfig.onlyForBots),
      o.excludeBop.GetOr(DefaultConfig.excludeBop),
      o.excludeQuestItems.GetOr(DefaultConfig.excludeQuestItems),
      ParseItemList(o.blacklist.GetOr("")),
      ParseItemList(o.whitelist.GetOr("")))
  }

  /** With no option set, a reload yields the defaults `ReloadConfig` falls back to. */
  lemma ReloadWithoutOptions()
    ensures ReloadConfig(NoOptions) == DefaultConfig
  {
  }

  /** The static data of an item kind that the handler reads. */
  datatype ItemTemplate = ItemTemplate(
    itemId: uint32,
    name: string,
    quality: uint32,
    itemClass: uint32,
    bonding: uint32,
    sellPrice: uint32)

  /** A looted item: its inventory position and its template, which may be missing. */
  datatype Item = Item(bagSlot: uint8, slot: uint8, template: Option<ItemTemplate>)

  datatype Session = Session(accountId: uint32)

  /** The looting player: level, and the session of a connected client, if any. */
  datatype Player = Player(level: uint8, session: Option<Session>)

  /**
   * The bot heuristic: a player without a session is a bot, and so is one whose
   * account has no row in the account_tutorial table (`tutorialAccounts`).
   */
  function IsBot(player: Player, tutorialAccounts: set<uint32>): (bot: bool)
    ensures player.session.None? ==> bot
    ensures player.session.Some? ==> (bot <==> player.session.value.accountId !in tutorialAccounts)
  {
    match player.session
    case None => true
    case Some(session) => session.accountId !in tutorialAccounts
  }

  /** The calls the handler makes into the game server. */
  datatype Effect =
    | Broadcast(notice: Notice)
    | ModifyMoney(amount: uint32)
    | DestroyItem(bagSlot: uint8, slot: uint8)

  /** The item quality as the handler compares it: read into a `uint8`. */
  function QualityOf(t: ItemTemplate): uint8 {
    Low8(t.quality)
  }

  predicate InQualityRange(cfg: Config, t: ItemTemplate) {
    cfg.minQuality <= QualityOf(t) <= cfg.maxQuality
  }

  /** An empty whitelist lets every item through. */
  predicate Whitelisted(cfg: Config, t: ItemTemplate) {
    cfg.whitelist == {} || t.itemId in cfg.whitelist
  }

  /** Every filter that looks at the player and the template, stated as one conjunction. */
  predicate Qualifies(cfg: Config, level: uint8, isBot: bool, t: ItemTemplate)
    ensures Qualifies(cfg, level, isBot, t) ==>
      cfg.minQuality <= cfg.maxQuality && t.itemId !in cfg.blacklist && t.sellPrice != 0
  {
    && (!cfg.onlyForBots || isBot)
    && level >= cfg.minLevel
    && InQualityRange(cfg, t)
    && t.itemId !in cfg.blacklist
    && Whitelisted(cfg, t)
    && !(cfg.excludeBop && t.bonding == BIND_WHEN_PICKED_UP)
    && !(cfg.excludeQuestItems && t.itemClass == ITEM_CLASS_QUEST)
    && t.sellPrice != 0
  }

  /** The copper credited for `count` units: the product in 32-bit unsigned arithmetic. */
  function Credit(t: ItemTemplate, count: uint32): uint32 {
    Mul32(t.sellPrice, count)
  }

  /**
   * `OnPlayerLootItem`: the early-return filter chain, then the optional notice,
   * the credit and the destroy.
   */
  function Decide(cfg: Config, level: uint8, isBot: bool, item: Option<Item>, count: uint32): (effects: seq<Effect>)
    ensures |effects| > 0 <==>
      cfg.enabled && item.Some? && item.value.template.Some?
      && Qualifies(cfg, level, isBot, item.value.template.value)
    ensures |effects| > 0 ==>
      && |effects| == (if cfg.showMessage then 3 else 2)
      && effects[|effects| - 2] == ModifyMoney(Credit(item.value.template.value, count))
      && effects[|effects| - 1] == DestroyItem(item.value.bagSlot, item.value.slot)
    ensures |effects| > 0 && cfg.showMessage ==>
      effects[0] == Broadcast(TransactionInformation(
        item.value.template.value.itemId, item.value.template.value.name,
        count, Credit(item.value.template.value, count)))
  {
    if !cfg.enabled then []
    else if item.None? || item.value.template.None? then []
    else
      var it := item.value;
      var t := it.template.value;
      if cfg.onlyForBots && !isBot then []
      else if level < cfg.minLevel then []
      else if QualityOf(t) < cfg.minQuality || QualityOf(t) > cfg.maxQuality then []
      else if t.itemId in cfg.blacklist then []
      else if cfg.whitelist != {} && t.itemId !in cfg.whitelist then []
      else if cfg.excludeBop && t.bonding == BIND_WHEN_PICKED_UP then []
      else if cfg.excludeQuestItems && t.itemClass == ITEM_CLASS_QUEST then []
      else if t.sellPrice == 0 then []
      else
        var total := Mul32(t.sellPrice, count);
        var notice := if cfg.showMessage
          then [Broadcast(TransactionInformation(t.itemId, t.name, count, total))]
          else [];
        notice + [ModifyMoney(total), DestroyItem(it.bagSlot, it.slot)]
  }

  /**
   * The account_tutorial lookups one loot event issues: `IsBot` runs only under
   * OnlyForBots, after the item checks, and queries only for a player with a session.
   */
  function BotLookups(cfg: Config, player: Player, item: Option<Item>): (accounts: seq<uint32>)
    ensures |accounts| <= 1
    ensures |accounts| == 1 ==> cfg.onlyForBots && player.session == Some(Session(accounts[0]))
  {
    if cfg.enabled && item.Some? && item.value.template.Some? && cfg.onlyForBots
       && player.session.Some?
    then [player.session.value.accountId]
    else []
  }

  /** The whole handler, with the table lookup done as `IsBot` does it. */
  function OnPlayerLootItem(cfg: Config, player: Player, tutorialAccounts: set<uint32>,
                            item: Option<Item>, count: uint32): (effects: seq<Effect>)
    ensures |effects| > 0 <==>
      cfg.enabled && item.Some? && item.value.template.Some?
      && Qualifies(cfg, player.level, IsBot(player, tutorialAccounts), item.value.template.value)
    ensures cfg.onlyForBots && player.session.Some? && player.session.value.accountId in tutorialAccounts
      ==> effects == []
  {
    Decide(cfg, player.level, IsBot(player, tutorialAccounts), item, count)
  }

  /** A player without a session counts as a bot, whatever the table holds. */
  lemma SessionlessIsBot(player: Player, tutorialAccounts: set<uint32>)
    requires player.session.None?
    ensures IsBot(player, tutorialAccounts)
  {
  }

  /** A disabled module, a null item and an item without a template are all left alone. */
  lemma NothingWithoutItem(cfg: Config, level: uint8, isBot: bool, item: Option<Item>, count: uint32)
    requires !cfg.enabled || item.None? || item.value.template.None?
    ensures Decide(cfg, level, isBot, item, count) == []
  {
  }

  /** An item on the blacklist is never sold, whether or not it is also whitelisted. */
  lemma BlacklistWins(cfg: Config, level: uint8, isBot: bool, item: Item, count: uint32)
    requires item.template.Some? && item.template.value.itemId in cfg.blacklist
    ensures Decide(cfg, level, isBot, Some(item), count) == []
  {
  }

  /** An empty whitelist behaves as a whitelist that names the looted item. */
  lemma {:induction false} EmptyWhitelistAdmitsAll(cfg: Config, level: uint8, isBot: bool, item: Item, count: uint32)
    requires item.template.Some?
    ensures Decide(cfg.(whitelist := {}), level, isBot, Some(item), count)
         == Decide(cfg.(whitelist := {item.template.value.itemId}), level, isBot, Some(item), count)
  {
  }

  /** A non-empty whitelist that misses the item blocks it. */
  lemma WhitelistRestricts(cfg: Config, level: uint8, isBot: bool, item: Item, count: uint32)
    requires item.template.Some?
    requires cfg.whitelist != {} && item.template.value.itemId !in cfg.whitelist
    ensures Decide(cfg, level, isBot, Some(item), count) == []
  {
  }

  /** A quality range whose minimum exceeds its maximum admits nothing. */
  lemma EmptyQualityRange(cfg: Config, level: uint8, isBot: bool, item: Option<Item>, count: uint32)
    requires cfg.minQuality > cfg.maxQuality
    ensures Decide(cfg, level, isBot, item, count) == []
  {
  }

  /** Items without a sell price are never touched, whatever the other settings. */
  lemma UnsellableUntouched(cfg: Config, level: uint8, isBot: bool, item: Item, count: uint32)
    requires item.template.Some? && item.template.value.sellPrice == 0
    ensures Decide(cfg, level, isBot, Some(item), count) == []
  {
  }

  /** Without OnlyForBots, whether the player is a bot makes no difference. */
  lemma BotStatusIgnored(cfg: Config, level: uint8, item: Option<Item>, count: uint32)
    requires !cfg.onlyForBots
    ensures Decide(cfg, level, true, item, count) == Decide(cfg, level, false, item, count)
  {
  }

  /**
   * The handler's outcome depends on the account_tutorial table only through
   * the lookups it issues: two tables that agree on those accounts give the same effects.
   */
  lemma {:induction false} OnlyLookedUpAccountsMatter(cfg: Config, player: Player, item: Option<Item>,
                                                      count: uint32, tableA: set<uint32>, tableB: set<uint32>)
    requires forall i :: 0 <= i < |BotLookups(cfg, player, item)| ==>
      (BotLookups(cfg, player, item)[i] in tableA <==> BotLookups(cfg, player, item)[i] in tableB)
    ensures OnPlayerLootItem(cfg, player, tableA, item, count)
         == OnPlayerLootItem(cfg, player, tableB, item, count)
  {
    if cfg.enabled && item.Some? && item.value.template.Some? && cfg.onlyForBots {
      if player.session.Some? {
        assert BotLookups(cfg, player, item)[0] == player.session.value.accountId;
      }
      assert IsBot(player, tableA) == IsBot(player, tableB);
    } else if cfg.enabled && item.Some? && item.value.template.Some? {
      BotStatusIgnored(cfg, player.level, item, count);
    }
  }

  /** The notice announces exactly the amount credited, and names the looted item and count. */
  lemma {:induction false} NoticeMatchesCredit(cfg: Config, level: uint8, isBot: bool, item: Option<Item>, count: uint32)
    requires cfg.showMessage
    requires |Decide(cfg, level, isBot, item, count)| > 0
    ensures var effects := Decide(cfg, level, isBot, item, count);
      && effects[0].Broadcast?
      && effects[1].ModifyMoney?
      && effects[0].notice.sentence.Announced() == effects[1].amount
      && effects[0].notice.link.itemId == item.value.template.value.itemId
      && ShownCount(effects[0].notice.link) == (if count <= 1 then 1 else count)
  {
  }

  /** The credit is the unit price times the count whenever that product fits in 32 bits. */
  lemma CreditWithoutWrap(cfg: Config, level: uint8, isBot: bool, item: Option<Item>, count: uint32)
    requires |Decide(cfg, level, isBot, item, count)| > 0
    requires item.value.template.value.sellPrice * count < UINT32_LIMIT
    ensures ModifyMoney(item.value.template.value.sellPrice * count) in Decide(cfg, level, isBot, item, count)
  {
  }

  /** Out of 32 bits the credit wraps: two units at 2^31 copper each are sold for nothing. */
  lemma CreditWraps(cfg: Config, level: uint8, isBot: bool, item: Item)
    requires item.template.Some? && item.template.value.sellPrice == 0x8000_0000
    requires Qualifies(cfg, level, isBot, item.template.value) && cfg.enabled && !cfg.showMessage
    ensures Decide(cfg, level, isBot, Some(item), 2) == [ModifyMoney(0), DestroyItem(item.bagSlot, item.slot)]
  {
  }

  /** The default settings sell only poor-quality items, and only for bots. */
  lemma DefaultsSellOnlyPoorItems(level: uint8, isBot: bool, item: Option<Item>, count: uint32)
    requires |Decide(DefaultConfig, level, isBot, item, count)| > 0
    ensures isBot && level >= 1
    ensures QualityOf(item.value.template.value) == 0
  {
  }

  /** The sale scenario: quality 2, price 10, no binding, three units, ExcludeBOP on. */
  function ScenarioConfig(): Config {
    Config(true, 0, 4, false, 1, false, true, true, {}, {})
  }

  lemma ScenarioSold(level: uint8, isBot: bool, item: Item)
    requires level >= 1
    requires item.template.Some?
    requires item.template.value.quality == 2 && item.template.value.sellPrice == 10
    requires item.template.value.bonding == 0 && item.template.value.itemClass != ITEM_CLASS_QUEST
    ensures Decide(ScenarioConfig(), level, isBot, Some(item), 3)
         == [ModifyMoney(30), DestroyItem(item.bagSlot, item.slot)]
  {
  }

  /** The same item bound on pickup is kept. */
  lemma ScenarioBindOnPickup(level: uint8, isBot: bool, item: Item)
    requires item.template.Some? && item.template.value.bonding == BIND_WHEN_PICKED_UP
    ensures Decide(ScenarioConfig(), level, isBot, Some(item), 3) == []
  {
  }
}
