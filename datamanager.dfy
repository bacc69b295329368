/**
 * The repositories of dataManager.ts: guilds, money accounts and shop
 * items, each kept in its own database (`guild`, `money`, `items`).
 */
module DataManager {
  import opened Wrappers
  import opened JsText
  import opened Utils
  import opened Json
  import opened Raven

  function StrOrNull(o: Option<string>): Json {
    if o.Some? then JStr(o.value) else JNull
  }

  function IntOrNull(o: Option<int>): Json {
    if o.Some? then JNum(o.value) else JNull
  }

  function Strings(s: seq<string>): Json {
    JArr(seq(|s|, i requires 0 <= i < |s| => JStr(s[i])))
  }

  // ---------------------------------------------------------------------------
  // Guilds

  datatype GuildMoney = GuildMoney(currency: Option<string>, startingMoney: int)
  datatype XpSettings = XpSettings(perLevel: int, starting: int)
  datatype GuildBody = GuildBody(gid: string, maxHeroes: int, webhooks: seq<(string, string)>,
                                 modrole: string, money: GuildMoney, xp: XpSettings)
  type RavenGuild = Doc<GuildBody>

  /** `GuildManager.default(gid)`. */
  function GuildDefault(gid: string): (g: RavenGuild)
    ensures g.meta == DEFAULT_META && g.meta.id == "" && g.meta.collection.None?
    ensures g.body.gid == gid && g.body.maxHeroes == 1 && g.body.webhooks == [] && g.body.modrole == ""
    ensures g.body.money.currency.None? && g.body.money.startingMoney == 0
    ensures g.body.xp.perLevel == 100 && g.body.xp.starting == 100
  {
    Doc(DEFAULT_META, GuildBody(gid, 1, [], "", GuildMoney(None, 0), XpSettings(100, 100)))
  }

  function GuildFields(b: GuildBody): (f: Members)
    ensures Keys(f) == ["gid", "maxHeroes", "webhooks", "modrole", "money", "xp"]
  {
    var wh := b.webhooks;
    [("gid", JStr(b.gid)),
     ("maxHeroes", JNum(b.maxHeroes)),
     ("webhooks", JObj(seq(|wh|, i requires 0 <= i < |wh| => (wh[i].0, JStr(wh[i].1))))),
     ("modrole", JStr(b.modrole)),
     ("money", JObj([("currency", StrOrNull(b.money.currency)),
                     ("startingMoney", JNum(b.money.startingMoney))])),
     ("xp", JObj([("perLevel", JNum(b.xp.perLevel)), ("starting", JNum(b.xp.starting))]))]
  }

  /** A guild as the database stores it: its metadata, then its fields. */
  function GuildObject(g: RavenGuild): Members {
    [(METADATA, MetaObject(g.meta))] + GuildFields(g.body)
  }

  /**
   * `update` of a guild targets its `@metadata.@id`, and its script turns
   * the stored guild into one with the stored metadata and the new fields.
   */
  lemma GuildUpdate(stored: RavenGuild, data: RavenGuild)
    ensures PatchTarget(GuildObject(data)) == Some(JStr(data.meta.id))
    ensures ApplyAll(GuildObject(stored), Assignments(GuildObject(data)))
         == GuildObject(Doc(stored.meta, data.body))
  {
    MetaTarget(data.meta, GuildFields(data.body));
    PatchFieldsAfterMetadata(MetaObject(stored.meta), MetaObject(data.meta),
                             GuildFields(stored.body), GuildFields(data.body));
  }

  /** `money.currency || "$"`: a missing or empty currency shows as a dollar sign. */
  function CurrencySymbol(g: RavenGuild): (s: string)
    ensures s != ""
    ensures g.body.money.currency.None? || g.body.money.currency == Some("") ==> s == "$"
    ensures g.body.money.currency.Some? && g.body.money.currency != Some("") ==> s == g.body.money.currency.value
  {
    match g.body.money.currency
    case None => "$"
    case Some(c) => if c == "" then "$" else c
  }

  function WhereGid(gid: string): GuildBody -> bool {
    (b: GuildBody) => b.gid == gid
  }

  /** The guild `getOrCreate(gid)` answers with when the caller passes no data. */
  function GuildOrDefault(docs: seq<RavenGuild>, gid: string): RavenGuild {
    FirstMatch(docs, WhereGid(gid)).GetOr(GuildDefault(gid))
  }

  /** The guild database after `getOrCreate(gid, data)`. */
  function GuildsAfterGetOrCreate(docs: seq<RavenGuild>, gid: string, data: RavenGuild): (r: seq<RavenGuild>)
    ensures FirstMatch(docs, WhereGid(gid)).Some? ==> r == docs
    ensures FirstMatch(docs, WhereGid(gid)).None? ==> r == docs + [Stored(data, docs)]
    ensures |r| == |docs| || |r| == |docs| + 1
  {
    if FirstMatch(docs, WhereGid(gid)).Some? then docs else docs + [Stored(data, docs)]
  }

  /** No two guilds the queries see (those without a collection) share a `gid`. */
  predicate OneGuildPerGid(docs: seq<RavenGuild>) {
    forall i, j :: 0 <= i < j < |docs| && docs[i].meta.collection.None? && docs[j].meta.collection.None?
                   ==> docs[i].body.gid != docs[j].body.gid
  }

  /** `getOrCreate(gid)` never stores a second guild for a `gid` (given data for that `gid`). */
  lemma GetOrCreateKeepsOneGuildPerGid(docs: seq<RavenGuild>, gid: string, data: RavenGuild)
    requires OneGuildPerGid(docs) && data.body.gid == gid
    ensures OneGuildPerGid(GuildsAfterGetOrCreate(docs, gid, data))
  {
    if FirstMatch(docs, WhereGid(gid)).None? {
      var r := GuildsAfterGetOrCreate(docs, gid, data);
      forall i, j | 0 <= i < j < |r| && r[i].meta.collection.None? && r[j].meta.collection.None?
        ensures r[i].body.gid != r[j].body.gid
      {
        if j == |docs| {
          assert !Selected(docs[i], WhereGid(gid));
        }
      }
    }
  }

  class GuildManager {
    const base: BaseManager<GuildBody>

    constructor (existing: seq<RavenGuild>)
      requires DistinctIds(existing)
      ensures fresh(base) && base.dbName == "guild" && base.docs == existing && base.Valid()
    {
      base := new BaseManager("guild", existing);
    }

    /** `get(gid)`: the first guild with that `gid`. */
    method Get(gid: string) returns (r: Option<RavenGuild>)
      ensures r == FirstMatch(base.docs, WhereGid(gid))
    {
      r := base.Get(WhereGid(gid));
    }

    /** An existing guild is answered without a write; otherwise `data` is created once and answered. */
    method GetOrCreate(gid: string, data: RavenGuild := GuildDefault(gid)) returns (g: RavenGuild)
      requires base.Valid()
      modifies base
      ensures base.Valid()
      ensures base.docs == GuildsAfterGetOrCreate(old(base.docs), gid, data)
      ensures g == FirstMatch(old(base.docs), WhereGid(gid)).GetOr(data)
    {
      var tempData := Get(gid);
      if tempData.Some? {
        return tempData.value;
      }
      base.Create(data);
      g := data;
    }

    /** `getCurrency(gid)`: the currency of the guild `getOrCreate(gid)` answers with. */
    method GetCurrency(gid: string) returns (s: string)
      requires base.Valid()
      modifies base
      ensures base.Valid()
      ensures base.docs == GuildsAfterGetOrCreate(old(base.docs), gid, GuildDefault(gid))
      ensures s == CurrencySymbol(GuildOrDefault(old(base.docs), gid))
      ensures FirstMatch(old(base.docs), WhereGid(gid)).None? ==> s == "$"
    {
      var g := GetOrCreate(gid);
      s := CurrencySymbol(g);
    }
  }

  // ---------------------------------------------------------------------------
  // Money accounts

  datatype ItemStack = ItemStack(hash: string, quantinity: int)
  datatype MoneyBody = MoneyBody(gid: string, uid: string, value: int, heroId: Option<string>,
                                 items: seq<ItemStack>)
  type RavenMoney = Doc<MoneyBody>

  /** `MoneyManager.default(gid, uid)`. */
  function MoneyDefault(gid: string, uid: string): (m: RavenMoney)
    ensures m.meta == DEFAULT_META && m.meta.id == "" && m.meta.collection.None?
    ensures m.body.gid == gid && m.body.uid == uid && m.body.value == 0
    ensures m.body.heroId.None? && m.body.items == []
  {
    Doc(DEFAULT_META, MoneyBody(gid, uid, 0, None, []))
  }

  function MoneyFields(b: MoneyBody): (f: Members)
    ensures Keys(f) == ["gid", "uid", "value", "heroID", "items"]
  {
    var items := b.items;
    [("gid", JStr(b.gid)),
     ("uid", JStr(b.uid)),
     ("value", JNum(b.value)),
     ("heroID", StrOrNull(b.heroId)),
     ("items", JArr(seq(|items|, i requires 0 <= i < |items| =>
                          JObj([("hash", JStr(items[i].hash)), ("quantinity", JNum(items[i].quantinity))]))))]
  }

  function MoneyObject(m: RavenMoney): Members {
    [(METADATA, MetaObject(m.meta))] + MoneyFields(m.body)
  }

  lemma MoneyUpdate(stored: RavenMoney, data: RavenMoney)
    ensures PatchTarget(MoneyObject(data)) == Some(JStr(data.meta.id))
    ensures ApplyAll(MoneyObject(stored), Assignments(MoneyObject(data)))
         == MoneyObject(Doc(stored.meta, data.body))
  {
    MetaTarget(data.meta, MoneyFields(data.body));
    PatchFieldsAfterMetadata(MetaObject(stored.meta), MetaObject(data.meta),
                             MoneyFields(stored.body), MoneyFields(data.body));
  }

  function WhereAccount(gid: string, uid: string): MoneyBody -> bool {
    (b: MoneyBody) => b.gid == gid && b.uid == uid
  }

  /** The account `getOrCreate` stores when none exists: an unsaved one starts with the guild's starting money. */
  function SeededAccount(guilds: seq<RavenGuild>, gid: string, data: RavenMoney): (a: RavenMoney)
    ensures a.meta == data.meta
    ensures a.body.gid == data.body.gid && a.body.uid == data.body.uid && a.body.heroId == data.body.heroId
            && a.body.items == data.body.items
    ensures data.meta.id != "" ==> a == data
    ensures data.meta.id == "" ==> a.body.value == GuildOrDefault(guilds, gid).body.money.startingMoney
  {
    if data.meta.id == "" then
      data.(body := data.body.(value := GuildOrDefault(guilds, gid).body.money.startingMoney))
    else data
  }

  /**
   * An unsaved account in a guild the bot has not stored yet starts with
   * nothing, whatever else the guild database holds: the guild read is the
   * default one.
   */
  lemma NewGuildStartsAtZero(guilds: seq<RavenGuild>, gid: string, data: RavenMoney)
    requires data.meta.id == ""
    requires forall i :: 0 <= i < |guilds| ==> !Selected(guilds[i], WhereGid(gid))
    ensures SeededAccount(guilds, gid, data).body.value == 0
  {
  }

  class MoneyManager {
    const base: BaseManager<MoneyBody>

    constructor (existing: seq<RavenMoney>)
      requires DistinctIds(existing)
      ensures fresh(base) && base.dbName == "money" && base.docs == existing && base.Valid()
    {
      base := new BaseManager("money", existing);
    }

    /** `getAll(gid, uid)`: the accounts of one user in one guild. */
    method GetAll(gid: string, uid: string) returns (r: seq<RavenMoney>)
      ensures r == Matching(base.docs, WhereAccount(gid, uid))
    {
      r := base.GetAll(WhereAccount(gid, uid));
    }

    /**
     * Existing accounts are answered without a write. Otherwise an unsaved
     * `data` first gets the starting money of the guild, which the guild
     * manager fetches or creates, and is then created once and answered.
     * `guilds` is the guild singleton, `GuildManager.getInstance()`: callers
     * pass `Managers.GuildInstance()`.
     */
    method GetOrCreate(gid: string, uid: string, guilds: GuildManager,
                       data: RavenMoney := MoneyDefault(gid, uid)) returns (r: seq<RavenMoney>)
      requires base.Valid() && guilds.base.Valid()
      modifies base, guilds.base
      ensures base.Valid() && guilds.base.Valid()
      ensures Matching(old(base.docs), WhereAccount(gid, uid)) != [] ==>
                r == Matching(old(base.docs), WhereAccount(gid, uid))
                && base.docs == old(base.docs) && guilds.base.docs == old(guilds.base.docs)
      ensures Matching(old(base.docs), WhereAccount(gid, uid)) == [] ==>
                var seeded := SeededAccount(old(guilds.base.docs), gid, data);
                r == [seeded]
                && base.docs == old(base.docs) + [Stored(seeded, old(base.docs))]
                && guilds.base.docs == (if data.meta.id == "" then GuildsAfterGetOrCreate(old(guilds.base.docs), gid, GuildDefault(gid))
                                        else old(guilds.base.docs))
    {
      var tempData := GetAll(gid, uid);
      if |tempData| > 0 {
        return tempData;
      }
      var account := data;
      if account.meta.id == "" {
        var guildData := guilds.GetOrCreate(gid);
        account := account.(body := account.body.(value := guildData.body.money.startingMoney));
      }
      base.Create(account);
      r := [account];
    }
  }

  // ---------------------------------------------------------------------------
  // Shop items

  datatype Entity = ROLE | USER | ALL
  datatype PriceTier = PriceTier(id: string, price: int, entity: Entity)
  /** A single price, or one price per role or user. */
  datatype Price = Flat(amount: int) | Tiered(tiers: seq<PriceTier>)
  /** A percentage written as a string, or a fixed amount. */
  datatype SellFor = Percent(percent: string) | Fixed(amount: int)
  datatype TimeWindow = TimeWindow(start: string, end: string)
  datatype SellSettings = SellSettings(sellFor: SellFor, canSell: bool)
  datatype RoleEffects = RoleEffects(give: seq<string>, remove: seq<string>, required: seq<string>)
  datatype ItemMessages = ItemMessages(use: string, buy: string, sell: string, add: string, take: string)
  datatype Recipe = Recipe(item: string, countItem: int, item1: Option<string>, countItem1: Option<int>,
                           additionalCost: int, result: int)
  /** `stock == -1` stands for an unlimited stock. */
  datatype ItemData = ItemData(price: Price, description: string, inventory: bool, stock: int,
                               time: TimeWindow, sell: SellSettings, roles: RoleEffects,
                               messages: ItemMessages, recipes: seq<Recipe>, tags: seq<string>)
  datatype ItemBody = ItemBody(gid: string, name: string, data: ItemData)
  type RavenItem = Doc<ItemBody>

  /** What a caller of `ItemManager.create` may leave out: every `None` is `null` or `undefined`. */
  datatype PartialTime = PartialTime(start: Option<string>, end: Option<string>)
  datatype PartialSell = PartialSell(sellFor: Option<SellFor>, canSell: Option<bool>)
  datatype PartialRoles = PartialRoles(give: Option<seq<string>>, remove: Option<seq<string>>,
                                       required: Option<seq<string>>)
  datatype PartialMessages = PartialMessages(use: Option<string>, buy: Option<string>, sell: Option<string>,
                                             add: Option<string>, take: Option<string>)
  datatype PartialData = PartialData(price: Option<Price>, description: Option<string>, inventory: Option<bool>,
                                     stock: Option<int>, time: Option<PartialTime>, sell: Option<PartialSell>,
                                     roles: Option<PartialRoles>, messages: Option<PartialMessages>,
                                     recipes: Option<seq<Recipe>>, tags: Option<seq<string>>)
  datatype PartialItem = PartialItem(gid: string, name: string, data: Option<PartialData>)

  /** `x?.field` on an undefined `x` is undefined: an absent object reads as one with nothing set. */
  const NO_DATA: PartialData := PartialData(None, None, None, None, None, None, None, None, None, None)
  const NO_TIME: PartialTime := PartialTime(None, None)
  const NO_SELL: PartialSell := PartialSell(None, None)
  const NO_ROLES: PartialRoles := PartialRoles(None, None, None)
  const NO_MESSAGES: PartialMessages := PartialMessages(None, None, None, None, None)

  /** The item `ItemManager.create` stores: every missing field defaulted with `??`, fresh metadata. */
  function NormaliseItem(p: PartialItem): (r: RavenItem)
    ensures r.meta == DEFAULT_META && r.body.gid == p.gid && r.body.name == p.name
  {
    var d := p.data.GetOr(NO_DATA);
    var t := d.time.GetOr(NO_TIME);
    var s := d.sell.GetOr(NO_SELL);
    var ro := d.roles.GetOr(NO_ROLES);
    var m := d.messages.GetOr(NO_MESSAGES);
    Doc(DEFAULT_META, ItemBody(p.gid, p.name, ItemData(
      d.price.GetOr(Flat(0)),
      d.description.GetOr(""),
      d.inventory.GetOr(true),
      d.stock.GetOr(-1),
      TimeWindow(t.start.GetOr(""), t.end.GetOr("")),
      SellSettings(s.sellFor.GetOr(Percent("100")), s.canSell.GetOr(true)),
      RoleEffects(ro.give.GetOr([]), ro.remove.GetOr([]), ro.required.GetOr([])),
      ItemMessages(m.use.GetOr(""), m.buy.GetOr(""), m.sell.GetOr(""), m.add.GetOr(""), m.take.GetOr("")),
      d.recipes.GetOr([]),
      d.tags.GetOr([]))))
  }

  /** An item written out in full, every field present. */
  function ToPartial(b: ItemBody): PartialItem {
    var d := b.data;
    PartialItem(b.gid, b.name, Some(PartialData(
      Some(d.price), Some(d.description), Some(d.inventory), Some(d.stock),
      Some(PartialTime(Some(d.time.start), Some(d.time.end))),
      Some(PartialSell(Some(d.sell.sellFor), Some(d.sell.canSell))),
      Some(PartialRoles(Some(d.roles.give), Some(d.roles.remove), Some(d.roles.required))),
      Some(PartialMessages(Some(d.messages.use), Some(d.messages.buy), Some(d.messages.sell),
                           Some(d.messages.add), Some(d.messages.take))),
      Some(d.recipes), Some(d.tags))))
  }

  /**
   * Every supplied value is kept as it is, `false`, `0` and `""` included,
   * because `??` only replaces `null` and `undefined`; only the metadata is reset.
   */
  lemma NormaliseKeepsSupplied(it: RavenItem)
    ensures NormaliseItem(ToPartial(it.body)) == Doc(DEFAULT_META, it.body)
  {
  }

  /** `x ?? d` as a relation: a supplied value is kept, a missing one becomes the default. */
  ghost predicate Defaulted<X>(given: Option<X>, stored: X, default: X) {
    (given.Some? ==> stored == given.value) && (given.None? ==> stored == default)
  }

  /**
   * Field by field, for any mix of supplied and missing fields: each
   * supplied value is stored as given and each missing one gets its default.
   * A missing `data`, `time`, `sell`, `roles` or `messages` object leaves
   * every field under it missing (`data?.time?.start`).
   */
  lemma NormaliseFieldwise(p: PartialItem)
    ensures var r := NormaliseItem(p).body.data;
            var d := if p.data.Some? then p.data.value else NO_DATA;
            Defaulted(d.price, r.price, Flat(0)) && Defaulted(d.description, r.description, "")
            && Defaulted(d.inventory, r.inventory, true) && Defaulted(d.stock, r.stock, -1)
            && Defaulted(d.recipes, r.recipes, []) && Defaulted(d.tags, r.tags, [])
    ensures var r := NormaliseItem(p).body.data;
            var d := if p.data.Some? then p.data.value else NO_DATA;
            var t := if d.time.Some? then d.time.value else NO_TIME;
            var sl := if d.sell.Some? then d.sell.value else NO_SELL;
            Defaulted(t.start, r.time.start, "") && Defaulted(t.end, r.time.end, "")
            && Defaulted(sl.sellFor, r.sell.sellFor, Percent("100")) && Defaulted(sl.canSell, r.sell.canSell, true)
    ensures var r := NormaliseItem(p).body.data;
            var d := if p.data.Some? then p.data.value else NO_DATA;
            var ro := if d.roles.Some? then d.roles.value else NO_ROLES;
            var m := if d.messages.Some? then d.messages.value else NO_MESSAGES;
            Defaulted(ro.give, r.roles.give, []) && Defaulted(ro.remove, r.roles.remove, [])
            && Defaulted(ro.required, r.roles.required, [])
            && Defaulted(m.use, r.messages.use, "") && Defaulted(m.buy, r.messages.buy, "")
            && Defaulted(m.sell, r.messages.sell, "") && Defaulted(m.add, r.messages.add, "")
            && Defaulted(m.take, r.messages.take, "")
  {
  }

  /** Normalising twice changes nothing more. */
  lemma NormaliseIdempotent(p: PartialItem)
    ensures NormaliseItem(ToPartial(NormaliseItem(p).body)) == NormaliseItem(p)
  {
    NormaliseKeepsSupplied(NormaliseItem(p));
  }

  /** The defaults of an item given without `data`, or with an empty `data` object. */
  lemma NormaliseDefaults(gid: string, name: string, data: Option<PartialData>)
    requires data == None || data == Some(NO_DATA)
    ensures var d := NormaliseItem(PartialItem(gid, name, data)).body.data;
            d.price == Flat(0) && d.description == "" && d.inventory && d.stock == -1
            && d.time == TimeWindow("", "") && d.sell == SellSettings(Percent("100"), true)
            && d.roles == RoleEffects([], [], []) && d.messages == ItemMessages("", "", "", "", "")
            && d.recipes == [] && d.tags == []
  {
  }

  function PriceJson(p: Price): Json {
    match p
    case Flat(a) => JNum(a)
    case Tiered(ts) =>
      JArr(seq(|ts|, i requires 0 <= i < |ts| =>
             JObj([("id", JStr(ts[i].id)), ("price", JNum(ts[i].price)),
                   ("entity", JStr(match ts[i].entity case ROLE => "ROLE" case USER => "USER" case ALL => "ALL"))])))
  }

  function RecipeJson(r: Recipe): Json {
    JObj([("item", JStr(r.item)), ("countItem", JNum(r.countItem)), ("item1", StrOrNull(r.item1)),
          ("countItem1", IntOrNull(r.countItem1)), ("additionalCost", JNum(r.additionalCost)),
          ("result", JNum(r.result))])
  }

  function ItemDataJson(d: ItemData): Json {
    JObj([("price", PriceJson(d.price)),
          ("description", JStr(d.description)),
          ("inventory", JBool(d.inventory)),
          ("stock", JNum(d.stock)),
          ("time", JObj([("start", JStr(d.time.start)), ("end", JStr(d.time.end))])),
          ("sell", JObj([("for", match d.sell.sellFor case Percent(pc) => JStr(pc) case Fixed(a) => JNum(a)),
                         ("canSell", JBool(d.sell.canSell))])),
          ("roles", JObj([("give", Strings(d.roles.give)), ("remove", Strings(d.roles.remove)),
                          ("required", Strings(d.roles.required))])),
          ("messages", JObj([("use", JStr(d.messages.use)), ("buy", JStr(d.messages.buy)),
                             ("sell", JStr(d.messages.sell)), ("add", JStr(d.messages.add)),
                             ("take", JStr(d.messages.take))])),
          ("recipes", JArr(seq(|d.recipes|, i requires 0 <= i < |d.recipes| => RecipeJson(d.recipes[i])))),
          ("tags", Strings(d.tags))])
  }

  /** The own properties of the `create` literal, in the order it writes them: `data`, then `gid` and `name`. */
  function ItemFields(b: ItemBody): (f: Members)
    ensures Keys(f) == ["data", "gid", "name"]
  {
    [("data", ItemDataJson(b.data)), ("gid", JStr(b.gid)), ("name", JStr(b.name))]
  }

  function ItemObject(it: RavenItem): Members {
    [(METADATA, MetaObject(it.meta))] + ItemFields(it.body)
  }

  lemma ItemUpdate(stored: RavenItem, data: RavenItem)
    ensures PatchTarget(ItemObject(data)) == Some(JStr(data.meta.id))
    ensures ApplyAll(ItemObject(stored), Assignments(ItemObject(data)))
         == ItemObject(Doc(stored.meta, data.body))
  {
    MetaTarget(data.meta, ItemFields(data.body));
    PatchFieldsAfterMetadata(MetaObject(stored.meta), MetaObject(data.meta),
                             ItemFields(stored.body), ItemFields(data.body));
  }

  // Tags

  /** `[...new Set(s)]`: each value once, at the place it first occurs. */
  function Dedup(s: seq<string>): (r: seq<string>)
    ensures forall x :: x in r <==> x in s
    ensures forall i, j :: 0 <= i < j < |r| ==> r[i] != r[j]
    decreases |s|
  {
    if s == [] then []
    else
      var d := Dedup(s[..|s| - 1]);
      assert forall x :: x in s <==> x in s[..|s| - 1] || x == s[|s| - 1] by {
        assert s == s[..|s| - 1] + [s[|s| - 1]];
      }
      if s[|s| - 1] in d then d else d + [s[|s| - 1]]
  }

  function FirstIndex(s: seq<string>, x: string): (k: nat)
    requires x in s
    ensures k < |s| && s[k] == x && forall j :: 0 <= j < k ==> s[j] != x
  {
    if s[0] == x then 0 else 1 + FirstIndex(s[1..], x)
  }

  lemma FirstIndexOfPrefix(s: seq<string>, n: nat, x: string)
    requires n <= |s| && x in s[..n]
    ensures FirstIndex(s, x) == FirstIndex(s[..n], x)
  {
    var k, k' := FirstIndex(s, x), FirstIndex(s[..n], x);
    assert s[..n][k'] == s[k'];
  }

  /** A value kept from all but the last element first occurs at the same place in the whole sequence. */
  lemma DedupPrefixIndex(s: seq<string>, d: seq<string>, i: int)
    requires s != [] && d == Dedup(s[..|s| - 1]) && 0 <= i < |d|
    ensures d[i] in s[..|s| - 1] && FirstIndex(s, d[i]) == FirstIndex(s[..|s| - 1], d[i]) < |s| - 1
  {
    assert d[i] in d;
    FirstIndexOfPrefix(s, |s| - 1, d[i]);
  }

  /** The values come in the order of their first occurrence. */
  lemma {:induction false} DedupOrder(s: seq<string>)
    ensures forall i, j :: 0 <= i < j < |Dedup(s)| ==> FirstIndex(s, Dedup(s)[i]) < FirstIndex(s, Dedup(s)[j])
    decreases |s|
  {
    if s != [] {
      var init, last := s[..|s| - 1], s[|s| - 1];
      var d := Dedup(init);
      var r := Dedup(s);
      DedupOrder(init);
      assert r == if last in d then d else d + [last];
      forall i, j | 0 <= i < j < |r| ensures FirstIndex(s, r[i]) < FirstIndex(s, r[j]) {
        DedupPrefixIndex(s, d, i);
        if j < |d| {
          DedupPrefixIndex(s, d, j);
        } else {
          assert r[j] == last && last !in init;
          assert FirstIndex(s, last) == |s| - 1;
        }
      }
    }
  }

  function TagLists(items: seq<RavenItem>): (ts: seq<seq<string>>)
    ensures |ts| == |items| && forall i :: 0 <= i < |items| ==> ts[i] == items[i].body.data.tags
  {
    seq(|items|, i requires 0 <= i < |items| => items[i].body.data.tags)
  }

  lemma {:induction false} InConcat(ps: seq<seq<string>>, x: string)
    ensures x in Concat(ps) <==> exists i :: 0 <= i < |ps| && x in ps[i]
    decreases |ps|
  {
    if ps != [] {
      InConcat(ps[1..], x);
      if x in Concat(ps[1..]) {
        var i :| 0 <= i < |ps[1..]| && x in ps[1..][i];
        assert x in ps[i + 1];
      }
      if exists i :: 0 <= i < |ps| && x in ps[i] {
        var i :| 0 <= i < |ps| && x in ps[i];
        if i > 0 { assert x in ps[1..][i - 1]; }
      }
    }
  }

  /** The tag query: items of the guild with at least one tag. */
  function WithTags(gid: string): ItemBody -> bool {
    (b: ItemBody) => |b.data.tags| > 0 && b.gid == gid
  }

  function WhereItemGid(gid: string): ItemBody -> bool {
    (b: ItemBody) => b.gid == gid
  }

  /** `x` is a tag of an item of guild `gid` that the queries see. */
  predicate GuildHasTag(docs: seq<RavenItem>, gid: string, x: string) {
    exists i :: 0 <= i < |docs| && docs[i].meta.collection.None? && docs[i].body.gid == gid
                && x in docs[i].body.data.tags
  }

  /** The tag lists the query answers with hold exactly the tags of the guild's items. */
  lemma TagsOfGuild(docs: seq<RavenItem>, gid: string, x: string)
    ensures x in Concat(TagLists(Matching(docs, WithTags(gid)))) <==> GuildHasTag(docs, gid, x)
  {
    var resp := Matching(docs, WithTags(gid));
    InConcat(TagLists(resp), x);
    if x in Concat(TagLists(resp)) {
      var k :| 0 <= k < |resp| && x in TagLists(resp)[k];
      assert resp[k] in docs && Selected(resp[k], WithTags(gid));
      var i :| 0 <= i < |docs| && docs[i] == resp[k];
      assert docs[i].meta.collection.None? && docs[i].body.gid == gid && x in docs[i].body.data.tags;
    }
    if GuildHasTag(docs, gid, x) {
      var i :| 0 <= i < |docs| && docs[i].meta.collection.None? && docs[i].body.gid == gid
               && x in docs[i].body.data.tags;
      assert Selected(docs[i], WithTags(gid));
      assert docs[i] in resp;
      var k :| 0 <= k < |resp| && resp[k] == docs[i];
      assert x in TagLists(resp)[k];
    }
  }

  // Pages

  /** The sort key of `order by data.price as long`; a tiered price has no number and sorts first. */
  function PriceKey(it: RavenItem): Option<int> {
    match it.body.data.price
    case Flat(a) => Some(a)
    case Tiered(_) => None
  }

  predicate KeyLe(a: Option<int>, b: Option<int>) {
    a.None? || (b.Some? && a.value <= b.value)
  }

  predicate SortedByPrice(s: seq<RavenItem>) {
    forall i, j :: 0 <= i < j < |s| ==> KeyLe(PriceKey(s[i]), PriceKey(s[j]))
  }

  function InsertByPrice(x: RavenItem, s: seq<RavenItem>): (r: seq<RavenItem>)
    ensures multiset(r) == multiset(s) + multiset{x}
    decreases |s|
  {
    if s == [] || KeyLe(PriceKey(x), PriceKey(s[0])) then [x] + s
    else
      assert s == [s[0]] + s[1..];
      [s[0]] + InsertByPrice(x, s[1..])
  }

  /** Every element after the insertion is the inserted item or was already there. */
  lemma InsertedFrom(x: RavenItem, s: seq<RavenItem>, j: int)
    requires 0 <= j < |InsertByPrice(x, s)|
    ensures InsertByPrice(x, s)[j] == x || InsertByPrice(x, s)[j] in s
  {
    var r := InsertByPrice(x, s);
    assert r[j] in multiset(r);
    if r[j] != x {
      assert r[j] in multiset(s);
    }
  }

  lemma {:induction false} InsertSorted(x: RavenItem, s: seq<RavenItem>)
    requires SortedByPrice(s)
    ensures SortedByPrice(InsertByPrice(x, s))
    decreases |s|
  {
    if s == [] || KeyLe(PriceKey(x), PriceKey(s[0])) {
      var r := [x] + s;
      forall i, j | 0 <= i < j < |r| ensures KeyLe(PriceKey(r[i]), PriceKey(r[j])) {
        if i == 0 && j > 1 {
          assert KeyLe(PriceKey(s[0]), PriceKey(s[j - 1]));
        }
      }
    } else {
      var rest := InsertByPrice(x, s[1..]);
      InsertSorted(x, s[1..]);
      var r := [s[0]] + rest;
      assert s == [s[0]] + s[1..];
      forall j | 0 <= j < |rest| ensures KeyLe(PriceKey(s[0]), PriceKey(rest[j])) {
        InsertedFrom(x, s[1..], j);
        if rest[j] != x {
          var k :| 0 <= k < |s[1..]| && s[1..][k] == rest[j];
          assert s[k + 1] == rest[j];
        }
      }
      forall i, j | 0 <= i < j < |r| ensures KeyLe(PriceKey(r[i]), PriceKey(r[j])) {
        if i == 0 {
          assert r[j] == rest[j - 1];
        } else {
          assert r[i] == rest[i - 1] && r[j] == rest[j - 1];
        }
      }
    }
  }

  /** The items in `order by data.price` order. */
  function SortByPrice(s: seq<RavenItem>): (r: seq<RavenItem>)
    ensures SortedByPrice(r) && multiset(r) == multiset(s)
    decreases |s|
  {
    if s == [] then []
    else
      assert s == [s[0]] + s[1..];
      InsertSorted(s[0], SortByPrice(s[1..]));
      InsertByPrice(s[0], SortByPrice(s[1..]))
  }

  const PAGE_SIZE: nat := 5

  /** `getPage`'s answer: the number of the guild's items and the items asked for. */
  datatype Page = Page(allItems: nat, data: seq<RavenItem>)

  class ItemManager {
    const base: BaseManager<ItemBody>

    constructor (existing: seq<RavenItem>)
      requires DistinctIds(existing)
      ensures fresh(base) && base.dbName == "items" && base.docs == existing && base.Valid()
    {
      base := new BaseManager("items", existing);
    }

    /** `create(data)`: the normalised item is stored once. */
    method Create(data: PartialItem)
      requires base.Valid()
      modifies base
      ensures base.Valid()
      ensures base.docs == old(base.docs) + [Stored(NormaliseItem(data), old(base.docs))]
    {
      base.Create(NormaliseItem(data));
    }

    /**
     * `getTags(gid)`: every tag of the guild's items, each once, in the order
     * they first occur in the items' tag lists.
     */
    method GetTags(gid: string) returns (tags: seq<string>)
      ensures forall x :: x in tags <==> GuildHasTag(base.docs, gid, x)
      ensures forall i, j :: 0 <= i < j < |tags| ==> tags[i] != tags[j]
      ensures var all := Concat(TagLists(Matching(base.docs, WithTags(gid))));
              (forall i :: 0 <= i < |tags| ==> tags[i] in all)
              && forall i, j :: 0 <= i < j < |tags| ==> FirstIndex(all, tags[i]) < FirstIndex(all, tags[j])
    {
      var resp := base.GetAll(WithTags(gid));
      var all := Concat(TagLists(resp));
      tags := Dedup(all);
      DedupOrder(all);
      forall x ensures x in tags <==> GuildHasTag(base.docs, gid, x) {
        TagsOfGuild(base.docs, gid, x);
      }
    }

    /**
     * `getPage(gid, page)`: the guild's items ordered by price, all of them
     * for page -1, otherwise the five of `limit page * 5, 5`. A negative
     * offset is refused by the database.
     */
    method GetPage(gid: string, page: int := -1) returns (r: Result<Page, string>)
      ensures r.Success? <==> page >= -1
      ensures var items := Matching(base.docs, WhereItemGid(gid));
              r.Success? ==>
                r.value.allItems == |items|
                && (page == -1 ==> multiset(r.value.data) == multiset(items) && SortedByPrice(r.value.data))
                && (page >= 0 ==>
                      r.value.data == (if page < |Chunk(SortByPrice(items), PAGE_SIZE)|
                                       then Chunk(SortByPrice(items), PAGE_SIZE)[page] else []))
    {
      if page < -1 {
        return Failure("negative offset");
      }
      var items := base.GetAll(WhereItemGid(gid));
      var ordered := SortByPrice(items);
      if page == -1 {
        return Success(Page(|items|, ordered));
      }
      var from := Min(page * PAGE_SIZE, |ordered|);
      var to := Min(page * PAGE_SIZE + PAGE_SIZE, |ordered|);
      ChunkAt(ordered, PAGE_SIZE, page);
      r := Success(Page(|items|, ordered[from..to]));
    }
  }

  // ---------------------------------------------------------------------------
  // The managers' lazily created single instances

  class Managers {
    const guildDocs: seq<RavenGuild>
    const moneyDocs: seq<RavenMoney>
    const itemDocs: seq<RavenItem>
    var guild: GuildManager?
    var money: MoneyManager?
    var item: ItemManager?

    /** No instance exists before the first `getInstance()`; the databases hold what they hold. */
    constructor (guildDocs: seq<RavenGuild>, moneyDocs: seq<RavenMoney>, itemDocs: seq<RavenItem>)
      requires DistinctIds(guildDocs) && DistinctIds(moneyDocs) && DistinctIds(itemDocs)
      ensures this.guildDocs == guildDocs && this.moneyDocs == moneyDocs && this.itemDocs == itemDocs
      ensures guild == null && money == null && item == null
    {
      this.guildDocs := guildDocs;
      this.moneyDocs := moneyDocs;
      this.itemDocs := itemDocs;
      guild, money, item := null, null, null;
    }

    /** The seed databases have distinct ids, and so does the database of every instance made so far. */
    predicate Valid()
      reads this, guild, money, item
      reads if guild != null then {guild.base} else {}
      reads if money != null then {money.base} else {}
      reads if item != null then {item.base} else {}
    {
      DistinctIds(guildDocs) && DistinctIds(moneyDocs) && DistinctIds(itemDocs)
      && (guild != null ==> guild.base.Valid())
      && (money != null ==> money.base.Valid())
      && (item != null ==> item.base.Valid())
    }

    /** `GuildManager.getInstance()`: the first call creates the instance, later calls answer with it. */
    method GuildInstance() returns (m: GuildManager)
      requires Valid()
      modifies this
      ensures old(guild) != null ==> m == old(guild)
      ensures old(guild) == null ==> fresh(m) && fresh(m.base) && m.base.docs == guildDocs && m.base.Valid()
      ensures Valid() && m.base.Valid()
      ensures guild == m && money == old(money) && item == old(item)
    {
      if guild == null {
        guild := new GuildManager(guildDocs);
      }
      m := guild;
    }

    method MoneyInstance() returns (m: MoneyManager)
      requires Valid()
      modifies this
      ensures old(money) != null ==> m == old(money)
      ensures old(money) == null ==> fresh(m) && fresh(m.base) && m.base.docs == moneyDocs && m.base.Valid()
      ensures Valid() && m.base.Valid()
      ensures money == m && guild == old(guild) && item == old(item)
    {
      if money == null {
        money := new MoneyManager(moneyDocs);
      }
      m := money;
    }

    method ItemInstance() returns (m: ItemManager)
      requires Valid()
      modifies this
      ensures old(item) != null ==> m == old(item)
      ensures old(item) == null ==> fresh(m) && fresh(m.base) && m.base.docs == itemDocs && m.base.Valid()
      ensures Valid() && m.base.Valid()
      ensures item == m && guild == old(guild) && money == old(money)
    {
      if item == null {
        item := new ItemManager(itemDocs);
      }
      m := item;
    }
  }
}
