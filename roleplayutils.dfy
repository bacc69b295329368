/**
 * The older helpers of roleplayUtils.ts, written against a NocoDB REST
 * server: guilds with a numeric row id and money rows listed under
 * `/guild/{id}/money`. The server is held in memory by `NocoDb`.
 */
module RoleplayUtils {
  import opened Wrappers
  import opened JsText
  import opened Json

  /** A guild row without its id. The item, hero, monster and money lists are kept as raw JSON. */
  datatype GuildPayload = GuildPayload(guild: string, startingMoney: int, xpPerLevel: int, firstLevelXP: int,
                                       addons: string, maxHeroes: int, itemsList: seq<Json>,
                                       heroList: seq<Json>, monstersList: seq<Json>, moneyList: seq<Json>,
                                       currency: Option<string>)
  datatype NocoGuild = NocoGuild(id: int, payload: GuildPayload)

  /** `defaultGuildData(id)`: a guild the server has not stored, id -1. */
  function DefaultGuildData(id: string): (g: NocoGuild)
    ensures g.id == -1 && g.payload.guild == id && g.payload.addons == ""
    ensures g.payload.startingMoney == 0 && g.payload.firstLevelXP == 0 && g.payload.xpPerLevel == 0
    ensures g.payload.maxHeroes == 1 && g.payload.currency.None?
    ensures g.payload.itemsList == [] && g.payload.heroList == [] && g.payload.monstersList == []
            && g.payload.moneyList == []
  {
    NocoGuild(-1, GuildPayload(id, 0, 0, 0, "", 1, [], [], [], [], None))
  }

  datatype Money = Money(id: int, guildID: int, userId: string, isHeroAcc: bool, value: int, heroID: Option<int>)

  /** `defaultMoneyData(userID)`. */
  function DefaultMoneyData(userId: string): (m: Money)
    ensures m.id == -1 && m.guildID == -1 && m.userId == userId
    ensures !m.isHeroAcc && m.value == 0 && m.heroID.None?
  {
    Money(-1, -1, userId, false, 0, None)
  }

  /** A money record as a JavaScript object, properties in the order the literal writes them. */
  function MoneyObject(m: Money): Members {
    [("id", JNum(m.id)), ("guildID", JNum(m.guildID)), ("user_id", JStr(m.userId)),
     ("isHeroAcc", JBool(m.isHeroAcc)), ("value", JNum(m.value)),
     ("heroID", if m.heroID.Some? then JNum(m.heroID.value) else JNull)]
  }

  /**
   * The body `getMoneyOrCreate` posts when the caller gives none: the
   * default record without `id`, `guildID` and `heroID`, with the guild's
   * starting money and a null hero link.
   */
  method DefaultMoneyPayload(userId: string, startingMoney: int) returns (tempData: Members)
    ensures tempData == [("user_id", JStr(userId)), ("isHeroAcc", JBool(false)),
                         ("value", JNum(startingMoney)), ("nc_34j6__hero_id", JNull)]
  {
    var user, hero, value := ("user_id", JStr(userId)), ("isHeroAcc", JBool(false)), ("value", JNum(0));
    var id, guild, heroId := ("id", JNum(-1)), ("guildID", JNum(-1)), ("heroID", JNull);
    tempData := MoneyObject(DefaultMoneyData(userId));
    assert tempData == [] + [id] + [guild, user, hero, value, heroId];
    RemoveAt([], id, [guild, user, hero, value, heroId]);
    tempData := Remove(tempData, "id");
    assert tempData == [] + [guild] + [user, hero, value, heroId];
    RemoveAt([], guild, [user, hero, value, heroId]);
    tempData := Remove(tempData, "guildID");
    assert tempData == [user, hero, value] + [heroId] + [];
    RemoveAt([user, hero, value], heroId, []);
    tempData := Remove(tempData, "heroID");
    assert tempData == [user, hero] + [value] + [];
    AssignAt([user, hero], value, [], JNum(startingMoney));
    tempData := Assign(tempData, "value", JNum(startingMoney));
    assert tempData == [user, hero, ("value", JNum(startingMoney))];
    AssignNew(tempData, "nc_34j6__hero_id", JNull);
    tempData := Assign(tempData, "nc_34j6__hero_id", JNull);
  }

  // ---------------------------------------------------------------------------
  // fetchData

  /** What the server answers: status, `content-length` header (if any), text and JSON body. */
  datatype Response = Response(status: int, contentLength: Option<string>, text: string, body: Json)

  datatype Fetched = Thrown(message: string) | NullBody | Body(value: Json)

  /**
   * An error status throws the response text; a `content-length` that reads
   * as the number 0 (no header, `"0"`, and also `""`, since `+"" === 0`)
   * gives `null`; anything else the body.
   */
  function FetchData(r: Response): (f: Fetched)
    ensures r.status >= 400 <==> f.Thrown?
    ensures f.Thrown? ==> f.message == r.text
    ensures r.status < 400 ==> (f.NullBody? <==> ToNumber(r.contentLength.GetOr("0")) == Some(0))
    ensures f.Body? ==> f.value == r.body
  {
    if r.status >= 400 then Thrown(r.text)
    else if ToNumber(r.contentLength.GetOr("0")) == Some(0) then NullBody
    else Body(r.body)
  }

  // ---------------------------------------------------------------------------
  // The server

  /** `findOne?where=(guild,like,id)`: the first guild row for the Discord guild id. */
  function FindGuild(guilds: seq<NocoGuild>, id: string): (r: Option<NocoGuild>)
    ensures r.None? <==> forall i :: 0 <= i < |guilds| ==> guilds[i].payload.guild != id
    ensures r.Some? ==> r.value.payload.guild == id && r.value in guilds
    decreases |guilds|
  {
    if guilds == [] then None
    else if guilds[0].payload.guild == id then Some(guilds[0])
    else FindGuild(guilds[1..], id)
  }

  /** A money row and the guild row id it is listed under. */
  datatype MoneyRow = MoneyRow(guildKey: string, row: Members)

  /** The filter of the money query: the row is in the guild's table and its `user_id` is `userId`. */
  predicate RowMatches(row: MoneyRow, guildKey: string, userId: string) {
    row.guildKey == guildKey && Lookup(row.row, "user_id") == Some(JStr(userId))
  }

  /** `GET /guild/{key}/money?where=(user_id,like,uid)`. */
  function MoneyRows(rows: seq<MoneyRow>, guildKey: string, userId: string): (r: seq<Members>)
    ensures forall i :: 0 <= i < |r| ==> Lookup(r[i], "user_id") == Some(JStr(userId))
    ensures |r| <= |rows|
    decreases |rows|
  {
    if rows == [] then []
    else
      (if RowMatches(rows[0], guildKey, userId) then [rows[0].row] else []) + MoneyRows(rows[1..], guildKey, userId)
  }

  /** The listing holds every row under the guild key with the user's `user_id`, and only such rows. */
  lemma {:induction false} MoneyRowsExact(rows: seq<MoneyRow>, guildKey: string, userId: string)
    ensures forall i :: 0 <= i < |rows| && RowMatches(rows[i], guildKey, userId)
              ==> rows[i].row in MoneyRows(rows, guildKey, userId)
    ensures forall x :: x in MoneyRows(rows, guildKey, userId)
              ==> exists i :: 0 <= i < |rows| && RowMatches(rows[i], guildKey, userId) && rows[i].row == x
    decreases |rows|
  {
    if rows != [] {
      var r := MoneyRows(rows, guildKey, userId);
      var t := MoneyRows(rows[1..], guildKey, userId);
      var h := if RowMatches(rows[0], guildKey, userId) then [rows[0].row] else [];
      MoneyRowsExact(rows[1..], guildKey, userId);
      assert r == h + t;
      forall i | 0 <= i < |rows| && RowMatches(rows[i], guildKey, userId) ensures rows[i].row in r {
        if i > 0 {
          assert rows[1..][i - 1] == rows[i];
        }
      }
      forall x | x in r
        ensures exists i :: 0 <= i < |rows| && RowMatches(rows[i], guildKey, userId) && rows[i].row == x
      {
        if x !in h {
          var k :| 0 <= k < |rows[1..]| && RowMatches(rows[1..][k], guildKey, userId) && rows[1..][k].row == x;
          assert rows[k + 1] == rows[1..][k];
        }
      }
    }
  }

  lemma {:induction false} MoneyRowsAppend(rows: seq<MoneyRow>, r: MoneyRow, guildKey: string, userId: string)
    ensures MoneyRows(rows + [r], guildKey, userId)
         == MoneyRows(rows, guildKey, userId) + MoneyRows([r], guildKey, userId)
    decreases |rows|
  {
    if rows != [] {
      var s := rows + [r];
      assert s[0] == rows[0] && s[1..] == rows[1..] + [r];
      var h := if RowMatches(rows[0], guildKey, userId) then [rows[0].row] else [];
      assert MoneyRows(s, guildKey, userId) == h + MoneyRows(s[1..], guildKey, userId);
      assert MoneyRows(rows, guildKey, userId) == h + MoneyRows(rows[1..], guildKey, userId);
      MoneyRowsAppend(rows[1..], r, guildKey, userId);
    }
  }

  /** `data ?? [defaultMoneyData(userID)]`: a `null` answer stands for one default record. */
  function MoneyOrDefault(fetched: Option<seq<Members>>, userId: string): (r: seq<Members>)
    ensures fetched.Some? ==> r == fetched.value
    ensures fetched.None? ==> r == [MoneyObject(DefaultMoneyData(userId))]
  {
    fetched.GetOr([MoneyObject(DefaultMoneyData(userId))])
  }

  /** The NocoDB server: guild rows, money rows, and the next row id it hands out. */
  class NocoDb {
    var guilds: seq<NocoGuild>
    var money: seq<MoneyRow>
    var nextId: int

    constructor (guilds: seq<NocoGuild>, money: seq<MoneyRow>, nextId: int)
      ensures this.guilds == guilds && this.money == money && this.nextId == nextId
    {
      this.guilds := guilds;
      this.money := money;
      this.nextId := nextId;
    }

    /** `getGuild(id)`; `None` is the `null` of an empty answer. */
    method GetGuild(id: string) returns (r: Option<NocoGuild>)
      ensures r == FindGuild(guilds, id)
    {
      r := FindGuild(guilds, id);
    }

    /** `createGuild(data)`: the server stores the row under a new id and answers with it. */
    method CreateGuild(data: GuildPayload) returns (g: NocoGuild)
      modifies this
      ensures g == NocoGuild(old(nextId), data)
      ensures guilds == old(guilds) + [g] && money == old(money) && nextId == old(nextId) + 1
    {
      g := NocoGuild(nextId, data);
      guilds := guilds + [g];
      nextId := nextId + 1;
    }

    /**
     * `getOrCreateGuild(id, data)`: an existing guild is answered without a
     * write; otherwise the caller's data, or the default without its id, is
     * created once.
     */
    method GetOrCreateGuild(id: string, data: Option<GuildPayload> := None) returns (g: NocoGuild)
      modifies this
      ensures FindGuild(old(guilds), id).Some? ==>
                g == FindGuild(old(guilds), id).value
                && guilds == old(guilds) && money == old(money) && nextId == old(nextId)
      ensures FindGuild(old(guilds), id).None? ==>
                g == NocoGuild(old(nextId), data.GetOr(DefaultGuildData(id).payload))
                && guilds == old(guilds) + [g] && money == old(money) && nextId == old(nextId) + 1
      ensures data.None? ==> FindGuild(guilds, id) == Some(g)
    {
      var actualData := GetGuild(id);
      if actualData.None? {
        g := CreateGuild(data.GetOr(DefaultGuildData(id).payload));
        if data.None? {
          FindAppended(old(guilds), g, id);
        }
      } else {
        g := actualData.value;
      }
    }

    /** `createMoney(guildID, data)`: the row is listed under the guild and answered with its new id. */
    method CreateMoney(guildKey: string, data: Members) returns (row: Members)
      modifies this
      ensures row == Assign(data, "id", JNum(old(nextId)))
      ensures money == old(money) + [MoneyRow(guildKey, row)] && guilds == old(guilds)
      ensures nextId == old(nextId) + 1
    {
      row := Assign(data, "id", JNum(nextId));
      money := money + [MoneyRow(guildKey, row)];
      nextId := nextId + 1;
    }

    /** `getMoney(userID, guildID)`: the guild is fetched or created, then its rows for the user are listed. */
    method GetMoney(userId: string, guildId: string) returns (rows: seq<Members>, g: NocoGuild)
      modifies this
      ensures FindGuild(guilds, guildId) == Some(g)
      ensures FindGuild(old(guilds), guildId).Some? ==> guilds == old(guilds) && nextId == old(nextId)
      ensures FindGuild(old(guilds), guildId).None? ==>
                g == NocoGuild(old(nextId), DefaultGuildData(guildId).payload)
                && guilds == old(guilds) + [g] && nextId == old(nextId) + 1
      ensures money == old(money)
      ensures rows == MoneyRows(money, IntToString(g.id), userId)
    {
      g := GetOrCreateGuild(guildId);
      rows := MoneyRows(money, IntToString(g.id), userId);
    }

    /** `getMoneyOrDefault(userID, guildID)`: the server always answers a list query with a list. */
    method GetMoneyOrDefault(userId: string, guildId: string) returns (r: seq<Members>)
      modifies this
      ensures FindGuild(guilds, guildId).Some? && money == old(money)
      ensures r == MoneyRows(money, IntToString(FindGuild(guilds, guildId).value.id), userId)
      ensures FindGuild(old(guilds), guildId).Some? ==> guilds == old(guilds)
      ensures FindGuild(old(guilds), guildId).None? ==>
                guilds == old(guilds) + [NocoGuild(old(nextId), DefaultGuildData(guildId).payload)]
      ensures nextId == old(nextId) + (if FindGuild(old(guilds), guildId).None? then 1 else 0)
    {
      var data, _ := GetMoney(userId, guildId);
      r := MoneyOrDefault(Some(data), userId);
    }

    /**
     * `getMoneyOrCreate(userID, guildID, data)`: the user's rows when there
     * are any; otherwise one new row, from the caller's data or the default
     * payload with the guild's starting money, listed under the guild.
     */
    method GetMoneyOrCreate(userId: string, guildId: string, data: Option<Members> := None)
      returns (r: seq<Members>)
      modifies this
      ensures FindGuild(guilds, guildId).Some?
      ensures var g := FindGuild(guilds, guildId).value;
              var existing := MoneyRows(old(money), IntToString(g.id), userId);
              (existing != [] ==> r == existing && money == old(money))
              && (existing == [] ==>
                    var payload := data.GetOr([("user_id", JStr(userId)), ("isHeroAcc", JBool(false)),
                                               ("value", JNum(g.payload.startingMoney)),
                                               ("nc_34j6__hero_id", JNull)]);
                    |r| == 1 && r[0] == Assign(payload, "id", JNum(nextId - 1))
                    && money == old(money) + [MoneyRow(IntToString(g.id), r[0])])
      ensures data.None? && r != MoneyRows(old(money), IntToString(FindGuild(guilds, guildId).value.id), userId) ==>
                MoneyRows(money, IntToString(FindGuild(guilds, guildId).value.id), userId) == r
      ensures FindGuild(old(guilds), guildId).Some? ==> guilds == old(guilds)
      ensures FindGuild(old(guilds), guildId).None? ==>
                guilds == old(guilds) + [NocoGuild(old(nextId), DefaultGuildData(guildId).payload)]
      ensures var created := if FindGuild(old(guilds), guildId).None? then 1 else 0;
              nextId == old(nextId) + created + (if money == old(money) then 0 else 1)
    {
      var actualData, g0 := GetMoney(userId, guildId);
      if |actualData| != 0 {
        return actualData;
      }
      var guildData := GetGuild(guildId);
      var g := guildData.value;
      var payload: Members;
      if data.Some? {
        payload := data.value;
      } else {
        payload := DefaultMoneyPayload(userId, g.payload.startingMoney);
      }
      var key := IntToString(g.id);
      var created := CreateMoney(key, payload);
      r := [created];
      if data.None? {
        CreatedIsListed(old(money), key, userId, payload, nextId - 1);
      }
    }
  }

  /** A row created with the user's `user_id` is listed last by the money query for its guild. */
  lemma CreatedIsListed(rows: seq<MoneyRow>, key: string, userId: string, payload: Members, id: int)
    requires Lookup(payload, "user_id") == Some(JStr(userId))
    ensures var created := Assign(payload, "id", JNum(id));
            MoneyRows(rows + [MoneyRow(key, created)], key, userId) == MoneyRows(rows, key, userId) + [created]
  {
    var created := Assign(payload, "id", JNum(id));
    LookupAssign(payload, "id", JNum(id), "user_id");
    MoneyRowsAppend(rows, MoneyRow(key, created), key, userId);
    assert RowMatches(MoneyRow(key, created), key, userId);
    assert MoneyRows([MoneyRow(key, created)], key, userId) == [created];
  }

  /** Appending a row for an id that had none makes it the one `findOne` answers with. */
  lemma {:induction false} FindAppended(guilds: seq<NocoGuild>, g: NocoGuild, id: string)
    requires FindGuild(guilds, id).None? && g.payload.guild == id
    ensures FindGuild(guilds + [g], id) == Some(g)
    decreases |guilds|
  {
    if guilds != [] {
      assert (guilds + [g])[1..] == guilds[1..] + [g];
      FindAppended(guilds[1..], g, id);
    }
  }
}
