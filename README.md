# keiko-harem: a Dafny model of the bot's core

keiko-harem is a Discord bot written in TypeScript for Deno. This project
models in Dafny the parts of it that carry rules, and proves properties of
them. There are three parts.

- **Autorole menus.** An autorole menu is a message of the bot whose buttons,
  one per role, carry the custom id `"a/" + roleId`. The subcommands
  `autorole dodaj` (add) and `autorole usun` (remove) edit a menu in four
  steps:
  - flatten its action rows into one list of buttons;
  - refuse a duplicate or add at the end, or refuse a missing button or
    splice out the first match;
  - refuse more than 25 buttons;
  - lay the list out again in rows of five with `chunk`.

  Pressing a menu button toggles that role for the member. Only the guild
  owner or an administrator (`hasPerms`) may edit a menu, and only a menu
  the bot itself wrote.
- **Repositories** (dataManager.ts):
  - `GuildManager`, `MoneyManager` and `ItemManager` sit on a document
    database, each with its own `BaseManager` (`guild`, `money`, `items`).
  - They provide default records, get-or-create and the currency symbol.
  - A new account is seeded with its guild's starting money.
  - `ItemManager.create` fills missing item fields with `??`.
  - Tags are collected without duplicates, and pages are ordered by price.
  - An update is a patch script `this.k = JSON(v);…` that assigns every
    field except `@metadata`.
  - Each manager is created lazily as a singleton.
- **The older NocoDB helpers** (roleplayUtils.ts):
  - default guild and money rows;
  - `getOrCreateGuild`, `getMoney`, `getMoneyOrDefault` and
    `getMoneyOrCreate` over a NocoDB server;
  - the status and `content-length` branching of `fetchData`.
- **Small pure helpers:**
  - `chunk`;
  - the attack footer `lvl|modif|dmg|krytyczne|wartosc-kryt`, which the
    attack command writes and its replay button reads back with
    `split("|").map(~~)`.

Modules and files:

| file | module | holds |
|---|---|---|
| wrappers.dfy | Wrappers | `Option` (`undefined`/`null`, `??`) and `Result` |
| jstext.dfy | JsText | JavaScript `split`, `join`, `startsWith`, `${int}`, unary plus, `~~` |
| json.dfy | Json | JSON values, `JSON.stringify` of strings, object property assignment and `delete`, the patch script |
| utils.dfy | Utils | `chunk` |
| mod.dfy | Bot | `hasPerms`, `a/` custom ids, the role toggle, the attack footer |
| menu.dfy | Autorole | buttons, rows, and the add/remove list edits both handlers share |
| dodaj.dfy | AutoroleAdd | `autorole dodaj` |
| usun.dfy | AutoroleRemove | `autorole usun` |
| store.dfy | Raven | an in-memory document database and `BaseManager` |
| datamanager.dfy | DataManager | the guild, money and item managers and their singletons |
| roleplayutils.dfy | RoleplayUtils | the NocoDB helpers and an in-memory NocoDB server |

Where the code changes state, the model does too:
- `BaseManager`, the managers, `NocoDb`, a menu message and a member's roles
  are classes.
- Their methods state the new state in terms of specification functions.
- Properties of those functions are proved as lemmas.

The database and the Discord gateway become state held in memory:
- A query (`from "@empty" where …`) sees only the documents without a collection, and of those answers the ones whose body satisfies a predicate, in store order.
- `create` gives the document a fresh id.
- A message fetch is a possibly-null `MenuMessage`.
- Whether the gateway accepts a role change is a parameter.

### Where the model follows the code rather than its description

- `hasPerms` (mod.ts:575-585) consults no role id, the guild's configured
  `modrole` included. Only the owner id and the ADMINISTRATOR bit of the
  member's permissions decide, although the repository's description lists
  the moderator role. `Bot.ModroleGrantsNothing` states this.
- `getTags` (dataManager.ts:214-225) filters items whose tag *list* is
  non-empty. It does not drop empty tag strings, so `""` is answered when an
  item carries it.
- A guild's `modrole` is a plain string whose default is `""`
  (dataManager.ts:93). It is not an optional field.
- commands/autorole/dodaj.ts and usun.ts import `hasPerms` and `createButton`
  from utils.ts, which exports neither. The model uses the `hasPerms` of
  mod.ts:575-585.
- dataManager.ts:1 imports `fetchData` from roleplayUtils.ts, which does not
  export it (roleplayUtils.ts:206) and talks to a different server. The
  document database is therefore modelled on its own.

## Model

| member | source | states |
|---|---|---|
| Utils.Chunk | utils.ts:36-41 | no pieces exactly for the empty array, and no piece is empty |
| Utils.ChunkConcat | utils.ts:36-41 | for `n >= 1`, concatenating the pieces of `chunk(a, n)` gives back exactly `a` |
| Utils.ChunkSizes | utils.ts:40 | every piece has between 1 and `n` elements; every piece but the last has exactly `n` |
| Utils.ChunkCount | utils.ts:37-40 | the empty array has no pieces; otherwise the number of pieces is the least `c` with the length at most `c * n`, that is, the length divided by `n` rounded up |
| Utils.ChunkAt | utils.ts:40 | piece `k` is the slice from `k * n` to `k * n + n`, clamped to the length; when there is no piece `k`, `k * n` is at least the length |
| JsText.IntToStringRoundTrip | mod.ts:145-149 | unary plus on the text `${i}` gives back the integer `i` |
| JsText.NatToStringInjective | mod.ts:145-149 | two different naturals never render as the same decimal text |
| JsText.ToInt32 | mod.ts:145 | `~~x` lies in [-2^31, 2^31), is congruent to `x` modulo 2^32, and is `x` itself inside that range |
| JsText.Split | mod.ts:477-479 | at least one piece, and no piece contains the separator |
| JsText.Join | mod.ts:144-150 | no pieces give the empty text; otherwise the length is the total length of the pieces plus one separator between each two neighbours |
| JsText.SplitJoin | mod.ts:477-479 | for pieces free of the separator, splitting their join gives back the pieces |
| JsText.SplitAtFirstSeparator | mod.ts:541 | splitting `p + "/" + q`, with `p` free of `/`, gives `p` followed by the pieces of `q` |
| JsText.SplitWithoutSeparator | mod.ts:541 | a text without the separator splits into itself alone |
| Bot.HasPerms | mod.ts:575-585 | true exactly when the member is the guild owner or holds ADMINISTRATOR |
| Bot.ModroleGrantsNothing | mod.ts:575-585 | a member who holds the configured modrole but is neither the owner nor an administrator is refused: no role id is consulted |
| Bot.RoleButtonId | mod.ts:311 | the custom id starts with `a/`, and the rest is the role id |
| Bot.RoleOfButton | mod.ts:540-541 | a role is read from an id exactly when it starts with `a/` |
| Bot.RoleButtonDecode | mod.ts:311 | decoding the id of role `r` gives `r` up to its first `/` |
| Bot.RoleButtonRoundTrip | mod.ts:311 | a role id without `/` survives encoding and decoding |
| Bot.Toggled | mod.ts:550-558 | the pressed role is held afterwards exactly when it was not held before; no other role changes |
| Bot.ToggleTwice | mod.ts:550-558 | toggling the same role twice restores the original role set |
| Bot.OnRoleButton | mod.ts:540-572 | non-`a/` ids are not handled; outside a guild the reply is "use in a server"; a refused role change leaves the roles unchanged; otherwise the roles are toggled and the reply says whether the role was removed or added |
| Bot.SlashAttackArgs | mod.ts:132-140 | the level passed on is the raw option minus one; the modifier, damage, crit and crit value are the `~~` int32 truncations of their options |
| Bot.AttackFooter | mod.ts:144-150 | split at its separator, the footer gives exactly the five texts `${~~x}` of level, modifier, damage, crit and crit value, in that order |
| Bot.ParseFooter | mod.ts:477-479 | one value per piece between the separators, each in int32 range |
| Bot.FooterRoundTrip | mod.ts:144-150 | parsing the written footer gives back the five `~~`-truncated values in the order written |
| Bot.ReplayAttackArgs | mod.ts:481-489 | the replay has all five arguments exactly when the footer has at least five pieces |
| Bot.ReplayMatchesSlash | mod.ts:133-140 | for a level in int32 range, the replay rolls with the same level, modifier, damage, crit and crit value as the slash command |
| Bot.ReplayDiffersBeyondInt32 | mod.ts:134 | as written, level 2^31 is rolled with 2^31 - 1 and replayed with -2^31 - 1 |
| Bot.IntendedSlashAttackArgs | mod.ts:133-140 | the corrected handler truncates the level as the footer does, and agrees with the original inside int32 |
| Bot.IntendedReplayMatches | mod.ts:481-489 | with the corrected handler, every replay repeats the original roll's arguments, whatever the level |
| Autorole.Precheck | commands/autorole/dodaj.ts:31-72 | the edit goes ahead exactly when there is a member and a guild, the member passes `hasPerms`, the channel is a text channel, the message was found, and the bot wrote it; without a member or a guild the interaction is ignored; then, in that order, a caller without permission gets "no permission", a channel that is not a text channel "wrong channel", a message that was not found "bad menu id", and a menu by another author "not my menu" |
| Autorole.AddButton | commands/autorole/dodaj.ts:83-100 | refused exactly when the id is already present (duplicate) or the menu is full at 25 (too many); otherwise the old buttons are kept in order, the new one is last, and ids stay unique |
| Autorole.FindIndex | commands/autorole/usun.ts:84-86 | -1 exactly when no button has the id; otherwise the index of the first button that has it |
| Autorole.RemoveButton | commands/autorole/usun.ts:84-94 | refused exactly when no button has the id; otherwise the first match is spliced out, the rest keeps its order, the length drops by one, and unique ids stay unique with the removed id gone |
| Autorole.SpliceKeepsUnique | commands/autorole/usun.ts:88-94 | in a menu with unique ids, splicing out a button leaves unique ids and no button with the removed id |
| Autorole.EditsPreserveValid | mod.ts:318-335 | both edits keep a menu within 25 buttons with unique ids |
| Autorole.FlatIsConcat | commands/autorole/dodaj.ts:79-81 | flattening the rows is the concatenation of their button lists |
| Autorole.RowsOfChunks | commands/autorole/dodaj.ts:102-110 | rows built from `chunk(flat, 5)` flatten back to `flat`, each holds 1 to 5 buttons, and at most 25 buttons give at most 5 rows |
| Autorole.BuildRows | commands/autorole/dodaj.ts:103-110 | the loop makes one row per piece, holding that piece |
| Autorole.MenuMessage.SetRows | commands/autorole/dodaj.ts:117-121 | the edit replaces the rows and nothing else |
| AutoroleAdd.Execute | commands/autorole/dodaj.ts:30-130 | a failed check answers its reason and leaves the menu untouched; a refused add answers "already exists" or "too many" untouched; when the acknowledgement fails the `catch` answers and the menu is untouched; otherwise a saved add leaves rows that are `chunk(list + [button], 5)`, that flatten to the new list, and that number at most 5 rows of 1 to 5 buttons |
| AutoroleRemove.Execute | commands/autorole/usun.ts:30-124 | a failed check answers its reason untouched; a missing button answers "no such role" untouched; a failed acknowledgement answers from the `catch` untouched; otherwise the rows are `chunk` of the list with the first match spliced out, and flatten to that list |
| Json.UnescapeEscape | dataManager.ts:47 | the string escaping of `JSON.stringify` is undone by reading the escapes back, so no two strings are written alike |
| Json.QuoteInjective | dataManager.ts:47 | two strings with the same quoted JSON text are equal |
| Json.Lookup | roleplayUtils.ts:25-30 | a property is found exactly when the key is present, and the value found is stored under that key |
| Json.LookupAssign | roleplayUtils.ts:29-30 | after `obj.k = v`, reading `k` gives `v` and every other property reads as before |
| Json.KeysAssign | roleplayUtils.ts:29-30 | assigning to an existing key keeps the key order; a new key goes last |
| Json.LookupRemove | roleplayUtils.ts:25-27 | after `delete obj.k`, `k` is absent and every other property reads as before |
| Json.RemoveAt | roleplayUtils.ts:25-27 | deleting a key present once removes exactly that property and keeps the order of the rest |
| Json.RemoveAbsent | roleplayUtils.ts:25-27 | deleting an absent key changes nothing |
| Json.AssignAt | roleplayUtils.ts:29 | assigning to a present key replaces its value in place |
| Json.AssignNew | roleplayUtils.ts:30 | assigning to an absent key appends the property |
| Json.AssignExisting | roleplayUtils.ts:29 | in an object with distinct keys, assigning to the key of position `i` updates position `i` only |
| Json.Assignments | dataManager.ts:44-49 | the script assigns every own property except `@metadata`, and nothing else |
| Json.PatchScript | dataManager.ts:43-50 | the script always ends with `;`, and it is `;` alone exactly when there is nothing to assign |
| Json.PatchScriptShape | dataManager.ts:43-50 | the script is `;` when there is nothing to assign; otherwise it is one `this.k = JSON(v)` per property, each followed by `;` |
| Json.JoinTerminated | dataManager.ts:49-50 | joining with `;` and adding a final `;` is the same as ending every statement with `;` |
| Json.PatchKeepsMetadata | dataManager.ts:34-56 | on a document with the same keys, the patch overwrites every property but `@metadata` with the new value and keeps the stored `@metadata` |
| Json.PatchFieldsAfterMetadata | dataManager.ts:34-56 | patching a stored `@metadata` plus fields gives the stored `@metadata` followed by the new fields |
| Json.PatchTarget | dataManager.ts:41 | a patch target is found only in an object whose `@metadata` is an object |
| Raven.MetaTarget | dataManager.ts:41 | the patch of a document targets its `@metadata.@id` |
| Raven.Matching | dataManager.ts:18-24 | the answer holds exactly the stored documents without a collection whose body satisfies the query |
| Raven.FirstMatch | dataManager.ts:10-16 | no answer exactly when no document without a collection matches; otherwise the first such document in store order |
| Raven.FirstMatchIsFirstOfAll | dataManager.ts:10-24 | `get` answers with `Results[0]` of the same query `getAll` runs |
| Raven.FreshId | dataManager.ts:26-32 | the id the database assigns is different from every stored id |
| Raven.Stored | dataManager.ts:26-32 | a created document keeps its body and collection and gets a fresh id |
| Raven.Patched | dataManager.ts:34-56 | the store keeps its length and every document its metadata; the documents with the target id get the new body, and every other document is unchanged |
| Raven.WithoutId | dataManager.ts:58-63 | deletion keeps exactly the documents with other ids |
| Raven.WithoutIdDistinct | dataManager.ts:58-63 | deleting the documents with an id keeps the remaining ids distinct |
| Raven.FirstWithId | dataManager.ts:65-70 | no answer exactly when no document has the id; otherwise a stored document with it |
| Raven.GetByIdUnique | dataManager.ts:65-70 | with distinct ids, `getByID` answers with the one document that has the id |
| Raven.BaseManager.constructor | dataManager.ts:6-8 | the manager is bound to its database name and holds the stored documents |
| Raven.BaseManager.Get | dataManager.ts:10-16 | the first stored document matching the query |
| Raven.BaseManager.GetAll | dataManager.ts:18-24 | all stored documents matching the query |
| Raven.BaseManager.Create | dataManager.ts:26-32 | exactly one document is appended, with a fresh id, and ids stay distinct |
| Raven.BaseManager.Update | dataManager.ts:34-56 | the document with the target id gets the new fields, metadata kept; every other document is unchanged; distinct ids stay distinct |
| Raven.BaseManager.DeleteById | dataManager.ts:58-63 | the documents with that id are removed, nothing else changes, and a store with distinct ids keeps them distinct |
| Raven.BaseManager.GetById | dataManager.ts:65-70 | the first stored document with that id |
| DataManager.GuildDefault | dataManager.ts:87-97 | the default guild has empty metadata (id `""`, no collection), the asked `gid`, one hero, no webhooks, modrole `""`, no currency, starting money 0, and 100 xp per level and to start |
| DataManager.GuildFields | dataManager.ts:87-96 | a guild's own properties, in order, are `gid, maxHeroes, webhooks, modrole, money, xp` |
| DataManager.GuildUpdate | dataManager.ts:34-56 | updating a guild targets its id, and the patched document is the stored metadata with the new fields |
| DataManager.MoneyUpdate | dataManager.ts:34-56 | the same for a money account |
| DataManager.ItemUpdate | dataManager.ts:34-56 | the same for an item |
| DataManager.CurrencySymbol | dataManager.ts:115-117 | never empty: the stored currency, or `$` when it is null or empty |
| DataManager.GuildsAfterGetOrCreate | dataManager.ts:103-113 | when the query finds a guild for `gid` the database is unchanged; otherwise exactly the created document is appended |
| DataManager.GetOrCreateKeepsOneGuildPerGid | dataManager.ts:103-113 | get-or-create with data for the asked `gid` never stores a second guild with the same `gid` among those the queries see |
| DataManager.GuildManager.constructor | dataManager.ts:83-85 | the guild manager works on the `guild` database |
| DataManager.GuildManager.Get | dataManager.ts:99-101 | the first guild with that `gid` |
| DataManager.GuildManager.GetOrCreate | dataManager.ts:103-113 | an existing guild is answered with no write; otherwise `data` (by default `GuildManager.default(gid)`) is created once and answered |
| DataManager.GuildManager.GetCurrency | dataManager.ts:115-117 | the currency symbol of the guild get-or-create answers with; `$` for a guild not stored yet, which is created |
| DataManager.MoneyDefault | dataManager.ts:134-143 | the default account has empty metadata, the asked `gid` and `uid`, value 0, no hero and no items |
| DataManager.MoneyFields | dataManager.ts:134-142 | an account's own properties, in order, are `gid, uid, value, heroID, items` |
| DataManager.SeededAccount | dataManager.ts:160-163 | an unsaved account (id `""`) gets its guild's starting money, with everything else kept; a saved one is kept as it is |
| DataManager.NewGuildStartsAtZero | dataManager.ts:155-163 | in any guild database where the query finds no guild for `gid`, an unsaved account starts at 0 |
| DataManager.MoneyManager.constructor | dataManager.ts:130-132 | the money manager works on the `money` database |
| DataManager.MoneyManager.GetAll | dataManager.ts:146-150 | the accounts of that user in that guild |
| DataManager.MoneyManager.GetOrCreate | dataManager.ts:152-168 | existing accounts are answered with no write; otherwise the seeded account is created once and answered alone, and the guild is fetched or created only for an unsaved account |
| DataManager.NormaliseItem | dataManager.ts:228-261 | the stored item has fresh metadata and the caller's `gid` and `name` |
| DataManager.NormaliseKeepsSupplied | dataManager.ts:232-257 | every supplied field is kept, `false`, `0` and `""` included |
| DataManager.NormaliseFieldwise | dataManager.ts:232-257 | for any partial item, each of price, description, inventory, stock, recipes, tags, the time window, the sell settings, the three role lists and the five messages is the supplied value when given and its default otherwise |
| DataManager.NormaliseIdempotent | dataManager.ts:228-261 | normalising a normalised item changes nothing |
| DataManager.NormaliseDefaults | dataManager.ts:232-257 | the defaults are price 0, empty description, inventory true, stock -1, empty time window, sell for `"100"`, sellable, and no roles, messages, recipes or tags |
| DataManager.ItemFields | dataManager.ts:229-261 | an item's own properties, in the order the `create` literal writes them, are `data, gid, name` |
| DataManager.Dedup | dataManager.ts:220-224 | the same values as the input, each once |
| DataManager.DedupOrder | dataManager.ts:220-224 | values come in the order of their first occurrence |
| DataManager.InConcat | dataManager.ts:222 | a tag is in the flattened lists exactly when it is in one of them |
| DataManager.TagsOfGuild | dataManager.ts:214-225 | the flattened tag lists of the query answer hold exactly the tags of the guild's items without a collection |
| DataManager.InsertByPrice | dataManager.ts:191 | insertion adds the one item, as a multiset |
| DataManager.InsertedFrom | dataManager.ts:191 | every element after an insertion is the inserted item or was already in the list |
| DataManager.InsertSorted | dataManager.ts:191 | inserting into a price-ordered list keeps it ordered |
| DataManager.SortByPrice | dataManager.ts:191 | the items in price order, as a permutation of the input |
| DataManager.ItemManager.constructor | dataManager.ts:181-183 | the item manager works on the `items` database |
| DataManager.ItemManager.Create | dataManager.ts:228-264 | the normalised item is stored once |
| DataManager.ItemManager.GetTags | dataManager.ts:214-225 | a tag is answered exactly when an item of the guild without a collection carries it; no duplicates; in first-occurrence order |
| DataManager.ItemManager.GetPage | dataManager.ts:185-200 | a success exactly when the page is at least -1; `allItems` is the number of the guild's items; page -1 gives all of them in price order; page `p` gives the `p`-th piece of five of that order, or nothing past the end |
| DataManager.Managers.constructor | dataManager.ts:74 | no singleton exists before the first `getInstance()` |
| DataManager.Managers.GuildInstance | dataManager.ts:76-81 | the first call creates the guild manager on the `guild` database; later calls answer with the same instance; the singletons and the answered manager keep distinct document ids |
| DataManager.Managers.MoneyInstance | dataManager.ts:123-128 | the same for the money manager; the singletons and the answered manager keep distinct document ids |
| DataManager.Managers.ItemInstance | dataManager.ts:174-179 | the same for the item manager; the singletons and the answered manager keep distinct document ids |
| RoleplayUtils.DefaultGuildData | roleplayUtils.ts:122-137 | the default guild row has id -1, the asked Discord guild id, no addons, no starting money or xp settings, one hero, no currency, and empty item, hero, monster and money lists |
| RoleplayUtils.DefaultMoneyData | roleplayUtils.ts:139-148 | the default money row has id -1, guild id -1, the user id, is not a hero account, holds 0 and links no hero |
| RoleplayUtils.DefaultMoneyPayload | roleplayUtils.ts:21-33 | the default record without `id`, `guildID` and `heroID`, and with the guild's starting money and `nc_34j6__hero_id: null`, in that property order |
| RoleplayUtils.FetchData | roleplayUtils.ts:226-233 | a status of 400 or more throws the response text; otherwise a `content-length` reading as 0 (or none) gives `null`, and anything else the body |
| RoleplayUtils.FindGuild | roleplayUtils.ts:79-84 | no answer exactly when no row has that Discord guild id; otherwise a stored row with it |
| RoleplayUtils.FindAppended | roleplayUtils.ts:107-116 | a guild row created for an id that had none is the one `findOne` answers with afterwards |
| RoleplayUtils.MoneyRows | roleplayUtils.ts:58-68 | every listed row carries the user's `user_id`, and there are no more listed rows than stored ones |
| RoleplayUtils.MoneyRowsExact | roleplayUtils.ts:58-68 | both directions: every stored row under the asked guild key with the user's `user_id` is listed, and every listed row is such a stored row |
| RoleplayUtils.MoneyRowsAppend | roleplayUtils.ts:37-46 | a row added to the server is listed after the rows that were there |
| RoleplayUtils.CreatedIsListed | roleplayUtils.ts:34-46 | a row created with the user's `user_id` is listed last by the money query for its guild |
| RoleplayUtils.MoneyOrDefault | roleplayUtils.ts:7-8 | the fetched list when there is one; otherwise the one default record of the user |
| RoleplayUtils.NocoDb.GetGuild | roleplayUtils.ts:79-84 | the first guild row for the Discord guild id |
| RoleplayUtils.NocoDb.CreateGuild | roleplayUtils.ts:86-94 | one row is appended under the next id and answered |
| RoleplayUtils.NocoDb.GetOrCreateGuild | roleplayUtils.ts:103-120 | an existing guild is answered with no write; otherwise the caller's data, or the default without its id, is created once; with the default, the guild is found afterwards |
| RoleplayUtils.NocoDb.CreateMoney | roleplayUtils.ts:37-46 | one row, the payload plus its new `id`, is listed under the guild's row id |
| RoleplayUtils.NocoDb.GetMoney | roleplayUtils.ts:58-68 | the guild is fetched or created, then the user's rows under its row id are listed; money rows are unchanged |
| RoleplayUtils.NocoDb.GetMoneyOrDefault | roleplayUtils.ts:3-9 | the user's rows under the guild, which now exists; a guild not stored before is created with the default data under the next id, and money rows are unchanged |
| RoleplayUtils.NocoDb.GetMoneyOrCreate | roleplayUtils.ts:11-35 | existing rows are answered with no write; otherwise exactly one row is created from the caller's data or the default payload, listed under the guild's row id and answered alone; with the default payload a later lookup finds it; a missing guild is created as in `getMoney`, and the next id advances once per row created |

## Left out

- Combat and dice (`calculateDamage`, the attack, dodge and armour rolls, `dice`, `genRandom`): they rest on `Math.random` and floating point. The attack and replay handlers are modelled only up to the arguments they pass to `calculateDamage`.
- `wrap` (utils.ts:43-48): it is built from a regular expression.
- The anime and meme commands, menu creation (commands/autorole/stworz.ts, mod.ts:220-261), utils/loaders.ts and extensions/roleplay: these are HTTP, file system and embed formatting, with no rules beyond the permission check.
- Transport: the HTTP requests, the query and URL strings, the RQL `where`/`order by`/`limit` text, headers and JSON parsing of the database's answers.
  - A query is a predicate, and its answer comes in store order.
  - `like` in the NocoDB `where` clauses is equality.
  - Parse errors of `response.json()` are not modelled.
- The Discord gateway: interaction replies, ephemeral flags and the reply texts. A reply is an `Outcome` or `RoleReply` value instead.
- The failure of `msg.edit`: it is not awaited (commands/autorole/dodaj.ts:117), so a failure never reaches the `catch`. The model saves the edit. Whether the acknowledgement `editResponse` succeeds is a parameter; the text of the `catch` reply is not modelled.
- Concurrency between interactions: every operation is modelled as one sequential step.
- Economic transactions (buy, sell, use, craft, tiered prices): the source defines only their data types (dataManager.ts:320-373). Those beyond items and accounts, such as heroes, are left out.
- `HeroManager`, `ItemManager.getByName`, `ItemManager.getAutocompletitions`, `getGuildOrDefault`, `getGuilds` and `guildExists`: these are plain queries outside the core.
- Numbers are JavaScript doubles; the model uses unbounded integers. Unary plus is modelled for the empty string and optionally signed decimal digits only (no whitespace, hexadecimal, exponent or fraction), and anything else is NaN.
- `JSON.stringify` is modelled for strings (the patch script's injectivity rests on it). Other values are rendered structurally, without number formatting.
- DataManager.MoneyManager.GetOrCreate: `data.value = …` overwrites the caller's object in place (dataManager.ts:162). The model passes records by value, so the caller's copy is not seen to change.
- DataManager.ItemManager.GetPage: a page below -1 gives the database a negative `limit` offset. The model answers a failure, because what the database does then is outside the source.
- DataManager.ItemManager.GetPage: `order by data.price as long` is modelled for flat prices. Tiered (array) prices are put first, and equal prices keep no particular order (only a sorted permutation is promised, not a stable one).
- DataManager.ItemManager.GetTags: the `data.tags.length > 0` filter and the `select data.tags` projection are modelled as a predicate and a map over the stored items.
- DataManager.PartialItem: `data.gid!` and `data.name!` assert presence without checking it. The model takes both as given strings.
- RoleplayUtils.NocoDb.GetMoneyOrDefault: the in-memory server always answers a list query with a list. The `?? [defaultMoneyData(userID)]` branch, reached only on an empty HTTP body, is stated by `RoleplayUtils.MoneyOrDefault` alone.
- RoleplayUtils.NocoDb.GetMoneyOrCreate: a `null` answer of `getMoney` would make `actualData.length` throw. The server model never gives one.
- RoleplayUtils.NocoDb.CreateMoney: the server's answer is modelled as the payload plus its assigned `id`. NocoDB's other columns are not modelled.
- Raven.FreshId: the model assigns one fixed id, `#` repeated one more time than the longest stored id. Every contract about a created id holds for it; the database's own id scheme is not modelled.

## Findings

| source | as written | input that shows it | evidently intended | confidence | as-written member | corrected member |
|---|---|---|---|---|---|---|
| mod.ts:134 | the slash handler rolls with `lvl - 1` on the raw option, while the footer stores `~~lvl` (mod.ts:145) and the replay rolls with `data[0] - 1` (mod.ts:482) | `lvl = 2^31`: rolled with level 2^31 - 1, replayed with level -2^31 - 1 | the level truncated like the other options, `~~lvl - 1`, so every replay repeats the roll | not executed | Bot.ReplayDiffersBeyondInt32 | Bot.IntendedReplayMatches |
