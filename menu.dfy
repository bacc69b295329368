/**
 * Autorole menus: a message of the bot whose buttons, one per role, are laid
 * out in action rows. Editing a menu flattens its rows into one list, adds or
 * removes one button, and lays the list out again in rows of five.
 */
module Autorole {
  import opened Wrappers
  import opened Utils
  import opened Bot

  /** The bot's own user id: menus written by anyone else are refused. */
  const BOT_ID: string := "622783718783844356"
  /** Discord's limit on the buttons of one message (5 rows of 5). */
  const MAX_BUTTONS: nat := 25
  const ROW_WIDTH: nat := 5

  datatype Button = Button(labelText: string, customId: string)
  datatype ActionRow = ActionRow(components: seq<Button>)
  datatype Role = Role(id: string, name: string)

  /** The button `createButton({label: role.name, customID: "a/" + role.id})`. */
  function RoleButton(role: Role): Button {
    Button(role.name, RoleButtonId(role.id))
  }

  /** `msg.components.flatMap((row) => row.components)`. */
  function FlatComponents(rows: seq<ActionRow>): (flat: seq<Button>)
    ensures |rows| == 0 ==> flat == []
    decreases |rows|
  {
    if rows == [] then [] else rows[0].components + FlatComponents(rows[1..])
  }

  predicate HasButtonId(flat: seq<Button>, id: string) {
    exists j :: 0 <= j < |flat| && flat[j].customId == id
  }

  predicate UniqueIds(flat: seq<Button>) {
    forall i, j :: 0 <= i < j < |flat| ==> flat[i].customId != flat[j].customId
  }

  /** What a saved menu always satisfies: at most 25 buttons, no custom id twice. */
  predicate ValidMenu(flat: seq<Button>) {
    |flat| <= MAX_BUTTONS && UniqueIds(flat)
  }

  /** The reply of an autorole edit. */
  datatype Outcome =
    | Ignored          // no member or no guild: nothing is answered
    | NoPermission
    | WrongChannel
    | BadMenuId
    | NotMyMenu
    | AlreadyExists
    | TooManyButtons
    | NoSuchRole
    | CannotEdit       // the acknowledgement failed: the `catch` reply, the menu is not edited
    | Done

  datatype Edit = Saved(flat: seq<Button>) | Refused(reason: Outcome)

  /**
   * The checks shared by both edits, in the order the handlers make them:
   * member and guild present, permission, text channel, message found,
   * message written by the bot. `None` means the edit goes ahead.
   */
  function Precheck(caller: Option<Member>, inGuild: bool, channelIsText: bool,
                    messageFound: bool, authorId: string): (r: Option<Outcome>)
    ensures r.None? <==> caller.Some? && inGuild && HasPerms(caller.value) && channelIsText
                         && messageFound && authorId == BOT_ID
    ensures caller.None? || !inGuild ==> r == Some(Ignored)
    ensures caller.Some? && inGuild && !HasPerms(caller.value) ==> r == Some(NoPermission)
    ensures caller.Some? && inGuild && HasPerms(caller.value) && !channelIsText ==> r == Some(WrongChannel)
    ensures caller.Some? && inGuild && HasPerms(caller.value) && channelIsText && !messageFound
            ==> r == Some(BadMenuId)
    ensures (caller.Some? && inGuild && HasPerms(caller.value) && channelIsText && messageFound
             && authorId != BOT_ID) ==> r == Some(NotMyMenu)
  {
    if caller.None? || !inGuild then Some(Ignored)
    else if !HasPerms(caller.value) then Some(NoPermission)
    else if !channelIsText then Some(WrongChannel)
    else if !messageFound then Some(BadMenuId)
    else if authorId != BOT_ID then Some(NotMyMenu)
    else None
  }

  /**
   * Adding a button: refused when its custom id is already there, otherwise
   * pushed at the end and refused when more than 25 buttons result.
   */
  function AddButton(flat: seq<Button>, b: Button): (e: Edit)
    ensures e.Refused? <==> HasButtonId(flat, b.customId) || |flat| >= MAX_BUTTONS
    ensures e.Refused? ==> e.reason == (if HasButtonId(flat, b.customId) then AlreadyExists else TooManyButtons)
    ensures e.Saved? ==> |e.flat| == |flat| + 1 <= MAX_BUTTONS && e.flat[..|flat|] == flat && e.flat[|flat|] == b
    ensures e.Saved? && UniqueIds(flat) ==> UniqueIds(e.flat)
  {
    if HasButtonId(flat, b.customId) then Refused(AlreadyExists)
    else
      var pushed := flat + [b];
      if |pushed| > MAX_BUTTONS then Refused(TooManyButtons) else Saved(pushed)
  }

  /** `findIndex` by custom id: the first match, or -1. */
  function FindIndex(flat: seq<Button>, id: string): (k: int)
    ensures -1 <= k < |flat|
    ensures k == -1 <==> !HasButtonId(flat, id)
    ensures k >= 0 ==> flat[k].customId == id && forall j :: 0 <= j < k ==> flat[j].customId != id
    decreases |flat|
  {
    if flat == [] then -1
    else if flat[0].customId == id then 0
    else
      var k := FindIndex(flat[1..], id);
      if k == -1 then -1 else k + 1
  }

  /** Removing a button: refused when no button has the id, otherwise the first match is spliced out. */
  function RemoveButton(flat: seq<Button>, id: string): (e: Edit)
    ensures e.Refused? <==> !HasButtonId(flat, id)
    ensures e.Refused? ==> e.reason == NoSuchRole
    ensures e.Saved? ==>
              (|e.flat| == |flat| - 1 &&
               exists k :: 0 <= k < |flat| && flat[k].customId == id
                 && (forall j :: 0 <= j < k ==> flat[j].customId != id)
                 && e.flat == flat[..k] + flat[k + 1..])
    ensures e.Saved? && UniqueIds(flat) ==> UniqueIds(e.flat) && !HasButtonId(e.flat, id)
  {
    var k := FindIndex(flat, id);
    if k == -1 then Refused(NoSuchRole)
    else
      var rest := flat[..k] + flat[k + 1..];
      if UniqueIds(flat) then
        SpliceKeepsUnique(flat, k);
        Saved(rest)
      else
        Saved(rest)
  }

  /** Splicing out the button at `k` of a menu without repeated ids leaves no button with that id. */
  lemma SpliceKeepsUnique(flat: seq<Button>, k: int)
    requires 0 <= k < |flat| && UniqueIds(flat)
    ensures UniqueIds(flat[..k] + flat[k + 1..]) && !HasButtonId(flat[..k] + flat[k + 1..], flat[k].customId)
  {
    var rest := flat[..k] + flat[k + 1..];
    forall i, j | 0 <= i < j < |rest| ensures rest[i].customId != rest[j].customId {
      var i' := if i < k then i else i + 1;
      var j' := if j < k then j else j + 1;
      assert rest[i] == flat[i'] && rest[j] == flat[j'];
    }
    forall j | 0 <= j < |rest| ensures rest[j].customId != flat[k].customId {
      var j' := if j < k then j else j + 1;
      assert rest[j] == flat[j'];
    }
  }

  /** Both edits keep a menu valid. */
  lemma EditsPreserveValid(flat: seq<Button>, b: Button, id: string)
    requires ValidMenu(flat)
    ensures AddButton(flat, b).Saved? ==> ValidMenu(AddButton(flat, b).flat)
    ensures RemoveButton(flat, id).Saved? ==> ValidMenu(RemoveButton(flat, id).flat)
  {
  }

  /** The listed buttons of saved rows. */
  function RowContents(rows: seq<ActionRow>): (pieces: seq<seq<Button>>)
    ensures |pieces| == |rows|
  {
    seq(|rows|, i requires 0 <= i < |rows| => rows[i].components)
  }

  lemma {:induction false} FlatIsConcat(rows: seq<ActionRow>)
    ensures FlatComponents(rows) == Concat(RowContents(rows))
    decreases |rows|
  {
    if rows != [] {
      FlatIsConcat(rows[1..]);
      assert RowContents(rows)[1..] == RowContents(rows[1..]);
    }
  }

  /**
   * Rows made from `chunk(flat, 5)` flatten back to `flat`; for a list of at
   * most 25 buttons there are at most 5 rows, each of 1 to 5 buttons.
   */
  lemma RowsOfChunks(rows: seq<ActionRow>, flat: seq<Button>)
    requires RowContents(rows) == Chunk(flat, ROW_WIDTH)
    ensures FlatComponents(rows) == flat
    ensures forall i :: 0 <= i < |rows| ==> 1 <= |rows[i].components| <= ROW_WIDTH
    ensures |flat| <= MAX_BUTTONS ==> |rows| <= MAX_BUTTONS / ROW_WIDTH
  {
    FlatIsConcat(rows);
    ChunkConcat(flat, ROW_WIDTH);
    ChunkSizes(flat, ROW_WIDTH);
    ChunkCount(flat, ROW_WIDTH);
    forall i | 0 <= i < |rows| ensures 1 <= |rows[i].components| <= ROW_WIDTH {
      assert rows[i].components == Chunk(flat, ROW_WIDTH)[i];
    }
  }

  /** The `for (const arr of splitted) components.push({type: ActionRow, components: arr})` loop. */
  method BuildRows(splitted: seq<seq<Button>>) returns (rows: seq<ActionRow>)
    ensures RowContents(rows) == splitted
  {
    rows := [];
    for n := 0 to |splitted|
      invariant |rows| == n
      invariant forall i :: 0 <= i < n ==> rows[i].components == splitted[i]
    {
      rows := rows + [ActionRow(splitted[n])];
    }
  }

  /** The menu message: its author and its rows of buttons (content and embeds are left as they are). */
  class MenuMessage {
    const authorId: string
    var rows: seq<ActionRow>

    constructor (authorId: string, rows: seq<ActionRow>)
      ensures this.authorId == authorId && this.rows == rows
    {
      this.authorId := authorId;
      this.rows := rows;
    }

    /** `msg.edit({content, embeds, components})`: only the rows change. */
    method SetRows(rows: seq<ActionRow>)
      modifies this
      ensures this.rows == rows
    {
      this.rows := rows;
    }
  }
}
