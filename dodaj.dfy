/** The `autorole dodaj` subcommand: add the button of a role to an autorole menu. */
module AutoroleAdd {
  import opened Wrappers
  import opened Utils
  import opened Bot
  import opened Autorole

  /**
   * `caller` is the interaction's member (absent outside a guild), `inGuild`
   * whether the interaction has a guild, `channelIsText` whether the chosen
   * channel is a text channel, and `msg` the fetched menu message (null when
   * the fetch fails). `acknowledged` is whether `editResponse("Zrobione!")`
   * succeeds: when it throws, the `catch` answers and `msg.edit` is never
   * reached. The menu's rows change only when the reply is `Done`.
   */
  method Execute(caller: Option<Member>, inGuild: bool, role: Role, channelIsText: bool,
                 msg: MenuMessage?, acknowledged: bool) returns (o: Outcome)
    modifies msg
    ensures var pre := Precheck(caller, inGuild, channelIsText, msg != null,
                                if msg != null then msg.authorId else "");
            pre.Some? ==> o == pre.value
    ensures o != Done && msg != null ==> msg.rows == old(msg.rows)
    ensures o == Done ==>
              msg != null && Precheck(caller, inGuild, channelIsText, true, msg.authorId).None?
              && AddButton(FlatComponents(old(msg.rows)), RoleButton(role)).Saved?
    ensures msg != null && Precheck(caller, inGuild, channelIsText, true, msg.authorId).None? ==>
              match AddButton(FlatComponents(old(msg.rows)), RoleButton(role))
              case Refused(reason) => o == reason
              case Saved(flat) =>
                (!acknowledged ==> o == CannotEdit && msg.rows == old(msg.rows))
                && (acknowledged ==>
                      o == Done && RowContents(msg.rows) == Chunk(flat, ROW_WIDTH)
                      && FlatComponents(msg.rows) == flat
                      && |msg.rows| <= MAX_BUTTONS / ROW_WIDTH
                      && (forall i :: 0 <= i < |msg.rows| ==> 1 <= |msg.rows[i].components| <= ROW_WIDTH))
  {
    var pre := Precheck(caller, inGuild, channelIsText, msg != null,
                        if msg != null then msg.authorId else "");
    if pre.Some? {
      return pre.value;
    }
    var newButton := RoleButton(role);
    var flatComponents := FlatComponents(msg.rows);
    if HasButtonId(flatComponents, newButton.customId) {
      return AlreadyExists;
    }
    flatComponents := flatComponents + [newButton];
    if |flatComponents| > MAX_BUTTONS {
      return TooManyButtons;
    }
    var splitted := Chunk(flatComponents, ROW_WIDTH);
    var components := BuildRows(splitted);
    if !acknowledged {
      return CannotEdit;
    }
    RowsOfChunks(components, flatComponents);
    msg.SetRows(components);
    o := Done;
  }
}
