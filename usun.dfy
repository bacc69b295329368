/** The `autorole usun` subcommand: remove the button of a role from an autorole menu. */
module AutoroleRemove {
  import opened Wrappers
  import opened Utils
  import opened Bot
  import opened Autorole

  /**
   * The parameters are those of the add subcommand, `acknowledged` included.
   * The first button whose custom id is the role's is spliced out; the
   * menu's rows change only when the reply is `Done`.
   */
  method Execute(caller: Option<Member>, inGuild: bool, role: Role, channelIsText: bool,
                 msg: MenuMessage?, acknowledged: bool) returns (o: Outcome)
    modifies msg
    ensures var pre := Precheck(caller, inGuild, channelIsText, msg != null,
                                if msg != null then msg.authorId else "");
            pre.Some? ==> o == pre.value
    ensures o != Done && msg != null ==> msg.rows == old(msg.rows)
    ensures o == Done ==>
              msg != null && Precheck(caller, inGuild, channelIsText, true, msg.authorId).None?
              && RemoveButton(FlatComponents(old(msg.rows)), RoleButtonId(role.id)).Saved?
    ensures msg != null && Precheck(caller, inGuild, channelIsText, true, msg.authorId).None? ==>
              match RemoveButton(FlatComponents(old(msg.rows)), RoleButtonId(role.id))
              case Refused(reason) => o == reason
              case Saved(flat) =>
                (!acknowledged ==> o == CannotEdit && msg.rows == old(msg.rows))
                && (acknowledged ==>
                      o == Done && RowContents(msg.rows) == Chunk(flat, ROW_WIDTH)
                      && FlatComponents(msg.rows) == flat
                      && (|flat| <= MAX_BUTTONS ==> |msg.rows| <= MAX_BUTTONS / ROW_WIDTH)
                      && (forall i :: 0 <= i < |msg.rows| ==> 1 <= |msg.rows[i].components| <= ROW_WIDTH))
  {
    var pre := Precheck(caller, inGuild, channelIsText, msg != null,
                        if msg != null then msg.authorId else "");
    if pre.Some? {
      return pre.value;
    }
    var newButton := RoleButton(role);
    var flatComponents := FlatComponents(msg.rows);
    ghost var edit := RemoveButton(flatComponents, newButton.customId);
    var buttonIndex := FindIndex(flatComponents, newButton.customId);
    if buttonIndex == -1 {
      assert edit == Refused(NoSuchRole);
      return NoSuchRole;
    }
    flatComponents := flatComponents[..buttonIndex] + flatComponents[buttonIndex + 1..];
    assert edit == Saved(flatComponents);
    var splitted := Chunk(flatComponents, ROW_WIDTH);
    var components := BuildRows(splitted);
    if !acknowledged {
      return CannotEdit;
    }
    RowsOfChunks(components, flatComponents);
    msg.SetRows(components);
    o := Done;
  }
}
