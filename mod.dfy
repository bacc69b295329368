/**
 * The pure helpers of the bot's entry point (mod.ts): the moderator check,
 * the custom id of an autorole button, the role toggle a button press
 * performs, and the footer through which an attack roll is replayed.
 */
module Bot {
  import opened Wrappers
  import opened JsText

  /** Discord's ADMINISTRATOR permission bit, `1 << 3`. */
  const ADMINISTRATOR: bv64 := 0x8

  /** A guild member as the gateway resolves it. */
  datatype Member = Member(id: string, guildOwnerId: string, permissions: bv64, roles: set<string>)

  predicate HasPermission(m: Member, flag: bv64) {
    m.permissions & flag == flag
  }

  /** `hasPerms`: the guild owner and administrators may edit menus; nobody else. */
  function HasPerms(m: Member): (r: bool)
    ensures m.guildOwnerId == m.id ==> r
    ensures HasPermission(m, ADMINISTRATOR) ==> r
    ensures r ==> m.guildOwnerId == m.id || HasPermission(m, ADMINISTRATOR)
  {
    if m.guildOwnerId == m.id then true
    else if HasPermission(m, ADMINISTRATOR) then true
    else false
  }

  /**
   * No role id is consulted, the guild's configured `modrole` included: a
   * member who holds it but is neither the owner nor an administrator is refused.
   */
  lemma ModroleGrantsNothing(m: Member, modrole: string)
    requires modrole in m.roles && m.guildOwnerId != m.id && !HasPermission(m, ADMINISTRATOR)
    ensures !HasPerms(m)
  {
  }

  // ---------------------------------------------------------------------------
  // Autorole button ids: "a/" + role id

  const ROLE_BUTTON_PREFIX: string := "a/"

  function RoleButtonId(roleId: string): (cid: string)
    ensures StartsWith(cid, ROLE_BUTTON_PREFIX) && cid[|ROLE_BUTTON_PREFIX|..] == roleId
  {
    ROLE_BUTTON_PREFIX + roleId
  }

  /**
   * The role a pressed button names: for an id starting with "a/", the
   * second `/`-separated piece; other ids belong to other handlers.
   */
  function RoleOfButton(cid: string): (r: Option<string>)
    ensures r.Some? <==> StartsWith(cid, ROLE_BUTTON_PREFIX)
  {
    if StartsWith(cid, ROLE_BUTTON_PREFIX) then
      SplitAtFirstSeparator("a", '/', cid[2..]);
      assert cid == "a" + ['/'] + cid[2..];
      Some(Split(cid, '/')[1])
    else None
  }

  /** Decoding an encoded id keeps the role id up to its first `/`. */
  lemma RoleButtonDecode(roleId: string)
    ensures RoleOfButton(RoleButtonId(roleId)) == Some(Split(roleId, '/')[0])
  {
    var cid := RoleButtonId(roleId);
    assert cid == "a" + ['/'] + roleId;
    SplitAtFirstSeparator("a", '/', roleId);
  }

  /** A role id without `/` (every Discord snowflake) survives the round trip. */
  lemma RoleButtonRoundTrip(roleId: string)
    requires '/' !in roleId
    ensures RoleOfButton(RoleButtonId(roleId)) == Some(roleId)
  {
    RoleButtonDecode(roleId);
    SplitWithoutSeparator(roleId, '/');
  }

  // ---------------------------------------------------------------------------
  // Role toggle

  /** The role set after pressing the button of role `r`. */
  function Toggled(roles: set<string>, r: string): (t: set<string>)
    ensures r in t <==> r !in roles
    ensures forall x :: x != r ==> (x in t <==> x in roles)
  {
    if r in roles then roles - {r} else roles + {r}
  }

  lemma ToggleTwice(roles: set<string>, r: string)
    ensures Toggled(Toggled(roles, r), r) == roles
  {
  }

  datatype RoleReply = NotRoleButton | UseInServer | RoleRemoved | RoleAdded | CannotEditRoles

  /** The roles of a member as the gateway holds them. */
  class MemberRoles {
    var roles: set<string>

    constructor (roles: set<string>)
      ensures this.roles == roles
    {
      this.roles := roles;
    }
  }

  /**
   * The "a/" branch of the component handler. `member` is null outside a
   * guild; `mayEditRoles` says whether the gateway accepts the role change
   * (a refused change is reported and leaves the roles as they were).
   */
  method OnRoleButton(cid: string, member: MemberRoles?, mayEditRoles: bool) returns (reply: RoleReply)
    modifies member
    ensures RoleOfButton(cid).None? ==> reply == NotRoleButton
    ensures RoleOfButton(cid).Some? && member == null ==> reply == UseInServer
    ensures member != null && (reply == RoleAdded || reply == RoleRemoved) ==>
              member.roles == Toggled(old(member.roles), RoleOfButton(cid).value)
    ensures member != null && reply != RoleAdded && reply != RoleRemoved ==> member.roles == old(member.roles)
    ensures RoleOfButton(cid).Some? && member != null ==>
              reply == (if !mayEditRoles then CannotEditRoles
                        else if RoleOfButton(cid).value in old(member.roles) then RoleRemoved
                        else RoleAdded)
  {
    if !StartsWith(cid, ROLE_BUTTON_PREFIX) {
      return NotRoleButton;
    }
    var roleId := RoleOfButton(cid).value;
    if member == null {
      return UseInServer;
    }
    var hasRole := roleId in member.roles;
    if !mayEditRoles {
      return CannotEditRoles;
    }
    if hasRole {
      member.roles := member.roles - {roleId};
      reply := RoleRemoved;
    } else {
      member.roles := member.roles + {roleId};
      reply := RoleAdded;
    }
  }

  // ---------------------------------------------------------------------------
  // Attack footer: "lvl|modif|dmg|krytyczne|wartosc-kryt"

  /** The footer the attack command writes: each option truncated with `~~`. */
  function AttackFooter(lvl: int, modif: int, dmg: int, crit: int, critVal: int): (footer: string)
    ensures Split(footer, '|') == [IntToString(ToInt32(lvl)), IntToString(ToInt32(modif)), IntToString(ToInt32(dmg)),
                                   IntToString(ToInt32(crit)), IntToString(ToInt32(critVal))]
  {
    var parts := [IntToString(ToInt32(lvl)), IntToString(ToInt32(modif)), IntToString(ToInt32(dmg)),
                  IntToString(ToInt32(crit)), IntToString(ToInt32(critVal))];
    assert forall i :: 0 <= i < |parts| ==> '|' !in parts[i] by {
      forall i | 0 <= i < |parts| ensures '|' !in parts[i] {
        assert parts[i] == IntToString(ToInt32([lvl, modif, dmg, crit, critVal][i]));
      }
    }
    SplitJoin(parts, '|');
    Join(parts, '|')
  }

  /** `text.split("|").map((elt) => ~~elt)`. */
  function ParseFooter(text: string): (data: seq<int>)
    ensures |data| == |Split(text, '|')|
    ensures forall i :: 0 <= i < |data| ==> -TWO_31 <= data[i] < TWO_31
  {
    var parts := Split(text, '|');
    seq(|parts|, i requires 0 <= i < |parts| => Truncate(ToNumber(parts[i])))
  }

  /** Parsing the footer gives back the five int32 values, in the order written. */
  lemma FooterRoundTrip(lvl: int, modif: int, dmg: int, crit: int, critVal: int)
    ensures ParseFooter(AttackFooter(lvl, modif, dmg, crit, critVal))
         == [ToInt32(lvl), ToInt32(modif), ToInt32(dmg), ToInt32(crit), ToInt32(critVal)]
  {
    var vals := [ToInt32(lvl), ToInt32(modif), ToInt32(dmg), ToInt32(crit), ToInt32(critVal)];
    var parts := Split(AttackFooter(lvl, modif, dmg, crit, critVal), '|');
    forall i | 0 <= i < 5 ensures Truncate(ToNumber(parts[i])) == vals[i] {
      assert parts[i] == IntToString(vals[i]);
      IntToStringRoundTrip(vals[i]);
    }
  }

  /** What `calculateDamage` and the hit roll receive. */
  datatype AttackArgs = AttackArgs(lvl: int, modif: int, ad: int, crit: int, critVal: int)

  /** The slash handler: `lvl` is the raw option minus one, the others go through `~~`. */
  function SlashAttackArgs(lvl: int, modif: int, dmg: int, crit: int, critVal: int): (r: AttackArgs)
    ensures r.lvl + 1 == lvl
    ensures -TWO_31 <= r.modif < TWO_31 && -TWO_31 <= r.ad < TWO_31
    ensures -TWO_31 <= r.crit < TWO_31 && -TWO_31 <= r.critVal < TWO_31
    ensures r.modif == ToInt32(modif) && r.ad == ToInt32(dmg) && r.crit == ToInt32(crit) && r.critVal == ToInt32(critVal)
  {
    AttackArgs(lvl - 1, ToInt32(modif), ToInt32(dmg), ToInt32(crit), ToInt32(critVal))
  }

  /**
   * The replay button: positions 0..4 of the parsed footer. The bot always writes five
   * pieces; a footer with fewer, which would pass `undefined` for the missing ones, is
   * outside the model and answers `None`.
   */
  function ReplayAttackArgs(data: seq<int>): (r: Option<AttackArgs>)
    ensures r.Some? <==> |data| >= 5
  {
    if |data| < 5 then None
    else Some(AttackArgs(data[0] - 1, data[1], data[2], data[3], data[4]))
  }

  /** For a level in int32 range the replay repeats the arguments of the original roll. */
  lemma ReplayMatchesSlash(lvl: int, modif: int, dmg: int, crit: int, critVal: int)
    requires -TWO_31 <= lvl < TWO_31
    ensures ReplayAttackArgs(ParseFooter(AttackFooter(lvl, modif, dmg, crit, critVal)))
         == Some(SlashAttackArgs(lvl, modif, dmg, crit, critVal))
  {
    FooterRoundTrip(lvl, modif, dmg, crit, critVal);
  }

  /** The level 2^31 is rolled with level 2^31 - 1 but replayed with -2^31 - 1. */
  lemma ReplayDiffersBeyondInt32()
    ensures ReplayAttackArgs(ParseFooter(AttackFooter(TWO_31, 0, 0, 0, 0)))
         != Some(SlashAttackArgs(TWO_31, 0, 0, 0, 0))
  {
    FooterRoundTrip(TWO_31, 0, 0, 0, 0);
    assert ToInt32(TWO_31) == -TWO_31;
  }

  /** The slash handler as evidently intended: the level truncated like the footer stores it. */
  function IntendedSlashAttackArgs(lvl: int, modif: int, dmg: int, crit: int, critVal: int): (r: AttackArgs)
    ensures -TWO_31 <= lvl < TWO_31 ==> r == SlashAttackArgs(lvl, modif, dmg, crit, critVal)
  {
    AttackArgs(ToInt32(lvl) - 1, ToInt32(modif), ToInt32(dmg), ToInt32(crit), ToInt32(critVal))
  }

  /** With the intended handler every replay repeats the original arguments. */
  lemma IntendedReplayMatches(lvl: int, modif: int, dmg: int, crit: int, critVal: int)
    ensures ReplayAttackArgs(ParseFooter(AttackFooter(lvl, modif, dmg, crit, critVal)))
         == Some(IntendedSlashAttackArgs(lvl, modif, dmg, crit, critVal))
  {
    FooterRoundTrip(lvl, modif, dmg, crit, critVal);
  }
}
