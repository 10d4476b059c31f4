/**
  The permission tables: each permission's name and the index of its bit in
  the `bitwise` number, and the facts every table satisfies. The tables live
  apart from the codec so that their proofs, which compare every pair of
  entries, see nothing but the tables.
*/
module PermissionTables {

  /** One row of a permission table: a permission's name and its bit index. */
  datatype Entry = Entry(name: string, bit: nat)

  /** A permission table, in the order PHP's array lists it. */
  type Table = seq<Entry>

  /** Permissions that only apply to voice channels. */
  const VOICE_PERMISSIONS: Table := [
    Entry("priority_speaker", 8),
    Entry("stream", 9),
    Entry("connect", 20),
    Entry("speak", 21),
    Entry("mute_members", 22),
    Entry("deafen_members", 23),
    Entry("move_members", 24),
    Entry("use_vad", 25),
    Entry("request_to_speak", 32),
    Entry("manage_events", 33),
    Entry("start_embedded_activities", 39)
  ]

  /** Permissions that only apply to text channels. */
  const TEXT_PERMISSIONS: Table := [
    Entry("add_reactions", 6),
    Entry("send_messages", 11),
    Entry("send_tts_messages", 12),
    Entry("manage_messages", 13),
    Entry("embed_links", 14),
    Entry("attach_files", 15),
    Entry("read_message_history", 16),
    Entry("mention_everyone", 17),
    Entry("use_external_emojis", 18),
    Entry("use_application_commands", 31),
    Entry("manage_threads", 34),
    Entry("create_public_threads", 35),
    Entry("create_private_threads", 36),
    Entry("use_external_stickers", 37),
    Entry("send_messages_in_threads", 38)
  ]

  /** Permissions that can only be applied to roles. */
  const ROLE_PERMISSIONS: Table := [
    Entry("kick_members", 1),
    Entry("ban_members", 2),
    Entry("administrator", 3),
    Entry("manage_guild", 5),
    Entry("view_audit_log", 7),
    Entry("view_guild_insights", 19),
    Entry("change_nickname", 26),
    Entry("manage_nicknames", 27),
    Entry("manage_emojis_and_stickers", 30),
    Entry("manage_events", 33),
    Entry("moderate_members", 40)
  ]

  /** Permissions that apply everywhere. */
  const ALL_PERMISSIONS: Table := [
    Entry("create_instant_invite", 0),
    Entry("manage_channels", 4),
    Entry("view_channel", 10),
    Entry("manage_roles", 28),
    Entry("manage_webhooks", 29)
  ]

  /** A PHP array has each key once. */
  predicate NamesDistinct(t: Table)
  {
    forall j, k :: 0 <= j < k < |t| ==> t[j].name != t[k].name
  }

  /** One name per bit, and every bit below 63, so that `1 << bit` is a positive 64-bit PHP integer. */
  predicate BitsFit(t: Table)
  {
    && (forall j, k :: 0 <= j < k < |t| ==> t[j].bit != t[k].bit)
    && (forall k :: 0 <= k < |t| ==> t[k].bit < 63)
  }

  /** What every concrete table satisfies. */
  predicate WellFormed(t: Table)
  {
    NamesDistinct(t) && BitsFit(t)
  }

  /** No name and no bit of `a` occurs in `b`. */
  predicate Apart(a: Table, b: Table)
  {
    forall i, j :: 0 <= i < |a| && 0 <= j < |b| ==> a[i].name != b[j].name && a[i].bit != b[j].bit
  }

  // The tables the model reads permissions from, and the concatenations of
  // them it uses, are well formed. The facts about a literal table are stated
  // entry by entry, and the predicates above are applied only to a table equal
  // to it.

  /**
    The voice and role tables both list `manage_events` at bit 33, so their
    concatenation repeats a name: a union of the two is what `array_merge`
    makes of them, with the key once, and not their concatenation.
  */
  lemma VoiceRoleShareManageEvents(t: Table)
    requires t == VOICE_PERMISSIONS + ROLE_PERMISSIONS
    ensures !NamesDistinct(t)
    ensures !Apart(VOICE_PERMISSIONS, ROLE_PERMISSIONS)
  {
    assert t[9] == Entry("manage_events", 33);
    assert t[11 + 9] == Entry("manage_events", 33);
    assert VOICE_PERMISSIONS[9].name == ROLE_PERMISSIONS[9].name;
  }

  lemma TextWellFormed(t: Table)
    requires t == TEXT_PERMISSIONS
    ensures WellFormed(t)
  {
    TextNames();
    TextBits();
  }

  lemma TextNames()
    ensures forall j, k :: 0 <= j < k < |TEXT_PERMISSIONS| ==> TEXT_PERMISSIONS[j].name != TEXT_PERMISSIONS[k].name
  {
  }

  lemma TextBits()
    ensures forall j, k :: 0 <= j < k < |TEXT_PERMISSIONS| ==> TEXT_PERMISSIONS[j].bit != TEXT_PERMISSIONS[k].bit
    ensures forall k :: 0 <= k < |TEXT_PERMISSIONS| ==> TEXT_PERMISSIONS[k].bit < 63
  {
  }

  lemma RoleWellFormed(t: Table)
    requires t == ROLE_PERMISSIONS
    ensures WellFormed(t)
  {
    RoleNames();
    RoleBits();
  }

  lemma RoleNames()
    ensures forall j, k :: 0 <= j < k < |ROLE_PERMISSIONS| ==> ROLE_PERMISSIONS[j].name != ROLE_PERMISSIONS[k].name
  {
  }

  lemma RoleBits()
    ensures forall j, k :: 0 <= j < k < |ROLE_PERMISSIONS| ==> ROLE_PERMISSIONS[j].bit != ROLE_PERMISSIONS[k].bit
    ensures forall k :: 0 <= k < |ROLE_PERMISSIONS| ==> ROLE_PERMISSIONS[k].bit < 63
  {
  }

  lemma AllWellFormed(t: Table)
    requires t == ALL_PERMISSIONS
    ensures WellFormed(t)
  {
    AllFacts();
  }

  lemma AllFacts()
    ensures forall j, k :: 0 <= j < k < |ALL_PERMISSIONS| ==> ALL_PERMISSIONS[j].name != ALL_PERMISSIONS[k].name
    ensures forall j, k :: 0 <= j < k < |ALL_PERMISSIONS| ==> ALL_PERMISSIONS[j].bit != ALL_PERMISSIONS[k].bit
    ensures forall k :: 0 <= k < |ALL_PERMISSIONS| ==> ALL_PERMISSIONS[k].bit < 63
  {
  }

  /** Two well-formed tables that share no name and no bit concatenate to a well-formed table. */
  lemma ConcatWellFormed(a: Table, b: Table)
    requires WellFormed(a) && WellFormed(b) && Apart(a, b)
    ensures WellFormed(a + b)
  {
    var t := a + b;
    forall j, k | 0 <= j < k < |t|
      ensures t[j].name != t[k].name && t[j].bit != t[k].bit
    {
      if k < |a| {
        assert t[j] == a[j] && t[k] == a[k];
      } else if j < |a| {
        assert t[j] == a[j] && t[k] == b[k - |a|];
      } else {
        assert t[j] == b[j - |a|] && t[k] == b[k - |a|];
      }
    }
  }

  /** The everywhere table joined with the text-only table, as a `getPermissions` may return them. */
  lemma AllTextWellFormed(t: Table)
    requires t == ALL_PERMISSIONS + TEXT_PERMISSIONS
    ensures WellFormed(t)
  {
    var a, b := ALL_PERMISSIONS, TEXT_PERMISSIONS;
    AllWellFormed(a);
    TextWellFormed(b);
    AllTextNames();
    AllTextBits();
    ConcatWellFormed(a, b);
  }

  lemma AllTextNames()
    ensures forall i, j :: 0 <= i < |ALL_PERMISSIONS| && 0 <= j < |TEXT_PERMISSIONS| ==> ALL_PERMISSIONS[i].name != TEXT_PERMISSIONS[j].name
  {
  }

  lemma AllTextBits()
    ensures forall i, j :: 0 <= i < |ALL_PERMISSIONS| && 0 <= j < |TEXT_PERMISSIONS| ==> ALL_PERMISSIONS[i].bit != TEXT_PERMISSIONS[j].bit
  {
  }

  /**
    The text-channel table joined with the role table: a table holding every
    permission the four former names stand for.
  */
  lemma TextRoleWellFormed(t: Table)
    requires t == TEXT_PERMISSIONS + ROLE_PERMISSIONS
    ensures WellFormed(t)
  {
    var a, b := TEXT_PERMISSIONS, ROLE_PERMISSIONS;
    TextWellFormed(a);
    RoleWellFormed(b);
    TextRoleNames();
    TextRoleBits();
    ConcatWellFormed(a, b);
  }

  lemma TextRoleNames()
    ensures forall i, j :: 0 <= i < |TEXT_PERMISSIONS| && 0 <= j < |ROLE_PERMISSIONS| ==> TEXT_PERMISSIONS[i].name != ROLE_PERMISSIONS[j].name
  {
  }

  lemma TextRoleBits()
    ensures forall i, j :: 0 <= i < |TEXT_PERMISSIONS| && 0 <= j < |ROLE_PERMISSIONS| ==> TEXT_PERMISSIONS[i].bit != ROLE_PERMISSIONS[j].bit
  {
  }
}
