/**
  The lazily resolved attributes of an interaction: its data, guild, channel,
  member, user and message, read from the raw gateway attributes and the
  client's caches. A cached object is always preferred over one built from the
  raw attributes, and the invoking user is the member's user whenever a member
  resolves. Building a part from raw attributes keeps exactly those attributes,
  so a built object is the value it was built from.
*/
module Resolution {
  import opened Wrappers

  datatype User = User(id: string, username: string)

  /** The raw `member` object; `guildId` is a `guild_id` key it may already carry. */
  datatype RawMember = RawMember(user: User, nick: Option<string>, guildId: Option<string>)

  datatype Member = Member(user: User, nick: Option<string>, guildId: Option<string>)

  datatype Channel = Channel(id: string, name: string)

  /** A cached guild: its channels by id and its members by their user's id. */
  datatype Guild = Guild(id: string, channels: map<string, Channel>, members: map<string, Member>)

  /**
    The client's caches: guilds by id, and the channels `getChannel` finds
    (guild channels and private channels alike) by id.
  */
  datatype Client = Client(guilds: map<string, Guild>, channels: map<string, Channel>)

  /** The raw `data` object of an application command or component. */
  datatype RawData = RawData(name: string, guildId: Option<string>)

  datatype InteractionData = InteractionData(name: string, guildId: Option<string>)

  datatype Message = Message(id: string, content: string)

  /** The raw attributes an interaction was built from; `None` is an unset key. */
  datatype Attributes = Attributes(
    guildId: Option<string>,
    channelId: Option<string>,
    data: Option<RawData>,
    member: Option<RawMember>,
    user: Option<User>,
    message: Option<Message>)

  /** Every cache is keyed by the identifier of what it holds. */
  predicate GuildKeyed(g: Guild)
  {
    && (forall k :: k in g.channels ==> g.channels[k].id == k)
    && (forall k :: k in g.members ==> g.members[k].user.id == k)
  }

  predicate CacheKeyed(c: Client)
  {
    && (forall k :: k in c.guilds ==> c.guilds[k].id == k && GuildKeyed(c.guilds[k]))
    && (forall k :: k in c.channels ==> c.channels[k].id == k)
  }

  /**
    `getDataAttribute`: nothing without raw data; otherwise the data, stamped
    with the interaction's guild id when it has one.
  */
  function ResolveData(a: Attributes): (r: Option<InteractionData>)
    ensures r.Some? <==> a.data.Some?
    ensures r.Some? ==> r.value.name == a.data.value.name
    ensures r.Some? ==> r.value.guildId == if a.guildId.Some? then a.guildId else a.data.value.guildId
  {
    match a.data
    case None => None
    case Some(raw) =>
      var stamped := if a.guildId.Some? then raw.(guildId := a.guildId) else raw;
      Some(InteractionData(stamped.name, stamped.guildId))
  }

  /** `getGuildAttribute`: the cached guild the interaction names, if any. */
  function ResolveGuild(c: Client, a: Attributes): (r: Option<Guild>)
    ensures r.Some? <==> a.guildId.Some? && a.guildId.value in c.guilds
    ensures r.Some? ==> r.value in c.guilds.Values
    ensures CacheKeyed(c) && r.Some? ==> r.value.id == a.guildId.value && GuildKeyed(r.value)
  {
    match a.guildId
    case None => None
    case Some(id) => Lookup(c.guilds, id)
  }

  /** `$this->discord->getChannel($channel_id)` */
  function GlobalChannel(c: Client, id: Option<string>): Option<Channel>
  {
    match id
    case None => None
    case Some(k) => Lookup(c.channels, k)
  }

  /**
    `getChannelAttribute`: the resolved guild's own channel of that id when it
    has one, and the client-wide lookup otherwise.
  */
  function ResolveChannel(c: Client, a: Attributes): (r: Option<Channel>)
    ensures var g := ResolveGuild(c, a);
            && (g.Some? && a.channelId.Some? && a.channelId.value in g.value.channels ==> r == Some(g.value.channels[a.channelId.value]))
            && (!(g.Some? && a.channelId.Some? && a.channelId.value in g.value.channels) ==> r == GlobalChannel(c, a.channelId))
    ensures r.Some? ==> a.channelId.Some?
    ensures CacheKeyed(c) && r.Some? ==> r.value.id == a.channelId.value
  {
    var g := ResolveGuild(c, a);
    if g.Some? && a.channelId.Some? && a.channelId.value in g.value.channels then Some(g.value.channels[a.channelId.value])
    else GlobalChannel(c, a.channelId)
  }

  /**
    A member built from the raw `member` object plus `guild_id`. PHP's array
    `+` keeps the left operand's key, so a `guild_id` the raw object already
    carries wins over the interaction's.
  */
  function DetachedMember(raw: RawMember, guildId: Option<string>): Member
  {
    Member(raw.user, raw.nick, if raw.guildId.Some? then raw.guildId else guildId)
  }

  /**
    `getMemberAttribute`: nothing without a raw member; otherwise the resolved
    guild's cached member of the raw member's user id, or else a detached
    member built from the raw attributes.
  */
  function ResolveMember(c: Client, a: Attributes): (r: Option<Member>)
    ensures r.Some? <==> a.member.Some?
    ensures var g := ResolveGuild(c, a);
            a.member.Some? && g.Some? && a.member.value.user.id in g.value.members ==> r == Some(g.value.members[a.member.value.user.id])
    ensures var g := ResolveGuild(c, a);
            a.member.Some? && !(g.Some? && a.member.value.user.id in g.value.members) ==> r == Some(DetachedMember(a.member.value, a.guildId))
    ensures CacheKeyed(c) && r.Some? ==> r.value.user.id == a.member.value.user.id
  {
    match a.member
    case None => None
    case Some(raw) =>
      var g := ResolveGuild(c, a);
      if g.Some? && raw.user.id in g.value.members then Some(g.value.members[raw.user.id])
      else Some(DetachedMember(raw, a.guildId))
  }

  /**
    `getUserAttribute`: the resolved member's user whenever a member resolves,
    and otherwise the raw `user` object. With caches keyed by id, the invoking
    user is the one the raw attributes name, whichever object was found.
  */
  function ResolveUser(c: Client, a: Attributes): (r: Option<User>)
    ensures r.Some? <==> a.member.Some? || a.user.Some?
    ensures a.member.Some? ==> r == Some(ResolveMember(c, a).value.user)
    ensures a.member.None? ==> r == a.user
    ensures CacheKeyed(c) && a.member.Some? ==> r.value.id == a.member.value.user.id
  {
    var m := ResolveMember(c, a);
    if m.Some? then Some(m.value.user) else a.user
  }

  /** `getMessageAttribute`: the message built from the raw `message` object, if there is one. */
  function ResolveMessage(a: Attributes): (r: Option<Message>)
    ensures r.Some? <==> a.message.Some?
    ensures r.Some? ==> r.value == a.message.value
  {
    match a.message
    case None => None
    case Some(raw) => Some(raw)
  }

  /**
    Outside a guild (a direct message) there is no guild, the channel comes
    from the client-wide lookup, and the user is the raw `user` when no member
    was sent.
  */
  lemma DirectMessageResolution(c: Client, a: Attributes)
    requires a.guildId.None? && a.member.None?
    ensures ResolveGuild(c, a).None?
    ensures ResolveChannel(c, a) == GlobalChannel(c, a.channelId)
    ensures ResolveMember(c, a).None?
    ensures ResolveUser(c, a) == a.user
  {
  }

  /**
    Resolving twice agrees with resolving once: stamping the raw data with the
    guild id, as the resolver writes back into it, changes nothing on the next read.
  */
  lemma DataStampIdempotent(a: Attributes)
    requires a.data.Some? && a.guildId.Some?
    ensures ResolveData(a.(data := Some(a.data.value.(guildId := a.guildId)))) == ResolveData(a)
  {
  }
}
