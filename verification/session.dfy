/**
  The per-guild playback state of index.js and the registry that holds it
  (`guildQueues`). Discord objects become plain values: the voice connection is
  one of three states, the audio player is an optional status, a voice channel
  is an opaque identifier.
 */
module Session {
  import opened Wrappers

  type GuildId = string
  type ChannelId = string

  datatype Song = Song(title: string, url: string)

  /** `queue.connection`: null, or a connection whose status is or is not 'disconnected'. */
  datatype Connection = NoConnection | Connected | Disconnected

  /** `AudioPlayerStatus` of the guild's audio player. */
  datatype PlayerStatus = Idle | Buffering | Playing | Paused | AutoPaused

  /** One value of `guildQueues`. */
  datatype GuildQueue = GuildQueue(
    voiceChannel: Option<ChannelId>,
    connection: Connection,
    player: Option<PlayerStatus>,
    songs: seq<Song>,
    currentIndex: int,
    loop: bool)

  type Registry = map<GuildId, GuildQueue>

  /** The entry `getGuildQueue` creates for a guild it has not seen. */
  const Fresh := GuildQueue(None, NoConnection, None, [], -1, false)

  /** True when `currentIndex` names a song of the queue (the bounds test of playNextSong). */
  predicate InRange(q: GuildQueue) {
    0 <= q.currentIndex < |q.songs|
  }

  /** The entry a guild has, or would get from `getGuildQueue`. */
  function Entry(reg: Registry, g: GuildId): GuildQueue {
    if g in reg then reg[g] else Fresh
  }

  /** `getGuildQueue`: the guild's entry, created with defaults when missing. */
  function GetGuildQueue(reg: Registry, g: GuildId): (r: (Registry, GuildQueue))
    ensures g in r.0 && r.0[g] == r.1
    ensures r.0.Keys == reg.Keys + {g}
    ensures r.0 - {g} == reg - {g}
    ensures g in reg ==> r.0 == reg
    ensures g !in reg ==>
      && r.1.songs == [] && r.1.currentIndex == -1 && !r.1.loop
      && r.1.connection == NoConnection && r.1.player == None && r.1.voiceChannel == None
  {
    if g in reg then (reg, reg[g]) else (reg[g := Fresh], Fresh)
  }

  /** Two states of one session that differ at most in index and player status. */
  predicate SameSession(a: GuildQueue, b: GuildQueue) {
    && a.voiceChannel == b.voiceChannel
    && a.connection == b.connection
    && a.songs == b.songs
    && a.loop == b.loop
  }

  /**
    How the connection and the rest of an entry go together: a voice channel
    is recorded exactly when there is a connection, and an entry without a
    connection has no songs.
   */
  predicate Bound(q: GuildQueue) {
    && (q.connection == NoConnection <==> q.voiceChannel.None?)
    && (q.connection == NoConnection ==> q.songs == [])
  }

  /**
    The shape every stored entry keeps: the index is -1 or names a song, the
    connection is bound as above, and an entry without a connection is still
    the fresh one.
   */
  predicate Valid(q: GuildQueue) {
    && (q.currentIndex == -1 || InRange(q))
    && Bound(q)
    && (q.connection == NoConnection ==> q == Fresh)
  }

  predicate ValidRegistry(reg: Registry) {
    forall g :: g in reg ==> Valid(reg[g])
  }

  /** Every entry a valid registry hands out is valid, created or not. */
  lemma EntryValid(reg: Registry, g: GuildId)
    requires ValidRegistry(reg)
    ensures Valid(Entry(reg, g))
    ensures ValidRegistry(GetGuildQueue(reg, g).0)
  {
  }
}
