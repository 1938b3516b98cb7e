/**
  The `messageCreate` branches for play, stop, pause, resume, skip, previous
  and queue, reduced to their effect on the registry and the kind of reply
  they send. Every command first calls `getGuildQueue`, so even a refused
  command leaves the guild with an entry.
 */
module Commands {
  import opened Wrappers
  import opened Utf16
  import opened Session
  import opened Advance
  import opened Listing

  /** What the resolver made of a `play` query. */
  datatype Resolution =
    | Resolved(song: Song)   // a video URL and its title
    | NoSearchResults        // the search returned nothing
    | ResolveFailed          // the resolver threw

  /** The kind of message a command answers with (texts are not modelled). */
  datatype Reply =
    | NeedQuery | NeedVoiceChannel | BusyElsewhere | NotFound | NoVideo | AddFailed
    | Queued(position: nat) | StartRequested
    | NothingPlaying | WrongChannel | StopDone
    | NothingToPause | AlreadyPaused | PauseDone | CannotPause
    | NothingToResume | AlreadyPlaying | ResumeDone | CannotResume
    | NothingToSkip | Skipping | EndOfQueue
    | NoPrevious | GoingBack | AtFirstSong
    | QueueEmpty | QueueText(text: seq<CodeUnit>)
    | Ignored

  datatype CommandResult = CommandResult(reg: Registry, reply: Reply)

  /**
    The guard of stop, pause, resume, skip and previous: a caller in some
    voice channel other than the session's is refused; a caller in no voice
    channel, or a session with no channel, passes.
   */
  predicate WrongVoiceChannel(q: GuildQueue, caller: Option<ChannelId>) {
    caller.Some? && q.voiceChannel.Some? && caller.value != q.voiceChannel.value
  }

  /** The guard of play: the bot holds a connection in a channel other than the caller's. */
  predicate BusyInOtherChannel(q: GuildQueue, channel: ChannelId) {
    q.connection != NoConnection && q.voiceChannel.Some? && q.voiceChannel.value != channel
  }

  /** The registry a refused command leaves behind: only the lazily created entry. */
  function Untouched(reg: Registry, g: GuildId): Registry {
    GetGuildQueue(reg, g).0
  }

  /**
    Appending a resolved song and choosing how to go on: reconnect and restart
    from the first song, only queue it behind a busy player, or play it now.
   */
  function Enqueue(reg: Registry, g: GuildId, channel: ChannelId, song: Song, attempts: seq<bool>): (r: CommandResult)
    ensures r.reg - {g} == reg - {g}
    ensures var q := Entry(reg, g);
      g in r.reg ==> r.reg[g].songs == q.songs + [song] && r.reg[g].loop == q.loop
    ensures var q := Entry(reg, g);
      r.reply.Queued? <==> q.connection == Connected && q.player.Some? && q.player.value != Idle
    ensures var q := Entry(reg, g);
      r.reply.Queued? ==>
        && r.reply.position == |q.songs| + 1
        && g in r.reg && r.reg[g].songs[r.reply.position - 1] == song
        && r.reg[g] == q.(songs := r.reg[g].songs)
    ensures !r.reply.Queued? ==> r.reply == StartRequested
    ensures var q := Entry(reg, g);
      r.reply == StartRequested && q.connection != Connected ==>
        && (g in r.reg ==> r.reg[g].connection == Connected && r.reg[g].voiceChannel == Some(channel))
        && (|attempts| > 0 && attempts[0] ==>
              g in r.reg && r.reg[g].currentIndex == 0 && r.reg[g].player == Some(Playing))
    ensures var q := Entry(reg, g);
      r.reply == StartRequested && q.connection == Connected && |attempts| > 0 && attempts[0] ==>
        && g in r.reg && r.reg[g].currentIndex == |q.songs|
        && r.reg[g].songs[r.reg[g].currentIndex] == song && r.reg[g].player == Some(Playing)
    ensures var q := Entry(reg, g);
      r.reply == StartRequested && q.connection == Connected && g in r.reg ==>
        r.reg[g].connection == Connected && r.reg[g].voiceChannel == q.voiceChannel
  {
    var (reg1, q) := GetGuildQueue(reg, g);
    var q2 := q.(songs := q.songs + [song]);
    if q.connection != Connected then
      var joined := q2.(voiceChannel := Some(channel), connection := Connected, currentIndex := 0);
      CommandResult(AdvanceRun(reg1[g := joined], g, attempts).reg, StartRequested)
    else if q.player.Some? && q.player.value != Idle then
      CommandResult(reg1[g := q2], Queued(|q2.songs|))
    else
      CommandResult(AdvanceRun(reg1[g := q2.(currentIndex := |q2.songs| - 1)], g, attempts).reg, StartRequested)
  }

  /** `!play <query>`: the checks before the song is appended, then Enqueue. */
  function Play(reg: Registry, g: GuildId, query: string, caller: Option<ChannelId>,
                resolution: Resolution, attempts: seq<bool>): (r: CommandResult)
    ensures r.reg - {g} == reg - {g}
    ensures r.reply == NeedQuery <==> |query| == 0
    ensures r.reply == NeedVoiceChannel <==> |query| > 0 && caller.None?
    ensures r.reply == BusyElsewhere <==>
      |query| > 0 && caller.Some? && BusyInOtherChannel(Entry(reg, g), caller.value)
    ensures (r.reply.Queued? || r.reply == StartRequested) <==>
      && |query| > 0 && caller.Some? && !BusyInOtherChannel(Entry(reg, g), caller.value)
      && resolution.Resolved? && resolution.song.url != ""
    ensures |query| > 0 && caller.Some? && !BusyInOtherChannel(Entry(reg, g), caller.value) ==>
      && (resolution.NoSearchResults? ==> r.reply == NotFound)
      && (resolution.ResolveFailed? ==> r.reply == AddFailed)
      && (resolution.Resolved? && resolution.song.url == "" ==> r.reply == NoVideo)
    ensures !(r.reply.Queued? || r.reply == StartRequested) ==> r.reg == Untouched(reg, g)
    ensures (r.reply.Queued? || r.reply == StartRequested) && g in r.reg ==>
      r.reg[g].songs == Entry(reg, g).songs + [resolution.song]
  {
    var (reg1, q) := GetGuildQueue(reg, g);
    if |query| == 0 then CommandResult(reg1, NeedQuery)
    else if caller.None? then CommandResult(reg1, NeedVoiceChannel)
    else if BusyInOtherChannel(q, caller.value) then CommandResult(reg1, BusyElsewhere)
    else
      match resolution
      case NoSearchResults => CommandResult(reg1, NotFound)
      case ResolveFailed => CommandResult(reg1, AddFailed)
      case Resolved(song) =>
        if song.url == "" then CommandResult(reg1, NoVideo)
        else Enqueue(reg1, g, caller.value, song, attempts)
  }

  /** `!stop`: tear the session down when there is a live connection. */
  function Stop(reg: Registry, g: GuildId, caller: Option<ChannelId>): (r: CommandResult)
    ensures r.reply in {NothingPlaying, WrongChannel, StopDone}
    ensures r.reply == NothingPlaying <==> Entry(reg, g).connection != Connected
    ensures r.reply == WrongChannel <==>
      Entry(reg, g).connection == Connected && WrongVoiceChannel(Entry(reg, g), caller)
    ensures r.reply == StopDone ==> r.reg == reg - {g}
    ensures r.reply != StopDone ==> r.reg == Untouched(reg, g)
  {
    var (reg1, q) := GetGuildQueue(reg, g);
    if q.connection != Connected then CommandResult(reg1, NothingPlaying)
    else if WrongVoiceChannel(q, caller) then CommandResult(reg1, WrongChannel)
    else CommandResult(reg1 - {g}, StopDone)
  }

  /** `!pause`: only a Playing player is paused; every other case changes nothing. */
  function Pause(reg: Registry, g: GuildId, caller: Option<ChannelId>): (r: CommandResult)
    ensures var q := Entry(reg, g);
      r.reply == NothingToPause <==> q.player.None? || q.player.value == Idle
    ensures var q := Entry(reg, g);
      r.reply == WrongChannel <==> q.player.Some? && q.player.value != Idle && WrongVoiceChannel(q, caller)
    ensures var q := Entry(reg, g);
      r.reply == CannotPause <==>
        q.player.Some? && q.player.value in {Buffering, AutoPaused} && !WrongVoiceChannel(q, caller)
    ensures var q := Entry(reg, g);
      r.reply == PauseDone <==> q.player == Some(Playing) && !WrongVoiceChannel(q, caller)
    ensures var q := Entry(reg, g);
      r.reply == AlreadyPaused <==> q.player == Some(Paused) && !WrongVoiceChannel(q, caller)
    ensures r.reply == PauseDone ==>
      r.reg == reg[g := Entry(reg, g).(player := Some(Paused))]
    ensures r.reply != PauseDone ==> r.reg == Untouched(reg, g)
  {
    var (reg1, q) := GetGuildQueue(reg, g);
    if q.player.None? || q.player.value == Idle then CommandResult(reg1, NothingToPause)
    else if WrongVoiceChannel(q, caller) then CommandResult(reg1, WrongChannel)
    else if q.player.value == Paused then CommandResult(reg1, AlreadyPaused)
    else if q.player.value == Playing then CommandResult(reg1[g := q.(player := Some(Paused))], PauseDone)
    else CommandResult(reg1, CannotPause)
  }

  /** `!resume`: only a Paused player resumes; every other case changes nothing. */
  function Resume(reg: Registry, g: GuildId, caller: Option<ChannelId>): (r: CommandResult)
    ensures var q := Entry(reg, g);
      r.reply == NothingToResume <==> q.player.None? || q.player.value == Idle
    ensures var q := Entry(reg, g);
      r.reply == WrongChannel <==> q.player.Some? && q.player.value != Idle && WrongVoiceChannel(q, caller)
    ensures var q := Entry(reg, g);
      r.reply == CannotResume <==>
        q.player.Some? && q.player.value in {Buffering, AutoPaused} && !WrongVoiceChannel(q, caller)
    ensures var q := Entry(reg, g);
      r.reply == ResumeDone <==> q.player == Some(Paused) && !WrongVoiceChannel(q, caller)
    ensures var q := Entry(reg, g);
      r.reply == AlreadyPlaying <==> q.player == Some(Playing) && !WrongVoiceChannel(q, caller)
    ensures r.reply == ResumeDone ==>
      r.reg == reg[g := Entry(reg, g).(player := Some(Playing))]
    ensures r.reply != ResumeDone ==> r.reg == Untouched(reg, g)
  {
    var (reg1, q) := GetGuildQueue(reg, g);
    if q.player.None? || q.player.value == Idle then CommandResult(reg1, NothingToResume)
    else if WrongVoiceChannel(q, caller) then CommandResult(reg1, WrongChannel)
    else if q.player.value == Playing then CommandResult(reg1, AlreadyPlaying)
    else if q.player.value == Paused then CommandResult(reg1[g := q.(player := Some(Playing))], ResumeDone)
    else CommandResult(reg1, CannotResume)
  }

  /** `!skip`: move one song on; past the last song this ends the session. */
  function Skip(reg: Registry, g: GuildId, caller: Option<ChannelId>, attempts: seq<bool>): (r: CommandResult)
    ensures r.reg - {g} == reg - {g}
    ensures var q := Entry(reg, g);
      r.reply == NothingToSkip <==> q.connection == NoConnection || |q.songs| == 0
    ensures var q := Entry(reg, g);
      r.reply == WrongChannel <==>
        q.connection != NoConnection && |q.songs| > 0 && WrongVoiceChannel(q, caller)
    ensures r.reply in {NothingToSkip, WrongChannel} ==> r.reg == Untouched(reg, g)
    ensures var q := Entry(reg, g);
      r.reply == EndOfQueue <==>
        q.connection != NoConnection && |q.songs| > 0 && !WrongVoiceChannel(q, caller)
        && q.currentIndex + 1 >= |q.songs|
    ensures r.reply == EndOfQueue ==> r.reg == reg - {g}
    ensures var q := Entry(reg, g);
      r.reply == Skipping <==>
        q.connection != NoConnection && |q.songs| > 0 && !WrongVoiceChannel(q, caller)
        && q.currentIndex + 1 < |q.songs|
    ensures var q := Entry(reg, g);
      r.reply == Skipping ==>
        g in r.reg ==> r.reg[g].songs == q.songs && r.reg[g].currentIndex >= q.currentIndex + 1
    ensures var q := Entry(reg, g);
      r.reply == Skipping && g in r.reg ==> SameSession(q, r.reg[g])
    ensures var q := Entry(reg, g);
      r.reply == Skipping && q.currentIndex >= -1 && |attempts| > 0 && attempts[0] ==>
        && g in r.reg && r.reg[g].currentIndex == q.currentIndex + 1
        && r.reg[g].player == Some(Playing)
  {
    var (reg1, q) := GetGuildQueue(reg, g);
    if q.connection == NoConnection || |q.songs| == 0 then CommandResult(reg1, NothingToSkip)
    else if WrongVoiceChannel(q, caller) then CommandResult(reg1, WrongChannel)
    else
      var reply := if q.currentIndex + 1 < |q.songs| then Skipping else EndOfQueue;
      CommandResult(AdvanceRun(reg1[g := q.(currentIndex := q.currentIndex + 1)], g, attempts).reg, reply)
  }

  /** `!previous`: move one song back, unless already at the first one. */
  function Previous(reg: Registry, g: GuildId, caller: Option<ChannelId>, attempts: seq<bool>): (r: CommandResult)
    ensures r.reg - {g} == reg - {g}
    ensures var q := Entry(reg, g);
      r.reply == NoPrevious <==> q.connection == NoConnection || |q.songs| == 0
    ensures var q := Entry(reg, g);
      r.reply == WrongChannel <==>
        q.connection != NoConnection && |q.songs| > 0 && WrongVoiceChannel(q, caller)
    ensures var q := Entry(reg, g);
      r.reply == GoingBack <==>
        q.connection != NoConnection && |q.songs| > 0 && !WrongVoiceChannel(q, caller)
        && q.currentIndex > 0
    ensures var q := Entry(reg, g);
      r.reply == AtFirstSong <==>
        q.connection != NoConnection && |q.songs| > 0 && !WrongVoiceChannel(q, caller)
        && q.currentIndex <= 0
    ensures r.reply != GoingBack ==> r.reg == Untouched(reg, g)
    ensures var q := Entry(reg, g);
      r.reply == GoingBack && g in r.reg ==> SameSession(q, r.reg[g])
    ensures var q := Entry(reg, g);
      r.reply == GoingBack && q.currentIndex <= |q.songs| && |attempts| > 0 && attempts[0] ==>
        && g in r.reg && r.reg[g].currentIndex == q.currentIndex - 1
        && r.reg[g].songs == q.songs && r.reg[g].player == Some(Playing)
  {
    var (reg1, q) := GetGuildQueue(reg, g);
    if q.connection == NoConnection || |q.songs| == 0 then CommandResult(reg1, NoPrevious)
    else if WrongVoiceChannel(q, caller) then CommandResult(reg1, WrongChannel)
    else if q.currentIndex > 0 then
      CommandResult(AdvanceRun(reg1[g := q.(currentIndex := q.currentIndex - 1)], g, attempts).reg, GoingBack)
    else CommandResult(reg1, AtFirstSong)
  }

  /** `!queue`: the listing, or the empty-queue reply; never changes state. */
  function ShowQueue(reg: Registry, g: GuildId): (r: CommandResult)
    ensures r.reg == Untouched(reg, g)
    ensures r.reply == QueueEmpty <==> |Entry(reg, g).songs| == 0
    ensures r.reply != QueueEmpty ==> r.reply.QueueText?
    ensures r.reply.QueueText? && |FullText(Entry(reg, g).songs, Entry(reg, g).currentIndex)| <= MaxLength ==>
      r.reply.text == FullText(Entry(reg, g).songs, Entry(reg, g).currentIndex)
    ensures r.reply.QueueText? ==>
      |r.reply.text| <= MaxLength + |NoticeUnits|
  {
    var (reg1, q) := GetGuildQueue(reg, g);
    if |q.songs| == 0 then CommandResult(reg1, QueueEmpty)
    else CommandResult(reg1, QueueText(Truncate(FullText(q.songs, q.currentIndex), NoticeUnits)))
  }

  datatype Command =
    | PlayCmd(query: string, resolution: Resolution)
    | StopCmd | PauseCmd | ResumeCmd | SkipCmd | PreviousCmd | QueueCmd
    | OtherCmd   // any other word after the prefix

  /** One message for guild `g` from a member in voice channel `caller` (if any). */
  function Dispatch(reg: Registry, g: GuildId, cmd: Command, caller: Option<ChannelId>,
                    attempts: seq<bool>): (r: CommandResult)
    ensures r.reg - {g} == reg - {g}
  {
    match cmd
    case PlayCmd(query, resolution) => Play(reg, g, query, caller, resolution, attempts)
    case StopCmd => Stop(reg, g, caller)
    case PauseCmd => Pause(reg, g, caller)
    case ResumeCmd => Resume(reg, g, caller)
    case SkipCmd => Skip(reg, g, caller, attempts)
    case PreviousCmd => Previous(reg, g, caller, attempts)
    case QueueCmd => ShowQueue(reg, g)
    case OtherCmd => CommandResult(Untouched(reg, g), Ignored)
  }
}
