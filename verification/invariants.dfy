/**
  Properties that relate several operations: the entry shape every command
  and player event keeps, and the sequences of commands whose outcome the
  bot's behaviour promises.
 */
module Invariants {
  import opened Wrappers
  import opened Session
  import opened Advance
  import opened Commands

  lemma AdvanceKeepsValid(reg: Registry, g: GuildId, attempts: seq<bool>)
    requires ValidRegistry(reg - {g})
    requires Bound(Entry(reg, g))
    ensures ValidRegistry(AdvanceRun(reg, g, attempts).reg)
  {
    var r := AdvanceRun(reg, g, attempts);
    forall h | h in r.reg
      ensures Valid(r.reg[h])
    {
      if h != g {
        assert h in r.reg - {g};
        assert (reg - {g})[h] == r.reg[h];
      }
    }
  }

  /** Appending a song, by any of the three branches, keeps every entry well formed. */
  lemma EnqueueKeepsValid(reg: Registry, g: GuildId, channel: ChannelId, song: Song, attempts: seq<bool>)
    requires ValidRegistry(reg)
    ensures ValidRegistry(Enqueue(reg, g, channel, song, attempts).reg)
  {
    EntryValid(reg, g);
    var reg1 := Untouched(reg, g);
    var q := Entry(reg, g);
    var q2 := q.(songs := q.songs + [song]);
    assert reg1 - {g} == reg - {g};
    if q.connection != Connected {
      var joined := q2.(voiceChannel := Some(channel), connection := Connected, currentIndex := 0);
      assert reg1[g := joined] - {g} == reg - {g};
      AdvanceKeepsValid(reg1[g := joined], g, attempts);
    } else if q.player.Some? && q.player.value != Idle {
      assert Valid(q2);
    } else {
      var last := q2.(currentIndex := |q2.songs| - 1);
      assert reg1[g := last] - {g} == reg - {g};
      AdvanceKeepsValid(reg1[g := last], g, attempts);
    }
  }

  /** Moving the index of a connected, non-empty entry and advancing keeps every entry well formed. */
  lemma MoveKeepsValid(reg: Registry, g: GuildId, index: int, attempts: seq<bool>)
    requires ValidRegistry(reg)
    requires g in reg && reg[g].connection != NoConnection
    ensures ValidRegistry(AdvanceRun(reg[g := reg[g].(currentIndex := index)], g, attempts).reg)
  {
    assert Valid(reg[g]);
    assert reg[g := reg[g].(currentIndex := index)] - {g} == reg - {g};
    AdvanceKeepsValid(reg[g := reg[g].(currentIndex := index)], g, attempts);
  }

  lemma PlayKeepsValid(reg: Registry, g: GuildId, query: string, caller: Option<ChannelId>,
                       resolution: Resolution, attempts: seq<bool>)
    requires ValidRegistry(reg)
    ensures ValidRegistry(Play(reg, g, query, caller, resolution, attempts).reg)
  {
    EntryValid(reg, g);
    var q := Entry(reg, g);
    if |query| > 0 && caller.Some? && !BusyInOtherChannel(q, caller.value)
       && resolution.Resolved? && resolution.song.url != "" {
      EnqueueKeepsValid(Untouched(reg, g), g, caller.value, resolution.song, attempts);
    }
  }

  lemma PauseResumeKeepValid(reg: Registry, g: GuildId, caller: Option<ChannelId>)
    requires ValidRegistry(reg)
    ensures ValidRegistry(Pause(reg, g, caller).reg)
    ensures ValidRegistry(Resume(reg, g, caller).reg)
  {
    EntryValid(reg, g);
  }

  lemma SkipKeepsValid(reg: Registry, g: GuildId, caller: Option<ChannelId>, attempts: seq<bool>)
    requires ValidRegistry(reg)
    ensures ValidRegistry(Skip(reg, g, caller, attempts).reg)
  {
    EntryValid(reg, g);
    var q := Entry(reg, g);
    if q.connection != NoConnection && |q.songs| > 0 && !WrongVoiceChannel(q, caller) {
      MoveKeepsValid(Untouched(reg, g), g, q.currentIndex + 1, attempts);
    }
  }

  lemma PreviousKeepsValid(reg: Registry, g: GuildId, caller: Option<ChannelId>, attempts: seq<bool>)
    requires ValidRegistry(reg)
    ensures ValidRegistry(Previous(reg, g, caller, attempts).reg)
  {
    EntryValid(reg, g);
    var q := Entry(reg, g);
    if q.connection != NoConnection && |q.songs| > 0 && !WrongVoiceChannel(q, caller) && q.currentIndex > 0 {
      MoveKeepsValid(Untouched(reg, g), g, q.currentIndex - 1, attempts);
    }
  }

  /** No command leaves a malformed entry behind. */
  lemma DispatchKeepsValid(reg: Registry, g: GuildId, cmd: Command, caller: Option<ChannelId>, attempts: seq<bool>)
    requires ValidRegistry(reg)
    ensures ValidRegistry(Dispatch(reg, g, cmd, caller, attempts).reg)
  {
    EntryValid(reg, g);
    match cmd
    case PlayCmd(query, resolution) => PlayKeepsValid(reg, g, query, caller, resolution, attempts);
    case StopCmd =>
    case PauseCmd => PauseResumeKeepValid(reg, g, caller);
    case ResumeCmd => PauseResumeKeepValid(reg, g, caller);
    case SkipCmd => SkipKeepsValid(reg, g, caller, attempts);
    case PreviousCmd => PreviousKeepsValid(reg, g, caller, attempts);
    case QueueCmd =>
    case OtherCmd =>
  }

  /** Nor does a player event. */
  lemma PlayerEventKeepsValid(reg: Registry, g: GuildId, e: PlayerEvent, attempts: seq<bool>)
    requires ValidRegistry(reg)
    ensures ValidRegistry(OnPlayerEvent(reg, g, e, attempts).reg)
  {
    EntryValid(reg, g);
    var q := Entry(reg, g);
    var idle := if e == TrackFinished && q.player.Some? then Some(Idle) else q.player;
    var moved := reg[g := q.(player := idle, currentIndex := NextIndex(q))];
    assert moved - {g} == reg - {g};
    AdvanceKeepsValid(moved, g, attempts);
  }

  /**
    A play that starts playback runs the advance chain from index 0 after a
    rejoin, and from the new song otherwise; failed streams then retry or move
    on by the loop rule.
   */
  lemma EnqueueFollowsAdvance(reg: Registry, g: GuildId, channel: ChannelId, song: Song, attempts: seq<bool>)
    requires Enqueue(reg, g, channel, song, attempts).reply == StartRequested
    ensures var q := Entry(reg, g);
      ChainResult(Enqueue(reg, g, channel, song, attempts).reg, g, q.songs + [song], q.loop,
                  if q.connection != Connected then 0 else |q.songs|, attempts)
  {
    var reg1 := Untouched(reg, g);
    var q := Entry(reg, g);
    var q2 := q.(songs := q.songs + [song]);
    if q.connection != Connected {
      var joined := q2.(voiceChannel := Some(channel), connection := Connected, currentIndex := 0);
      assert Entry(reg1[g := joined], g) == joined;
      ChainFrom(reg1[g := joined], g, attempts);
    } else {
      var last := q2.(currentIndex := |q2.songs| - 1);
      assert Entry(reg1[g := last], g) == last;
      ChainFrom(reg1[g := last], g, attempts);
    }
  }

  /** Once its guards pass, a skip is the advance chain on the entry moved one song on. */
  lemma SkipMovesOn(reg: Registry, g: GuildId, caller: Option<ChannelId>, attempts: seq<bool>, moved: Registry)
    requires var q := Entry(reg, g);
      q.connection != NoConnection && |q.songs| > 0 && !WrongVoiceChannel(q, caller)
    requires moved == Untouched(reg, g)[g := Entry(reg, g).(currentIndex := Entry(reg, g).currentIndex + 1)]
    ensures Skip(reg, g, caller, attempts).reg == AdvanceRun(moved, g, attempts).reg
  {
  }

  /** A skip runs the advance chain from the next index, at the tail as in mid-queue. */
  lemma SkipFollowsAdvance(reg: Registry, g: GuildId, caller: Option<ChannelId>, attempts: seq<bool>)
    requires Skip(reg, g, caller, attempts).reply == Skipping || Skip(reg, g, caller, attempts).reply == EndOfQueue
    ensures var q := Entry(reg, g);
      ChainResult(Skip(reg, g, caller, attempts).reg, g, q.songs, q.loop, q.currentIndex + 1, attempts)
  {
    var q := Entry(reg, g);
    assert q.connection != NoConnection && |q.songs| > 0 && !WrongVoiceChannel(q, caller);
    var moved := Untouched(reg, g)[g := q.(currentIndex := q.currentIndex + 1)];
    SkipMovesOn(reg, g, caller, attempts, moved);
    assert Entry(moved, g) == q.(currentIndex := q.currentIndex + 1);
    ChainFrom(moved, g, attempts);
  }

  /** Going back runs the advance chain from the previous index. */
  lemma PreviousFollowsAdvance(reg: Registry, g: GuildId, caller: Option<ChannelId>, attempts: seq<bool>)
    requires Previous(reg, g, caller, attempts).reply == GoingBack
    ensures var q := Entry(reg, g);
      ChainResult(Previous(reg, g, caller, attempts).reg, g, q.songs, q.loop, q.currentIndex - 1, attempts)
  {
    var q := Entry(reg, g);
    var moved := Untouched(reg, g)[g := q.(currentIndex := q.currentIndex - 1)];
    assert Entry(moved, g) == q.(currentIndex := q.currentIndex - 1);
    ChainFrom(moved, g, attempts);
    assert Previous(reg, g, caller, attempts).reg == AdvanceRun(moved, g, attempts).reg;
  }

  /** Stopping twice: the first stop ends the session, the second finds nothing playing. */
  lemma StopTwice(reg: Registry, g: GuildId, caller: Option<ChannelId>)
    requires Stop(reg, g, caller).reply == StopDone
    ensures g !in Stop(reg, g, caller).reg
    ensures var again := Stop(Stop(reg, g, caller).reg, g, caller);
      again.reply == NothingPlaying && again.reg == (reg - {g})[g := Fresh]
  {
  }

  /** Pausing a playing song and resuming it gives back the state before the pause. */
  lemma PauseThenResume(reg: Registry, g: GuildId, caller: Option<ChannelId>)
    requires Pause(reg, g, caller).reply == PauseDone
    ensures var paused := Pause(reg, g, caller);
      Resume(paused.reg, g, caller).reply == ResumeDone && Resume(paused.reg, g, caller).reg == reg
  {
    var paused := Pause(reg, g, caller).reg;
    assert Entry(paused, g) == Entry(reg, g).(player := Some(Paused));
    assert paused[g := Entry(reg, g).(player := Some(Playing))] == reg;
  }

  /**
    Skipping forward from a song and then going back plays that song again at
    its old index, when both stream creations succeed.
   */
  lemma SkipThenPrevious(reg: Registry, g: GuildId, caller: Option<ChannelId>, a1: seq<bool>, a2: seq<bool>)
    requires g in reg && Valid(reg[g]) && InRange(reg[g])
    requires reg[g].currentIndex + 1 < |reg[g].songs|
    requires Skip(reg, g, caller, a1).reply == Skipping
    requires |a1| > 0 && a1[0] && |a2| > 0 && a2[0]
    ensures var s := Skip(reg, g, caller, a1).reg;
      var p := Previous(s, g, caller, a2);
      p.reply == GoingBack && g in p.reg
      && p.reg[g].currentIndex == reg[g].currentIndex
      && p.reg[g].songs == reg[g].songs && p.reg[g].player == Some(Playing)
  {
    var s := Skip(reg, g, caller, a1).reg;
    assert Entry(s, g).voiceChannel == reg[g].voiceChannel;
    assert Entry(s, g).currentIndex == reg[g].currentIndex + 1;
  }

  /** The first play in a guild with no session plays the new song at index 0. */
  lemma FirstPlayStartsAtZero(reg: Registry, g: GuildId, query: string, channel: ChannelId,
                              song: Song, attempts: seq<bool>)
    requires g !in reg
    requires |query| > 0 && song.url != "" && |attempts| > 0 && attempts[0]
    ensures var r := Play(reg, g, query, Some(channel), Resolved(song), attempts);
      r.reply == StartRequested && g in r.reg
      && r.reg[g].songs == [song] && r.reg[g].currentIndex == 0
      && r.reg[g].connection == Connected && r.reg[g].voiceChannel == Some(channel)
      && r.reg[g].player == Some(Playing)
  {
  }

  /**
    A song queued behind a playing one waits at position 2 with the index
    unchanged; when the first finishes (without looping) the second starts.
   */
  lemma QueueBehindThenFinish(reg: Registry, g: GuildId, query: string, channel: ChannelId,
                              song: Song, a1: seq<bool>, a2: seq<bool>)
    requires g in reg && Valid(reg[g]) && !reg[g].loop
    requires reg[g].connection == Connected && reg[g].voiceChannel == Some(channel)
    requires reg[g].player == Some(Playing) && reg[g].currentIndex == |reg[g].songs| - 1
    requires |query| > 0 && song.url != "" && |a2| > 0 && a2[0]
    ensures var p := Play(reg, g, query, Some(channel), Resolved(song), a1);
      && p.reply == Queued(|reg[g].songs| + 1)
      && p.reg[g].currentIndex == reg[g].currentIndex
      && var f := OnPlayerEvent(p.reg, g, TrackFinished, a2);
        f.outcome == Started(song) && f.reg[g].currentIndex == |reg[g].songs|
  {
    var p := Play(reg, g, query, Some(channel), Resolved(song), a1);
    assert p.reg == reg[g := reg[g].(songs := reg[g].songs + [song])];
  }

  /** A command the dispatcher refuses leaves an existing guild's state exactly as it was. */
  lemma RefusalsChangeNothing(reg: Registry, g: GuildId, cmd: Command, caller: Option<ChannelId>, attempts: seq<bool>)
    requires g in reg
    requires Dispatch(reg, g, cmd, caller, attempts).reply in
      {NeedQuery, NeedVoiceChannel, BusyElsewhere, NotFound, NoVideo, AddFailed,
       NothingPlaying, WrongChannel, NothingToPause, AlreadyPaused, CannotPause,
       NothingToResume, AlreadyPlaying, CannotResume, NothingToSkip, NoPrevious, AtFirstSong, QueueEmpty}
    ensures Dispatch(reg, g, cmd, caller, attempts).reg == reg
  {
  }
}
