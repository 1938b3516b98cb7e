/**
  `playNextSong` and the two player listeners it installs. One invocation
  either tears the session down or tries to start `songs[currentIndex]`; when
  creating the stream fails, it moves the index by the loop rule and invokes
  itself again. Whether each stream creation succeeds is outside the program,
  so a run takes the outcome of every attempt as input.
 */
module Advance {
  import opened Wrappers
  import opened Session

  /** What one invocation of playNextSong does. */
  datatype Step = Teardown | Start(song: Song, next: GuildQueue) | Retry(next: GuildQueue)

  /**
    The index after a finished track, a player error or a failed stream:
    unchanged when looping, one further otherwise.
   */
  function NextIndex(q: GuildQueue): int {
    if q.loop then q.currentIndex else q.currentIndex + 1
  }

  /** One invocation of playNextSong, given whether the stream could be created. */
  function AdvanceStep(q: GuildQueue, streamOk: bool): (s: Step)
    ensures s.Teardown? <==> !InRange(q)
    ensures s.Start? <==> InRange(q) && streamOk
    ensures s.Start? ==>
      && s.song == q.songs[q.currentIndex]
      && SameSession(q, s.next) && s.next.currentIndex == q.currentIndex
      && s.next.player == Some(Playing)
    ensures s.Retry? ==>
      && SameSession(q, s.next) && s.next.player == q.player
      && (q.loop ==> s.next.currentIndex == q.currentIndex)
      && (!q.loop ==> s.next.currentIndex == q.currentIndex + 1)
  {
    if !InRange(q) then Teardown
    else if streamOk then Start(q.songs[q.currentIndex], q.(player := Some(Playing)))
    else Retry(q.(currentIndex := NextIndex(q)))
  }

  /** Where a chain of playNextSong invocations ended. */
  datatype Outcome =
    | TornDown        // index out of range: connection destroyed, entry deleted
    | Started(song: Song)
    | Pending         // every given attempt failed and the chain would go on

  datatype Advanced = Advanced(reg: Registry, outcome: Outcome)

  /**
    playNextSong(g) followed by the re-invocations its failures cause, with
    `attempts[i]` the success of the i-th stream creation.
   */
  function AdvanceRun(reg: Registry, g: GuildId, attempts: seq<bool>): (r: Advanced)
    decreases |attempts|
    ensures r.reg - {g} == reg - {g}
    ensures r.outcome.TornDown? <==> g !in r.reg
    ensures !InRange(Entry(reg, g)) ==> r.outcome.TornDown?
    ensures g in r.reg ==>
      && InRange(r.reg[g])
      && SameSession(Entry(reg, g), r.reg[g])
      && r.reg[g].currentIndex >= Entry(reg, g).currentIndex
      && (Entry(reg, g).loop ==> r.reg[g].currentIndex == Entry(reg, g).currentIndex)
    ensures r.outcome.Started? ==>
      g in r.reg && r.outcome.song == r.reg[g].songs[r.reg[g].currentIndex]
      && r.reg[g].player == Some(Playing)
  {
    var q := Entry(reg, g);
    if |attempts| == 0 then
      if InRange(q) then Advanced(reg[g := q], Pending) else Advanced(reg - {g}, TornDown)
    else
      match AdvanceStep(q, attempts[0])
      case Teardown => Advanced(reg - {g}, TornDown)
      case Start(song, next) => Advanced(reg[g := next], Started(song))
      case Retry(next) => AdvanceRun(reg[g := next], g, attempts[1..])
  }

  /** Number of failed attempts before the first success (all of them if none succeeds). */
  function LeadingFailures(attempts: seq<bool>): (n: nat)
    ensures n <= |attempts|
    ensures forall i :: 0 <= i < n ==> !attempts[i]
    ensures n < |attempts| ==> attempts[n]
  {
    if |attempts| == 0 || attempts[0] then 0 else 1 + LeadingFailures(attempts[1..])
  }

  /**
    Reference outcome without looping: every failure moves on one song, so the
    first success plays the song that many places further on, unless the
    failures have already run past the end of the queue.
   */
  function SkipAheadOutcome(q: GuildQueue, attempts: seq<bool>): Outcome {
    var n := LeadingFailures(attempts);
    if !InRange(q) || q.currentIndex + n >= |q.songs| then TornDown
    else if n < |attempts| then Started(q.songs[q.currentIndex + n])
    else Pending
  }

  /** Without looping the chain of invocations is exactly the skip-ahead reference. */
  lemma {:induction false} AdvanceWithoutLoop(reg: Registry, g: GuildId, attempts: seq<bool>)
    requires !Entry(reg, g).loop
    ensures AdvanceRun(reg, g, attempts).outcome == SkipAheadOutcome(Entry(reg, g), attempts)
    ensures var r := AdvanceRun(reg, g, attempts);
      g in r.reg ==> r.reg[g].currentIndex == Entry(reg, g).currentIndex + LeadingFailures(attempts)
    decreases |attempts|
  {
    var q := Entry(reg, g);
    if |attempts| > 0 && InRange(q) && !attempts[0] {
      var next := q.(currentIndex := q.currentIndex + 1);
      AdvanceWithoutLoop(reg[g := next], g, attempts[1..]);
      assert Entry(reg[g := next], g) == next;
      assert LeadingFailures(attempts) == 1 + LeadingFailures(attempts[1..]);
    }
  }

  /**
    Without looping the chain always settles once there are as many attempts
    as songs from the current one to the end: it starts a song or tears down.
   */
  lemma AdvanceWithoutLoopSettles(reg: Registry, g: GuildId, attempts: seq<bool>)
    requires !Entry(reg, g).loop
    requires |attempts| >= |Entry(reg, g).songs| - Entry(reg, g).currentIndex
    ensures !AdvanceRun(reg, g, attempts).outcome.Pending?
  {
    AdvanceWithoutLoop(reg, g, attempts);
  }

  /** Reference outcome with looping: the same song is retried until an attempt succeeds. */
  function RetrySameOutcome(q: GuildQueue, attempts: seq<bool>): Outcome {
    if !InRange(q) then TornDown
    else if true in attempts then Started(q.songs[q.currentIndex])
    else Pending
  }

  /** With looping, a chain never leaves the current song: it plays it or keeps retrying. */
  lemma {:induction false} AdvanceWithLoop(reg: Registry, g: GuildId, attempts: seq<bool>)
    requires Entry(reg, g).loop
    ensures AdvanceRun(reg, g, attempts).outcome == RetrySameOutcome(Entry(reg, g), attempts)
    ensures var r := AdvanceRun(reg, g, attempts);
      !(true in attempts) && InRange(Entry(reg, g)) ==> r.reg == reg[g := Entry(reg, g)]
    decreases |attempts|
  {
    var q := Entry(reg, g);
    if |attempts| > 0 && InRange(q) && !attempts[0] {
      assert Entry(reg[g := q], g) == q;
      AdvanceWithLoop(reg[g := q], g, attempts[1..]);
      assert true in attempts <==> true in attempts[1..] by {
        assert attempts == [attempts[0]] + attempts[1..];
      }
      assert reg[g := q][g := q] == reg[g := q];
    }
  }

  /**
    What a chain started at index `start` of `songs` leaves for guild `g`:
    with looping, the entry survives exactly when `start` names a song and
    keeps that index; without, every leading failure moves on one song and the
    entry survives exactly when that lands on a song. A surviving entry whose
    chain had a stream created is playing.
   */
  predicate ChainResult(r: Registry, g: GuildId, songs: seq<Song>, loop: bool, start: int, attempts: seq<bool>) {
    var stop := if loop then start else start + LeadingFailures(attempts);
    && (g in r <==> 0 <= start && stop < |songs|)
    && (g in r ==> r[g].currentIndex == stop && r[g].songs == songs)
    && (g in r && (if loop then true in attempts else LeadingFailures(attempts) < |attempts|) ==>
          r[g].player == Some(Playing))
  }

  /** Every chain ends as ChainResult says, whatever the outcomes of its attempts. */
  lemma ChainFrom(reg: Registry, g: GuildId, attempts: seq<bool>)
    ensures var q := Entry(reg, g);
      ChainResult(AdvanceRun(reg, g, attempts).reg, g, q.songs, q.loop, q.currentIndex, attempts)
  {
    if Entry(reg, g).loop {
      AdvanceWithLoop(reg, g, attempts);
    } else {
      AdvanceWithoutLoop(reg, g, attempts);
    }
  }

  /** Events of the guild's audio player that the listeners react to. */
  datatype PlayerEvent =
    | TrackFinished   // the player went Idle
    | TrackFailed     // the player emitted 'error'

  /**
    The Idle and error listeners: move the index by the loop rule, then call
    playNextSong again. An Idle event also leaves the player Idle.
   */
  function OnPlayerEvent(reg: Registry, g: GuildId, e: PlayerEvent, attempts: seq<bool>): (r: Advanced)
    ensures r.reg - {g} == reg - {g}
    ensures var q := Entry(reg, g);
      g in r.reg ==>
        && SameSession(q, r.reg[g])
        && (q.loop ==> r.reg[g].currentIndex == q.currentIndex)
        && (!q.loop ==> r.reg[g].currentIndex >= q.currentIndex + 1)
    ensures var q := Entry(reg, g);
      |attempts| > 0 && attempts[0] && 0 <= NextIndex(q) < |q.songs| ==>
        && r.outcome == Started(q.songs[NextIndex(q)])
        && g in r.reg && r.reg[g].currentIndex == NextIndex(q)
  {
    var q := Entry(reg, g);
    var idle := if e == TrackFinished && q.player.Some? then Some(Idle) else q.player;
    AdvanceRun(reg[g := q.(player := idle, currentIndex := NextIndex(q))], g, attempts)
  }

  /**
    After an Idle or error event, the chain starts from the index the loop
    rule gives, and every failed stream after it follows the same rule.
   */
  lemma PlayerEventFollowsAdvance(reg: Registry, g: GuildId, e: PlayerEvent, attempts: seq<bool>)
    ensures var q := Entry(reg, g);
      ChainResult(OnPlayerEvent(reg, g, e, attempts).reg, g, q.songs, q.loop, NextIndex(q), attempts)
  {
    var q := Entry(reg, g);
    var idle := if e == TrackFinished && q.player.Some? then Some(Idle) else q.player;
    var moved := reg[g := q.(player := idle, currentIndex := NextIndex(q))];
    assert Entry(moved, g) == q.(player := idle, currentIndex := NextIndex(q));
    ChainFrom(moved, g, attempts);
  }

  /** A single song that finishes without looping ends the session. */
  lemma LastSongFinishTearsDown(reg: Registry, g: GuildId, e: PlayerEvent, attempts: seq<bool>)
    requires g in reg && !reg[g].loop && reg[g].currentIndex == |reg[g].songs| - 1
    ensures OnPlayerEvent(reg, g, e, attempts).outcome == TornDown
    ensures OnPlayerEvent(reg, g, e, attempts).reg == reg - {g}
  {
  }
}
