# Per-guild music queue of a Discord bot, in Dafny

This project models the playback state machine of a single-file Discord music
bot (`index.js`). For each guild (Discord server), the bot keeps a queue record
in a global map (`guildQueues`). A record holds the bot's voice channel, the
voice connection, the audio player, the list of songs, the current index and a
loop flag. The model covers these parts:

- Lazy creation of a record by `getGuildQueue`.
- The advance procedure `playNextSong`. It either tears the session down or
  starts `songs[currentIndex]`. When a stream cannot be created, it retries the
  same song (loop on) or moves to the next one (loop off).
- The player's `Idle` and `error` listeners.
- The command branches `play`, `stop`, `pause`, `resume`, `skip`, `previous`
  and `queue`, reduced to their effect on the map and the kind of reply sent.

Discord objects become plain values:

- the connection is `NoConnection | Connected | Disconnected`;
- the player is an optional `Idle | Buffering | Playing | Paused | AutoPaused`;
- a song is a title and a URL;
- a voice channel is an opaque identifier.

Anything that succeeds or fails outside the program is an input. This covers
what a `play` query resolves to and whether each stream creation succeeds:
`attempts[i]` is the outcome of the i-th attempt of one advance chain. When
every given attempt fails, the chain stops as `Pending` in the state from which
it would try again.

Modules:

- `Wrappers`: `Option`.
- `Utf16`: JavaScript strings as UTF-16 code units, because `length` and
  `substring` count units.
- `Session`: the data model and `getGuildQueue`.
- `Advance`: `playNextSong` and the player events.
- `Listing`: the `queue` text.
- `Commands`: the command branches and a dispatcher.
- `Invariants`: properties that span several operations.

Behaviour of the code that a reader may not expect, and which the model keeps:

- Every command calls `getGuildQueue` first (index.js:131). So even a refused
  command leaves a fresh record for a guild that had none. "Unchanged" in the
  contracts means unchanged apart from that lazy creation (`Untouched`), and
  exactly unchanged for a guild that already had a record.
- Play with no connection, or with a disconnected one, rejoins and sets
  `currentIndex` to 0 (index.js:190). The comment on that line says index 0 is
  the song just added, which is true only when the queue was empty. After a disconnection
  with songs still queued, the model follows the code: playback restarts from
  the first song (`Commands.Enqueue`).
- The guard of stop, pause, resume, skip and previous lets through a caller who
  is in no voice channel. Only a caller in a different channel is refused.
- No command ever sets `loop`, so it stays `false` in every reachable record.
  The model keeps the flag, and the advance lemmas cover both values.

## Model

| member | source | states |
|---|---|---|
| `Session.GetGuildQueue` | index.js:22-34 | A missing guild gets the default record (no channel, connection or player, no songs, index -1, loop off). An existing record is returned and the map is unchanged. No other guild's entry changes. |
| `Session.EntryValid` | index.js:22-34 | The fresh record satisfies the record invariant, so lazy creation keeps every stored record well formed. |
| `Advance.AdvanceStep` | index.js:37-116 | One invocation tears down exactly when the index is outside `[0, len)`. It starts `songs[currentIndex]` exactly when the index is in range and the stream was created; the player is then Playing and the index is kept. On a failed stream, the index stays the same with loop on and grows by one with loop off. |
| `Advance.AdvanceRun` | index.js:37-116 | A chain of invocations never touches another guild. It deletes the guild's entry exactly when it tears down, and it tears down whenever the starting index is out of range. A surviving entry has an in-range index, the same songs, connection, channel and loop flag, and an index that never moves back (never moves at all with loop on). A started song is the one at the stored index. |
| `Advance.AdvanceWithoutLoop` | index.js:104-115 | With loop off, the chain equals the skip-ahead reference. With n leading failures, it starts the song n places further on, or tears down once the failures pass the end of the queue. The stored index grows by exactly n. |
| `Advance.AdvanceWithoutLoopSettles` | index.js:41-115 | With loop off, `len - currentIndex` attempts are always enough for the chain to start a song or tear down; it never stays pending. |
| `Advance.AdvanceWithLoop` | index.js:104-115 | With loop on, the chain only ever plays the current song. When every attempt fails it keeps retrying, and the entry is left exactly as it was. |
| `Advance.OnPlayerEvent` | index.js:75-96 | After an Idle or error event, other guilds are untouched. A surviving entry keeps its session, and its index is unchanged with loop on and at least one further with loop off. When the next stream is created, the song at the moved index plays. |
| `Advance.ChainFrom` | index.js:37-116 | Any advance chain from index `start` ends as follows. With loop on, the entry survives exactly when `start` names a song, and keeps that index. With loop off, it survives exactly when `start` plus the number of leading failed streams names a song, and stops at that index. A surviving entry whose chain had a stream created is Playing. |
| `Advance.PlayerEventFollowsAdvance` | index.js:75-96 | After an Idle or error event, the chain starts from the index the loop rule gives (the same index with loop on, the next with loop off). Every failed stream after that follows the same rule. |
| `Advance.LastSongFinishTearsDown` | index.js:41-83 | With loop off, the end of the last song in the queue deletes the guild's entry. |
| `Listing.DecimalRoundTrip` | index.js:322 | The numeral written for a position reads back as that position. |
| `Listing.LinesShape` | index.js:320-323 | There is one line per song, in queue order. Line k belongs to song k and is numbered k + 1. |
| `Listing.LineMarked` | index.js:322 | A line starts with the play marker exactly when it is the current song's line. |
| `Listing.LineNumbered` | index.js:322 | After the optional marker, a line starts with the decimal numeral of its 1-based position `index + 1`, and that numeral reads back as the position. |
| `Listing.ListingMarksCurrent` | index.js:320-323 | Among all song lines, exactly the line of `currentIndex` carries the marker. No line carries it when the index is out of range. |
| `Listing.Truncate` | index.js:326-328 | A text of at most 1900 code units is returned unchanged. A longer one becomes its first 1900 units followed by the fixed notice. |
| `Utf16.Encode` | index.js:326-327 | The text's length in JavaScript units is the number of characters plus one for every character outside the Basic Multilingual Plane. |
| `Utf16.DecodeEncode` | index.js:326-327 | Converting a string to code units loses nothing: decoding gives back the string. |
| `Commands.Enqueue` | index.js:179-199 | The song is appended to the end of the queue. With no live connection, the bot rejoins the caller's channel and, when the stream is created, plays from index 0. With a connected player that is not Idle, the song is only queued: the index is kept and the reply gives the position `len(songs)`. Otherwise the connection and voice channel are kept and, when the stream is created, the new song plays at index `len - 1`. |
| `Invariants.EnqueueFollowsAdvance` | index.js:179-199 | A play that starts playback runs the advance chain from index 0 after a rejoin, and from the new song otherwise. With loop on, the entry survives exactly when that index names a song, and keeps it. With loop off, each leading failed stream moves on one song, and the entry survives exactly when it lands on a song, at that index. |
| `Commands.Play` | index.js:133-208 | Checks run in this order: empty query, caller outside any voice channel, bot connected in another channel, then resolution. No search results replies "not found", a resolver error replies "could not add", and an empty URL replies "no video". Each refusal leaves the state untouched. A song is appended exactly when every check passes. |
| `Commands.Stop` | index.js:211-235 | With no connection or a disconnected one, the reply is "nothing playing" and nothing changes. A caller in another channel is refused. Otherwise the guild's entry is removed and nothing else changes. |
| `Commands.Pause` | index.js:237-254 | Only a Playing player becomes Paused, and only that status changes. A missing or Idle player, a caller in another channel, an already paused player and a Buffering or AutoPaused player each get their own reply, stated as if-and-only-if. All of them leave the state untouched. |
| `Commands.Resume` | index.js:256-273 | Only a Paused player becomes Playing. The refusals match those of pause, with "already playing" in place of "already paused". Each refusal's reply is stated as if-and-only-if and leaves the state untouched. |
| `Commands.Skip` | index.js:275-292 | A skip with no connection or an empty queue is refused and changes nothing. A caller in another channel is refused. From the last song, the skip ends the session. Exactly when `currentIndex + 1 < len`, the skip moves on: the queue, connection, voice channel and loop flag are kept, the index grows by at least one, and it grows by exactly one when the next stream is created. |
| `Invariants.SkipFollowsAdvance` | index.js:283-291 | Both skip branches run the advance chain from `currentIndex + 1`, with the same survive-or-tear-down rule for failed streams. |
| `Commands.Previous` | index.js:294-310 | A previous is refused with no connection or an empty queue, and a caller in another channel is refused. At index 0 or below, nothing changes. Exactly when the index is above 0, it goes back, keeping the queue, connection, voice channel and loop flag, and the previous song plays at index - 1 when its stream is created. |
| `Invariants.PreviousFollowsAdvance` | index.js:303-306 | Going back runs the advance chain from `currentIndex - 1`, with the same survive-or-tear-down rule for failed streams. |
| `Commands.ShowQueue` | index.js:312-331 | Never changes state. It replies "empty" exactly when the queue has no songs; otherwise it returns the listing, whole when it fits and never longer than 1900 units plus the notice. |
| `Commands.Dispatch` | index.js:122-332 | Any message for one guild leaves every other guild's entry as it was. |
| `Invariants.DispatchKeepsValid` | index.js:133-331 | Every command keeps every record well formed. The index is -1 or in range, a channel is recorded exactly when a connection is, and a record without a connection is still the fresh one. |
| `Invariants.PlayerEventKeepsValid` | index.js:75-96 | The player listeners keep every record well formed. |
| `Invariants.StopTwice` | index.js:211-235 | After a successful stop, a second stop replies "nothing playing" and leaves only a fresh record. |
| `Invariants.PauseThenResume` | index.js:237-273 | Pausing a playing song and then resuming it restores the exact state from before the pause. |
| `Invariants.SkipThenPrevious` | index.js:275-310 | When both streams are created, skipping forward and then going back plays the original song at its original index again. |
| `Invariants.FirstPlayStartsAtZero` | index.js:179-191 | When the stream is created, the first play in a guild without a record plays the new song at index 0, connected to the caller's channel. |
| `Invariants.QueueBehindThenFinish` | index.js:75-199 | A song played while the last song is still playing is queued at position `len + 1` and the index is kept. When the current song finishes with loop off and the next stream is created, the new song starts at the next index. |
| `Invariants.RefusalsChangeNothing` | index.js:133-331 | For a guild that already has a record, every refusal reply of every command leaves the map exactly as it was. |

## Left out

- The Discord client, login, message parsing and prefix handling, and console logging (index.js:1-16, 118-128, 334). These are I/O. A command arrives as a `Command` value with the caller's voice channel.
- Reply and notification texts. Only the reply kind is kept. The "found" message of a search (index.js:172) and the channel notifications of playNextSong are not modelled. The "queue exhausted" notice can never be sent anyway, because `voiceChannel` is cleared at index.js:45 before the test at index.js:55.
- The two error replies of the catch block at index.js:201-207 ("No video id found" or any other error) are one reply kind, `AddFailed`.
- The YouTube URL test (index.js:154) and the resolvers `ytdl.getInfo` and `ytsr.search`. They only choose how a query is resolved, and their result is the `Resolution` input.
- `joinVoiceChannel`, `createAudioPlayer`, `createAudioResource`, `subscribe` and `ytdl` streams are foreign calls. Joining makes the connection `Connected`. A started song makes the player `Playing`: the short Buffering phase the player passes through is not produced. A failure anywhere in the try block of playNextSong is one failed attempt.
- Which connection the player is subscribed to. The player is subscribed only when it is created (index.js:70-72), so after a rejoin it stays subscribed to the old connection. Audio routing is outside the model.
- Connection state changes (a connection becoming disconnected) happen outside the program. The model takes the connection state it is given.
- Asynchronous ordering and re-entrancy. This covers:
  - listeners that captured a record that has since been deleted;
  - the Idle event that `player.stop()` raises inside stop and teardown;
  - races between player events and commands.
  The model treats events and commands as sequential transitions. An event for a guild without a record acts on a fresh record, which the advance removes again.
- Retries beyond the given attempts. With loop on, a song whose stream always fails makes the source retry forever. The model stops after the attempts it is given and reports `Pending`.
- Commands.ShowQueue: for a listing longer than 1900 units, its contract states only the length bound. The exact truncated text is stated by `Listing.Truncate`, which ShowQueue applies to the full text.
