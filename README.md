# HueBotJava playback core in Dafny

HueBotJava is a Discord music bot. Each guild has a player that owns a
playback queue. The bot resolves links into audio tracks, plays them through
an audio engine, and keeps a status message with buttons in sync with the
player. This project models the bot's playback core and proves properties of
the model:

- **The queue** (`BotQueue`, in the newer `io.github.foloke.player` package
  and the legacy `org.example` package). It holds three track lists that
  change in place: every track ever added, the tracks still to play, and
  clones of the tracks already played. It also remembers the last track
  started.
  - Its operations are `next` with its repeat-track, pop, repeat-queue refill
    and exhausted branches, plus `previous`, `rewind`, `shuffle` and `clear`.
  - It also handles the load and track-end callbacks and answers the length
    and link queries.
- **The repeat toggle** (`BotRepeatState.getNextState`).
- **The player façades.** `BotGuildPlayer` has a float volume that ramps
  towards its target. The legacy `BotPlayer` has a Java `int` volume.
  - Both have the play/pause/start toggle, skip, and the rewind window of
    "previous".
  - Both have volume stepping, the repeat toggles and unload.
- **The four status updaters** (two `BotGuildPlayerUpdater` classes and two
  `BotGifUpdater` classes). Each tick of an updater does the following:
  - counts the rewind window down;
  - compares the player with the snapshot it last rendered;
  - commits a new snapshot;
  - chooses the display text.

  The updaters also attach and replace the status message.
- **Loading.** `BotQueueAudioLoader` collects load errors.
  `AddToQueueException` carries those errors to the caller.
- **Services.**
  - `BotPlayersHolder` is the per-guild registry. It creates a player once and
    loads the configured default tracks into it.
  - `BotPlayerService` connects a player to the member's voice channel, adds a
    track, composes the reply, creates the player message and lays out the
    buttons.
  - The search command numbers its results and encodes one button id per
    result. The choose-track button decodes that id again.

Each class whose fields the Java code mutates is a Dafny `class` with those
fields. The queue's `LinkedList`s are `seq` fields. Every queue method is
proved to change the queue and engine state exactly as a function of
`QueueSpec` says. What the source promises is then proved about those
functions as lemmas in `QueueLaws`, `PlayerRules`, `AudioLoading` and
`UpdaterRules`.

Some parts that cannot be seen become parameters:

- **The audio engine** (lavaplayer's `AudioPlayer` and track factory). It is
  the small class `AudioEngine.Engine`. It tracks the playing track, the paused
  flag, the integer volume, and a counter that gives each track object it
  creates (a load or a `makeClone`) a new identity.
- **The result of resolving a link.** It is a `LoadResult` parameter.
- **The gateway's answers.** These are the member's voice channel, the bot's
  live connection, whether a join fails, and the message a channel creates.
  They are parameters too.
- **Localization.** It is a function from a key to a string.
- **The random source of `Collections.shuffle`.** It is a sequence of
  arbitrary draws, so every permutation `shuffle` can produce is covered.

Exceptions that the Java code lets escape become a `thrown` result. Examples
are the `NullPointerException` of `rewind` with nothing playing, and a delete
failure in `setMessage`.

Some behaviours of the code are easy to misread; the model follows the code:

- `previous()` takes the **front** of the played list. `next()` appends to
  the back, so `previous()` returns to the oldest played track, not the most
  recent one. See `QueueLaws.PreviousAfterNextIsOldest`.
- `rewind()` with nothing playing does not fall back to `next()`. It
  dereferences the missing track and throws. See `QueueLaws.RewindReplays`.
- `clear()` keeps the remembered last track. With repeat on, the next
  `next()` replays the cleared track. See `QueueLaws.ClearThenNextReplays`.
- "Tracks added ≥ tracks waiting" is not an invariant. The played length can
  become negative under repeat-queue, and also without it: `shuffle` puts a
  clone of the playing track in the work list but not in the added list. See
  `QueueLaws.PlayedLenCanBeNegative` and
  `QueueLaws.ShuffleThenBackTwiceNegative`.
- Under repeat-track, `next()` throws before any track was assigned to the
  last track (see "## Findings"). The queue and every player control that
  calls `next()` (`play`, `skip`, `shuffle`, the track-end and track-stuck
  callbacks) follow the code as written and report the exception as
  `thrown`; the corrected `next()` is stated in `QueueSpec.NextSpec` and the
  lemmas about it.
- `tryCreateMessage` answers true whenever the player had no message, even
  when the channel then creates none. `connectAndAddToQueue` then still says
  "player created".

## Model

| member | source | states |
|---|---|---|
| Tracks.Clone | src/main/java/io/github/foloke/player/BotQueue.java:129-133 | a clone carries the same track info under the new identity it is given |
| Tracks.CloneAll | src/main/java/io/github/foloke/player/BotQueue.java:135-137 | the refill clones every added track, in order: same length, same infos, consecutive new identities |
| Tracks.Created | src/main/java/io/github/foloke/player/BotQueue.java:62-68 | the track objects of a playlist are one per info, in playlist order, with consecutive identities |
| Tracks.CloneAllInfos | src/main/java/io/github/foloke/player/BotQueue.java:135-137 | the clones show exactly the infos of the originals, and their identities all lie in the freshly consumed range |
| RepeatStates.NextState | src/main/java/io/github/foloke/player/BotRepeatState.java:38-43 | the result is NONE or the target; for a target other than NONE it is the target exactly when the current state differs |
| RepeatStates.ToggleTwiceFromNone | src/main/java/io/github/foloke/player/BotRepeatState.java:38-43 | toggling the same target twice from NONE comes back to NONE |
| RepeatStates.ToggleTwiceFromTarget | src/main/java/io/github/foloke/player/BotRepeatState.java:38-43 | toggling the same target twice from that target comes back to it |
| RepeatStates.ToggleToNone | src/main/java/io/github/foloke/player/BotRepeatState.java:38-43 | asking for NONE always gives NONE |
| RepeatStates.SwitchBetweenModes | src/main/java/io/github/foloke/player/BotRepeatState.java:42 | from either repeat mode, selecting the other switches straight to it |
| Shuffling.Swap | src/main/java/io/github/foloke/player/BotQueue.java:187-193 | one step of Collections.shuffle exchanges the two positions and leaves every other one alone |
| Shuffling.SwapPermutes | src/main/java/io/github/foloke/player/BotQueue.java:187-193 | a swap keeps the multiset of tracks |
| Shuffling.ShuffleFrom | src/main/java/io/github/foloke/player/BotQueue.java:187-193 | the shuffle loop keeps the list length |
| Shuffling.Shuffle | src/main/java/io/github/foloke/player/BotQueue.java:187-193 | Collections.shuffle under the given draws keeps the list length |
| Shuffling.ShufflePermutes | src/main/java/io/github/foloke/player/BotQueue.java:187-193 | whatever the draws, the shuffled work list is a permutation (same multiset) of the pool |
| QueueLaws.AppendAtEnd | src/main/java/io/github/foloke/player/BotQueue.java:55-68 | loaded tracks land, in order, at the end of both the added and the work list; the played list, the engine and the last track do not change |
| QueueLaws.AppendKeepsFresh | src/main/java/io/github/foloke/player/BotQueue.java:55-68 | appending tracks the engine created keeps every identity below the engine's counter |
| QueueLaws.NextReplaysLast | src/main/java/io/github/foloke/player/BotQueue.java:124-127 | repeat-track with a present last track plays a new clone of it, records the clone as last, sets the volume, and changes none of the three lists |
| QueueLaws.NextPopsFront | src/main/java/io/github/foloke/player/BotQueue.java:129-133 | the pop branch plays the front and records it as last; it drops the front from the work list and appends its clone to the back of the played list, so work plus played keeps its size |
| QueueLaws.NextRefillStep | src/main/java/io/github/foloke/player/BotQueue.java:134-137 | the refill branch is next() again on the work list refilled with clones of every added track |
| QueueLaws.NextRefills | src/main/java/io/github/foloke/player/BotQueue.java:134-137 | after a refill, a clone of the first added track plays at once; the rest of the clones wait, in order, and one clone is appended to the played list |
| QueueLaws.NextExhausted | src/main/java/io/github/foloke/player/BotQueue.java:139-141 | with nothing to play or refill, nothing plays, the link is empty, the last track becomes empty and the lists stay |
| QueueLaws.NextFrame | src/main/java/io/github/foloke/player/BotQueue.java:123-144 | next() never changes the added list or the paused flag, only consumes identities, and sets the volume to the player's or leaves it |
| QueueLaws.NextKeepsFresh | src/main/java/io/github/foloke/player/BotQueue.java:123-144 | next() keeps every identity the state mentions below the engine's counter, so each clone is a new instance |
| QueueLaws.FreshIdIsNew | src/main/java/io/github/foloke/player/BotQueue.java:131 | under freshness, the next identity belongs to no track in any list, the playing track or the last track |
| QueueLaws.NextOnEmptyStops | src/main/java/io/github/foloke/player/BotQueue.java:139-141 | without repeat, next() on an empty work list does not throw and leaves the link empty |
| QueueLaws.NextAsWrittenThrowsBeforeFirstPlay | src/main/java/io/github/foloke/player/BotQueue.java:124 | as written, next() under REPEAT throws while lastTrack is still unassigned, and changes nothing |
| QueueLaws.FreshRepeatQueueCannotStart | src/main/java/io/github/foloke/player/BotQueue.java:44 | a new queue holding one track, with repeat-track on, throws on next() and plays nothing |
| QueueLaws.NextAsWrittenAgrees | src/main/java/io/github/foloke/player/BotQueue.java:123-144 | apart from REPEAT with an unassigned lastTrack, the code as written and the corrected next() coincide |
| QueueLaws.ShuffleAsWrittenAgrees | src/main/java/io/github/foloke/player/BotQueue.java:187-193 | shuffle as written throws exactly under REPEAT with an unassigned last track, leaving the permuted pool; otherwise it is ShuffleSpec |
| QueueLaws.NextRepeatBeforeFirstPlay | src/main/java/io/github/foloke/player/BotQueue.java:124-133 | corrected: under REPEAT before anything played, next() plays the front of the work list and records it as last |
| QueueLaws.RewindReplays | src/main/java/io/github/foloke/player/BotQueue.java:180-182 | rewind() throws exactly when nothing plays; otherwise a new clone of the playing track plays and no list or last track changes |
| QueueLaws.PreviousWithoutHistoryRewinds | src/main/java/io/github/foloke/player/BotQueue.java:167-175 | previous() with an empty played list is rewind() |
| QueueLaws.PreviousThrows | src/main/java/io/github/foloke/player/BotQueue.java:167-175 | previous() throws exactly when nothing plays |
| QueueLaws.PreviousTakesFront | src/main/java/io/github/foloke/player/BotQueue.java:167-175 | with a history it plays the front (oldest) played clone and removes it; it puts a clone of the interrupted track in front of the work list, leaves lastTrack alone, and keeps work plus played the same size |
| QueueLaws.PreviousAfterNextIsOldest | src/main/java/io/github/foloke/player/BotQueue.java:132 | going back after a popping next() plays the oldest entry of the history, not the track just left |
| QueueLaws.PreviousUndoesFirstNext | src/main/java/io/github/foloke/player/BotQueue.java:167-175 | without a history, previous() after next() plays the same info again; the work list shows the same infos as before and the history is empty |
| QueueLaws.PreviousKeepsFresh | src/main/java/io/github/foloke/player/BotQueue.java:167-182 | previous() keeps identities fresh |
| QueueLaws.ShufflePoolContents | src/main/java/io/github/foloke/player/BotQueue.java:187-190 | the permuted pool is the work list after a clone of the current track when there is one; the other lists are untouched |
| QueueLaws.ShufflePlaysOneOfPool | src/main/java/io/github/foloke/player/BotQueue.java:187-193 | unless the last track is replayed, shuffle plays one track of the pool and leaves the rest of the pool, as a multiset, to play |
| QueueLaws.ShuffleEmptyStops | src/main/java/io/github/foloke/player/BotQueue.java:187-193 | shuffling with no current track, an empty work list and nothing to refill stops the engine |
| QueueLaws.ShuffleKeepsFresh | src/main/java/io/github/foloke/player/BotQueue.java:187-193 | shuffle keeps identities fresh |
| QueueLaws.ClearEmpties | src/main/java/io/github/foloke/player/BotQueue.java:157-162 | clear empties the three lists and stops the engine, but keeps lastTrack |
| QueueLaws.ClearThenNextReplays | src/main/java/io/github/foloke/player/BotQueue.java:157-162 | since clear keeps lastTrack, next() under REPEAT after clear replays the cleared track |
| QueueLaws.BoundedUnderNext | src/main/java/io/github/foloke/player/BotQueue.java:123-144 | without repeat-queue, next() keeps work plus played within the number of added tracks |
| QueueLaws.BoundedUnderPrevious | src/main/java/io/github/foloke/player/BotQueue.java:167-175 | previous() keeps that bound |
| QueueLaws.BoundedUnderAppendAndClear | src/main/java/io/github/foloke/player/BotQueue.java:55-68 | loading and clear keep that bound |
| QueueLaws.LegacyPlayedLenSteps | src/main/java/org/example/BotQueue.java:190-192 | the legacy played length goes up by one per popping next(), down by one per popping previous(), and is 0 after clear |
| QueueLaws.BoundedPlayedLen | src/main/java/io/github/foloke/player/BotQueue.java:203-205 | under the bound the played length lies in [0, added] |
| QueueLaws.PlayedLenCanBeNegative | src/main/java/io/github/foloke/player/BotQueue.java:203-205 | with repeat-queue, one track, two skips and two steps back leave two tracks waiting in a queue of one, so the played length is -1 |
| QueueLaws.ShuffleThenBackTwiceNegative | src/main/java/io/github/foloke/player/BotQueue.java:187-205 | without repeat-queue, one track played, a shuffle and two steps back leave two tracks waiting in a queue of one, whatever the draws, so the played length is -1 |
| QueueLaws.RepeatQueueCycle | src/main/java/io/github/foloke/player/BotQueue.java:123-144 | repeat-queue over three tracks plays them in order and then a new instance of the first |
| PlayerQueue.BotQueue.constructor | src/main/java/io/github/foloke/player/BotQueue.java:44-52 | a new queue has three empty lists and an unassigned lastTrack |
| PlayerQueue.BotQueue.TrackLoaded | src/main/java/io/github/foloke/player/BotQueue.java:55-59 | the state becomes Append of the track; the log line's exception is thrown exactly when nothing plays |
| PlayerQueue.BotQueue.AddLoadedTrack | src/main/java/io/github/foloke/player/BotQueueAudioLoader.java:34-37 | the state becomes Append of the track |
| PlayerQueue.BotQueue.PlaylistLoaded | src/main/java/io/github/foloke/player/BotQueue.java:62-68 | the state becomes Append of the playlist, in order |
| PlayerQueue.BotQueue.NoMatches | src/main/java/io/github/foloke/player/BotQueue.java:71-74 | the engine stops; nothing else changes |
| PlayerQueue.BotQueue.LoadFailed | src/main/java/io/github/foloke/player/BotQueue.java:77-80 | the engine stops; nothing else changes |
| PlayerQueue.BotQueue.OnTrackEnd | src/main/java/io/github/foloke/player/BotQueue.java:98-103 | FINISHED and LOAD_FAILED move the state and report an exception as next() as written does (NextAsWritten); every other reason changes nothing and throws nothing |
| PlayerQueue.BotQueue.OnTrackStuck | src/main/java/io/github/foloke/player/BotQueue.java:111-114 | the state and the exception are those of next() as written (NextAsWritten) |
| PlayerQueue.BotQueue.Next | src/main/java/io/github/foloke/player/BotQueue.java:123-144 | the new state and the exception are exactly NextAsWritten: under REPEAT with an unassigned last track it throws and changes nothing, otherwise the state moves as NextSpec; freshness is kept |
| PlayerQueue.BotQueue.ReplayLast | src/main/java/io/github/foloke/player/BotQueue.java:124-127 | the repeat-track branch moves the state as NextSpec |
| PlayerQueue.BotQueue.PopAndPlay | src/main/java/io/github/foloke/player/BotQueue.java:129-133 | the pop branch moves the state as NextSpec |
| PlayerQueue.BotQueue.RefillAndNext | src/main/java/io/github/foloke/player/BotQueue.java:134-137 | the refill branch moves the state as NextSpec |
| PlayerQueue.BotQueue.RunDry | src/main/java/io/github/foloke/player/BotQueue.java:139-141 | the exhausted branch moves the state as NextSpec |
| PlayerQueue.BotQueue.Refill | src/main/java/io/github/foloke/player/BotQueue.java:135-136 | the work list becomes the clones of the added list and the counter advances by its length; nothing else changes |
| PlayerQueue.BotQueue.Play | src/main/java/io/github/foloke/player/BotQueue.java:146-152 | the volume is set, the track plays and becomes last |
| PlayerQueue.BotQueue.Clear | src/main/java/io/github/foloke/player/BotQueue.java:157-162 | the state becomes ClearSpec of the old one |
| PlayerQueue.BotQueue.Previous | src/main/java/io/github/foloke/player/BotQueue.java:167-175 | the state and the thrown flag are PreviousSpec of the old state |
| PlayerQueue.BotQueue.Rewind | src/main/java/io/github/foloke/player/BotQueue.java:180-182 | the state and the thrown flag are RewindSpec of the old state |
| PlayerQueue.BotQueue.Shuffle | src/main/java/io/github/foloke/player/BotQueue.java:187-193 | the state and the exception are ShuffleAsWritten: the clone of the current track goes in front, the pool is permuted, then next() as written runs |
| PlayerQueue.BotQueue.PermuteWork | src/main/java/io/github/foloke/player/BotQueue.java:188-191 | the work list becomes the shuffled pool, all other state as in the pool; freshness is kept |
| PlayerQueue.BotQueue.GetQueueLen | src/main/java/io/github/foloke/player/BotQueue.java:195-197 | the number of tracks still to play, never negative |
| PlayerQueue.BotQueue.GetPlayedQueueLen | src/main/java/io/github/foloke/player/BotQueue.java:203-205 | added minus still to play |
| PlayerQueue.BotQueue.GetWholeQueueLen | src/main/java/io/github/foloke/player/BotQueue.java:207-209 | the number of tracks added, never negative |
| PlayerQueue.BotQueue.GetLink | src/main/java/io/github/foloke/player/BotQueue.java:211-217 | the playing track's uri, or "" when nothing plays |
| LegacyQueue.BotQueue.constructor | src/main/java/org/example/BotQueue.java:31-39 | a new queue has three empty lists and a null lastTrack |
| LegacyQueue.BotQueue.TrackLoaded | src/main/java/org/example/BotQueue.java:42-49 | the state becomes Append of the track; the console line throws exactly when nothing plays |
| LegacyQueue.BotQueue.PlaylistLoaded | src/main/java/org/example/BotQueue.java:52-58 | the state becomes Append of the playlist, in order |
| LegacyQueue.BotQueue.NoMatches | src/main/java/org/example/BotQueue.java:61-64 | the engine stops; nothing else changes |
| LegacyQueue.BotQueue.LoadFailed | src/main/java/org/example/BotQueue.java:67-71 | the engine stops; nothing else changes |
| LegacyQueue.BotQueue.OnTrackEnd | src/main/java/org/example/BotQueue.java:89-94 | FINISHED and LOAD_FAILED move the state as NextSpec; other reasons change nothing |
| LegacyQueue.BotQueue.OnTrackStuck | src/main/java/org/example/BotQueue.java:102-105 | the state moves as NextSpec |
| LegacyQueue.BotQueue.Next | src/main/java/org/example/BotQueue.java:114-135 | the state moves exactly as NextSpec; a null lastTrack falls through to the other branches |
| LegacyQueue.BotQueue.ReplayLast | src/main/java/org/example/BotQueue.java:115-118 | the repeat-track branch moves the state as NextSpec |
| LegacyQueue.BotQueue.PopAndPlay | src/main/java/org/example/BotQueue.java:120-124 | the pop branch moves the state as NextSpec |
| LegacyQueue.BotQueue.RefillAndNext | src/main/java/org/example/BotQueue.java:126-128 | the refill branch moves the state as NextSpec |
| LegacyQueue.BotQueue.RunDry | src/main/java/org/example/BotQueue.java:130-132 | the exhausted branch sets lastTrack to null and stops, as NextSpec |
| LegacyQueue.BotQueue.Refill | src/main/java/org/example/BotQueue.java:126-127 | the work list becomes the clones of the added list |
| LegacyQueue.BotQueue.Play | src/main/java/org/example/BotQueue.java:137-143 | the volume is set, the track plays and becomes last |
| LegacyQueue.BotQueue.Clear | src/main/java/org/example/BotQueue.java:148-153 | the state becomes ClearSpec of the old one |
| LegacyQueue.BotQueue.Previous | src/main/java/org/example/BotQueue.java:158-166 | the state and the thrown flag are PreviousSpec of the old state |
| LegacyQueue.BotQueue.Rewind | src/main/java/org/example/BotQueue.java:171-173 | the state and the thrown flag are RewindSpec of the old state |
| LegacyQueue.BotQueue.Shuffle | src/main/java/org/example/BotQueue.java:178-184 | the state becomes ShuffleSpec of the old one |
| LegacyQueue.BotQueue.PermuteWork | src/main/java/org/example/BotQueue.java:179-182 | the work list becomes the shuffled pool |
| LegacyQueue.BotQueue.GetQueueLen | src/main/java/org/example/BotQueue.java:186-188 | the number of tracks still to play |
| LegacyQueue.BotQueue.GetPlayedQueueLen | src/main/java/org/example/BotQueue.java:190-192 | the size of the played list |
| LegacyQueue.BotQueue.GetWholeQueueLen | src/main/java/org/example/BotQueue.java:194-196 | the number of tracks added |
| LegacyQueue.BotQueue.GetLink | src/main/java/org/example/BotQueue.java:198-204 | the playing track's uri, or "" |
| AudioLoading.WithErrors | src/main/java/io/github/foloke/player/AddToQueueException.java:19-21 | getErrors gives back exactly the list given, in order |
| AudioLoading.WithError | src/main/java/io/github/foloke/player/AddToQueueException.java:26-28 | getErrors gives the one-element list of the message |
| AudioLoading.GetErrors | src/main/java/io/github/foloke/player/AddToQueueException.java:30-32 | the errors, element by element and in order |
| AudioLoading.LoadedTracks | src/main/java/io/github/foloke/player/BotQueueAudioLoader.java:34-43 | the tracks a result carries show its infos in order and have new identities |
| AudioLoading.QueueHandled | src/main/java/io/github/foloke/player/BotQueue.java:55-80 | with the queue as handler, no match and a failure stop the engine; a track or playlist is loaded into the lists |
| AudioLoading.LoadErrors | src/main/java/io/github/foloke/player/BotQueueAudioLoader.java:46-55 | no errors exactly for a track or a playlist; one localized "track_not_found" for no match; the failure's own message for a failed load |
| AudioLoading.LoadIntoAppends | src/main/java/io/github/foloke/player/BotQueueAudioLoader.java:34-43 | a load appends exactly the delivered infos, in order, to both lists; it leaves history, engine and last track alone, and a load delivering nothing changes nothing |
| AudioLoading.LoadIntoKeepsFresh | src/main/java/io/github/foloke/player/BotQueueAudioLoader.java:34-43 | a load keeps identities fresh |
| AudioLoading.BotQueueAudioLoader.constructor | src/main/java/io/github/foloke/player/BotQueueAudioLoader.java:24-31 | a new loader has no errors |
| AudioLoading.BotQueueAudioLoader.TrackLoaded | src/main/java/io/github/foloke/player/BotQueueAudioLoader.java:34-37 | the track is appended once to the queue; errors untouched |
| AudioLoading.BotQueueAudioLoader.PlaylistLoaded | src/main/java/io/github/foloke/player/BotQueueAudioLoader.java:40-43 | every track is appended, in playlist order |
| AudioLoading.BotQueueAudioLoader.NoMatches | src/main/java/io/github/foloke/player/BotQueueAudioLoader.java:46-49 | exactly one localized "track_not_found" is appended to the errors |
| AudioLoading.BotQueueAudioLoader.LoadFailed | src/main/java/io/github/foloke/player/BotQueueAudioLoader.java:52-55 | exactly the failure's message is appended to the errors |
| AudioLoading.BotQueueAudioLoader.GetErrors | src/main/java/io/github/foloke/player/BotQueueAudioLoader.java:57-59 | the errors, element by element, in arrival order |
| AudioLoading.BotQueueAudioLoader.Deliver | src/main/java/io/github/foloke/player/BotQueueAudioLoader.java:34-55 | one load moves the queue as LoadInto and appends exactly LoadErrors to the errors |
| AudioLoading.BotQueueAudioLoader.DeliverTrack | src/main/java/io/github/foloke/player/BotQueueAudioLoader.java:34-37 | a found track is loaded into the queue; no error |
| AudioLoading.BotQueueAudioLoader.DeliverPlaylist | src/main/java/io/github/foloke/player/BotQueueAudioLoader.java:40-43 | a found playlist is loaded into the queue; no error |
| Volume.Truncate | src/main/java/io/github/foloke/player/BotGuildPlayer.java:189-191 | `(int)` of a non-negative float is the largest integer not above it |
| Volume.Clamp | src/main/java/io/github/foloke/player/BotGuildPlayer.java:181 | the result lies in [0, 16]; it is the amount inside that range, 0 below it and 16 above it |
| Volume.PercentRoundTrip | src/main/java/io/github/foloke/player/BotGuildPlayer.java:173-175 | reading back a percentage that was set gives it clamped to [0, 100] |
| Volume.VolumePercentRange | src/main/java/io/github/foloke/player/BotGuildPlayer.java:203-205 | a stored volume reads back as a percentage in [0, 100] |
| Volume.RampTargetBetween | src/main/java/io/github/foloke/player/BotGuildPlayer.java:189 | every ramp step lies between the starting volume and the target |
| Volume.RampLastIsTarget | src/main/java/io/github/foloke/player/BotGuildPlayer.java:189 | step n of n is the target |
| Volume.RampWritesShape | src/main/java/io/github/foloke/player/BotGuildPlayer.java:183-196 | there are `segments` writes; each lies between the start and the truncated target; the last is the truncated target; there are none exactly when the change is below MAX_VOLUME/100 |
| Volume.AddsProgress | src/main/java/io/github/foloke/player/BotGuildPlayer.java:131-133 | k presses of volume-up reach at least min(16, v + 0.8k) and never exceed 16 |
| Volume.ReducesProgress | src/main/java/io/github/foloke/player/BotGuildPlayer.java:138-140 | k presses of volume-down reach at most max(0, v - 0.8k) and never go below 0 |
| Volume.AddsSaturate | src/main/java/io/github/foloke/player/BotGuildPlayer.java:131-133 | twenty or more presses of volume-up end at exactly 16 |
| Volume.ReducesSaturate | src/main/java/io/github/foloke/player/BotGuildPlayer.java:138-140 | twenty or more presses of volume-down end at exactly 0 |
| Volume.WrapInt32 | src/main/java/org/example/BotPlayer.java:104 | Java int addition: the result is a 32-bit value congruent to the exact sum, and the sum itself when it fits |
| Volume.LegacyClamp | src/main/java/org/example/BotPlayer.java:124 | the result lies in [0, 100]; it is the amount inside that range, 0 below and 100 above |
| Volume.LegacyAddClamps | src/main/java/org/example/BotPlayer.java:103-105 | without overflow, addVolume leaves clamp(old + amount, 0, 100) |
| Volume.LegacyAddOverflows | src/main/java/org/example/BotPlayer.java:103-105 | an overflowing increase wraps around: adding Integer.MAX_VALUE to 50 silences the player |
| UpdaterRules.PlayStateOf | src/main/java/io/github/foloke/player/BotGuildPlayerUpdater.java:154-163 | STOP exactly without a track, PAUSE exactly with a paused track, PLAY exactly with an unpaused track |
| UpdaterRules.NeedsUpdateIff | src/main/java/io/github/foloke/player/BotGuildPlayerUpdater.java:120-128 | the six field comparisons or `started` hold exactly when `started` is set or the snapshot differs |
| UpdaterRules.NoUpdateAfterRender | src/main/java/io/github/foloke/player/BotGuildPlayerUpdater.java:89-97 | right after a snapshot is committed, the same player state needs no update |
| UpdaterRules.FirstObservationDiffers | src/main/java/io/github/foloke/player/BotGuildPlayerUpdater.java:37-44 | the initial snapshot with its null link differs from any real observation |
| UpdaterRules.TickStep | src/main/java/io/github/foloke/player/BotGuildPlayerUpdater.java:62-118 | a render is attempted exactly when the gate is open and an update is needed; then the snapshot is the current one and `started` is cleared; otherwise nothing changes |
| UpdaterRules.TickSettles | src/main/java/io/github/foloke/player/BotGuildPlayerUpdater.java:89-117 | with the render exception swallowed, a second tick on an unchanged player renders nothing |
| UpdaterRules.TickRewind | src/main/java/io/github/foloke/player/BotGuildPlayerUpdater.java:72 | max(0, rewindTime - 1000): never negative, down by 1000 from at least 1000, else 0 |
| UpdaterRules.AfterTicksValue | src/main/java/io/github/foloke/player/BotGuildPlayerUpdater.java:72 | k ticks take k seconds off the window, floored at 0 |
| UpdaterRules.RewindWindowLastsThreeTicks | src/main/java/io/github/foloke/player/BotGuildPlayerUpdater.java:62-87 | a 3000 ms window is still open after two ticks and closed after three |
| UpdaterRules.PlayerText | src/main/java/io/github/foloke/player/BotGuildPlayerUpdater.java:98-100 | the title with a track; without one, the motd, or the help message when the motd is empty |
| UpdaterRules.QueueAwareText | src/main/java/io/github/foloke/BotGuildPlayerUpdater.java:101-103 | the motd with an empty queue whatever plays; otherwise the help message without a track, else the title |
| UpdaterRules.GifText | src/main/java/org/example/BotGifUpdater.java:63-67 | the "/q" hint for an empty queue, the play-button hint without a track, else the title |
| UpdaterRules.GifTextIsQueueAware | src/main/java/io/github/foloke/BotGifUpdater.java:68-72 | the gif rule is the queue-aware rule with the two hints |
| UpdaterRules.Replace | src/main/java/io/github/foloke/player/BotGuildPlayerUpdater.java:130-148 | a failed delete other than NOT_FOUND throws exactly when another message was attached, and then nothing changes; otherwise the message becomes the new one; replacing a different id re-arms `started`, first attach or the same id leave it |
| PlayerRules.PauseResumeRoundTrip | src/main/java/io/github/foloke/player/BotGuildPlayer.java:99-107 | pressing play on a playing track pauses it, and pressing again restores the state exactly |
| PlayerRules.PlayToggleFlipsPause | src/main/java/io/github/foloke/player/BotGuildPlayer.java:99-107 | with a track or a pause in place, play only flips the paused flag |
| PlayerRules.PlayToggleAsWrittenAgrees | src/main/java/io/github/foloke/player/BotGuildPlayer.java:99-107 | play as written throws exactly when it must start the queue under REPEAT with an unassigned last track, and then changes nothing; otherwise it is PlayToggle |
| PlayerRules.PlayStartsFront | src/main/java/io/github/foloke/player/BotGuildPlayer.java:99-107 | with nothing playing or paused, play starts the front of the work list at the player's volume |
| PlayerRules.PlayToggleKeepsFresh | src/main/java/io/github/foloke/player/BotGuildPlayer.java:99-107 | play keeps identities fresh |
| PlayerRules.PressWindow | src/main/java/io/github/foloke/player/BotGuildPlayer.java:120-126 | the press re-arms the window to 3000, except when the history step inside the window throws |
| PlayerRules.PreviousPressThrows | src/main/java/io/github/foloke/player/BotGuildPlayer.java:120-126 | a press throws exactly when nothing plays, inside or outside the window |
| PlayerRules.PreviousPressOutsideWindow | src/main/java/io/github/foloke/player/BotGuildPlayer.java:120-126 | outside the window a press restarts a new clone of the playing track and touches no list |
| PlayerRules.PreviousPressInWindow | src/main/java/io/github/foloke/player/BotGuildPlayer.java:120-126 | inside the window with a history, the oldest entry plays (restarted), and the interrupted track's info goes in front of the work list |
| PlayerRules.PreviousPressWithoutHistory | src/main/java/io/github/foloke/player/BotGuildPlayer.java:120-126 | inside the window without a history, the playing track is restarted twice and no list changes |
| PlayerRules.PreviousPressKeepsFresh | src/main/java/io/github/foloke/player/BotGuildPlayer.java:120-126 | a press keeps identities fresh |
| PlayerRules.RewindKeepsFresh | src/main/java/io/github/foloke/player/BotQueue.java:180-182 | rewind keeps identities fresh |
| GuildPlayer.BotGuildPlayer.constructor | src/main/java/io/github/foloke/player/BotGuildPlayer.java:64-78 | a new player: empty queue, volume 2 with (int) 2 on the engine, repeat NONE, an updater with no message and `started` set |
| GuildPlayer.BotGuildPlayer.AddToQueue | src/main/java/io/github/foloke/player/BotGuildPlayer.java:92-94 | the queue, as its own load handler, moves as QueueHandled of the result |
| GuildPlayer.BotGuildPlayer.DeliverTrack | src/main/java/io/github/foloke/player/BotQueue.java:55-59 | a found track is loaded into the queue |
| GuildPlayer.BotGuildPlayer.DeliverPlaylist | src/main/java/io/github/foloke/player/BotQueue.java:62-68 | a found playlist is loaded into the queue |
| GuildPlayer.BotGuildPlayer.AddToQueueReporting | src/main/java/io/github/foloke/player/BotQueueAudioLoader.java:24-59 | through the loader the queue moves as LoadInto; an exception is raised exactly when there are load errors, and it carries exactly them |
| GuildPlayer.BotGuildPlayer.Play | src/main/java/io/github/foloke/player/BotGuildPlayer.java:99-107 | the queue and the exception are PlayToggleAsWritten at the truncated volume |
| GuildPlayer.BotGuildPlayer.Skip | src/main/java/io/github/foloke/player/BotGuildPlayer.java:112-115 | the queue and the exception are NextAsWritten at the truncated volume; the window becomes 3000 unless next() threw, which leaves it as it was |
| GuildPlayer.BotGuildPlayer.PlayPrevious | src/main/java/io/github/foloke/player/BotGuildPlayer.java:120-126 | the queue and the thrown flag are PreviousPress of the old state and window; the window becomes PressWindow |
| GuildPlayer.BotGuildPlayer.AddVolume | src/main/java/io/github/foloke/player/BotGuildPlayer.java:131-133 | the volume becomes clamp(v + 0.8); the engine receives RampWrites towards it; the queue sees only the new engine volume |
| GuildPlayer.BotGuildPlayer.ReduceVolume | src/main/java/io/github/foloke/player/BotGuildPlayer.java:138-140 | the volume becomes clamp(v - 0.8); the engine receives RampWrites towards it; the queue sees only the new engine volume |
| GuildPlayer.BotGuildPlayer.SetVolume | src/main/java/io/github/foloke/player/BotGuildPlayer.java:180-197 | the volume becomes the clamped amount; the engine receives RampWrites in order and ends at the truncated target, or keeps its volume without writes |
| GuildPlayer.BotGuildPlayer.RunVolumeRamp | src/main/java/io/github/foloke/player/BotGuildPlayer.java:185-195 | the loop writes exactly RampWrites, in order, and touches nothing else of the engine |
| GuildPlayer.BotGuildPlayer.SetVolumePercent | src/main/java/io/github/foloke/player/BotGuildPlayer.java:173-175 | the volume becomes clamp(p/100 * 16) and getVolumePercent then reads clamp(p, 0, 100) |
| GuildPlayer.BotGuildPlayer.GetVolumePercent | src/main/java/io/github/foloke/player/BotGuildPlayer.java:203-205 | volume / 16 * 100, within [0, 100] |
| GuildPlayer.BotGuildPlayer.Shuffle | src/main/java/io/github/foloke/player/BotGuildPlayer.java:145-147 | the queue and the exception are ShuffleAsWritten with the playing track |
| GuildPlayer.BotGuildPlayer.ToggleRepeatQueue | src/main/java/io/github/foloke/player/BotGuildPlayer.java:152-154 | repeat becomes NextState(repeat, REPEAT_QUEUE) |
| GuildPlayer.BotGuildPlayer.ToggleRepeatTrack | src/main/java/io/github/foloke/player/BotGuildPlayer.java:159-161 | repeat becomes NextState(repeat, REPEAT) |
| GuildPlayer.BotGuildPlayer.Unload | src/main/java/io/github/foloke/player/BotGuildPlayer.java:166-168 | the queue moves as ClearSpec |
| GuildPlayer.BotGuildPlayer.SetRewindTime | src/main/java/io/github/foloke/player/BotGuildPlayer.java:52-54 | the window becomes the given value |
| GuildPlayer.BotGuildPlayer.Pause | src/main/java/io/github/foloke/spring/services/BotPlayerService.java:167 | only the paused flag is set |
| GuildPlayer.BotGuildPlayer.UnPause | src/main/java/io/github/foloke/spring/services/BotPlayerService.java:175-177 | only the paused flag is cleared |
| GuildPlayer.BotGuildPlayer.SetMessage | src/main/java/io/github/foloke/player/BotGuildPlayer.java:207-209 | the updater's message, `started` and thrown flag follow Replace; its snapshot is untouched |
| GuildPlayer.BotGuildPlayer.GetMessage | src/main/java/io/github/foloke/player/BotGuildPlayer.java:211-213 | the updater's message |
| GuildPlayer.BotGuildPlayer.Observed | src/main/java/io/github/foloke/player/BotGuildPlayer.java:215-241 | the getters the updaters read: the play state, the repeat mode, the link, whole and played length, the volume |
| GuildPlayer.BotGuildPlayerUpdater.constructor | src/main/java/io/github/foloke/BotGuildPlayerUpdater.java:40-56 | no message, `started` set, the initial snapshot |
| GuildPlayer.BotGuildPlayerUpdater.IsNeedUpdate | src/main/java/io/github/foloke/BotGuildPlayerUpdater.java:125-133 | true exactly when `started` is set or the player differs from the snapshot |
| GuildPlayer.BotGuildPlayerUpdater.GetPlayerState | src/main/java/io/github/foloke/BotGuildPlayerUpdater.java:159-168 | STOP exactly without a track, PAUSE exactly with a paused one |
| GuildPlayer.BotGuildPlayerUpdater.Tick | src/main/java/io/github/foloke/BotGuildPlayerUpdater.java:62-123 | the window ticks down; with a message and a needed update the snapshot is committed and `started` cleared, and the frame carries the lengths, the volume percent, the queue-aware text and the states; the message is untouched |
| GuildPlayer.BotGuildPlayerUpdater.SetMessage | src/main/java/io/github/foloke/BotGuildPlayerUpdater.java:135-153 | message, `started` and the thrown flag follow Replace; the snapshot is untouched |
| PlayerUpdater.BotGuildPlayerUpdater.constructor | src/main/java/io/github/foloke/player/BotGuildPlayerUpdater.java:37-56 | no message, `started` set, the initial snapshot |
| PlayerUpdater.BotGuildPlayerUpdater.IsNeedUpdate | src/main/java/io/github/foloke/player/BotGuildPlayerUpdater.java:120-128 | true exactly when `started` is set or the player differs from the snapshot |
| PlayerUpdater.BotGuildPlayerUpdater.GetPlayerState | src/main/java/io/github/foloke/player/BotGuildPlayerUpdater.java:154-163 | STOP exactly without a track, PAUSE exactly with a paused one |
| PlayerUpdater.BotGuildPlayerUpdater.Tick | src/main/java/io/github/foloke/player/BotGuildPlayerUpdater.java:62-118 | the window ticks down; with a message and a needed update the snapshot is committed and `started` cleared, and the frame carries the motd-or-help text or the title |
| PlayerUpdater.BotGuildPlayerUpdater.SetMessage | src/main/java/io/github/foloke/player/BotGuildPlayerUpdater.java:130-148 | message, `started` and the thrown flag follow Replace |
| LegacyPlayer.BotPlayer.constructor | src/main/java/org/example/BotPlayer.java:52-65 | a new player: empty queue, volume 20 on the engine, repeat NONE, a locked updater with no message |
| LegacyPlayer.BotPlayer.AddToQueue | src/main/java/org/example/BotPlayer.java:76-78 | the queue moves as QueueHandled of the result |
| LegacyPlayer.BotPlayer.DeliverTrack | src/main/java/org/example/BotQueue.java:42-49 | a found track is loaded into the queue |
| LegacyPlayer.BotPlayer.DeliverPlaylist | src/main/java/org/example/BotQueue.java:52-58 | a found playlist is loaded into the queue |
| LegacyPlayer.BotPlayer.Play | src/main/java/org/example/BotPlayer.java:80-88 | the queue moves as PlayToggle at the integer volume |
| LegacyPlayer.BotPlayer.Skip | src/main/java/org/example/BotPlayer.java:90-93 | the queue moves as NextSpec and the window becomes 3000 |
| LegacyPlayer.BotPlayer.Prev | src/main/java/org/example/BotPlayer.java:95-101 | the queue and the thrown flag are PreviousPress; the window becomes PressWindow |
| LegacyPlayer.BotPlayer.AddVolume | src/main/java/org/example/BotPlayer.java:103-105 | the volume becomes LegacyAddVolume: the 32-bit sum, clamped to [0, 100], applied to the engine |
| LegacyPlayer.BotPlayer.SetVolume | src/main/java/org/example/BotPlayer.java:123-126 | the volume becomes clamp(amount, 0, 100) and the engine gets it at once |
| LegacyPlayer.BotPlayer.Shuffle | src/main/java/org/example/BotPlayer.java:107-109 | the queue moves as ShuffleSpec with the playing track |
| LegacyPlayer.BotPlayer.RepeatQ | src/main/java/org/example/BotPlayer.java:111-113 | repeat becomes NextState(repeat, REPEAT_QUEUE) |
| LegacyPlayer.BotPlayer.Repeat | src/main/java/org/example/BotPlayer.java:115-117 | repeat becomes NextState(repeat, REPEAT) |
| LegacyPlayer.BotPlayer.Unload | src/main/java/org/example/BotPlayer.java:119-121 | the queue moves as ClearSpec |
| LegacyPlayer.BotPlayer.SetRewindTime | src/main/java/org/example/BotPlayer.java:41-43 | the window becomes the given value |
| LegacyPlayer.BotPlayer.LinkMessage | src/main/java/org/example/BotPlayer.java:132-135 | the updater gets the message and its edit lock is lifted; its snapshot and `started` stay |
| LegacyPlayer.BotPlayer.Observed | src/main/java/org/example/BotPlayer.java:137-159 | the getters the updaters read; the played length is the size of the played list |
| LegacyPlayer.BotGifUpdater.constructor | src/main/java/org/example/BotGifUpdater.java:23-40 | locked, no message, `started` set, the initial snapshot |
| LegacyPlayer.BotGifUpdater.IsNeedUpdate | src/main/java/org/example/BotGifUpdater.java:105-113 | true exactly when `started` is set or the player (integer volume included) differs from the snapshot |
| LegacyPlayer.BotGifUpdater.GetPlayerState | src/main/java/org/example/BotGifUpdater.java:130-139 | STOP exactly without a track, PAUSE exactly with a paused one |
| LegacyPlayer.BotGifUpdater.Tick | src/main/java/org/example/BotGifUpdater.java:43-103 | the window ticks down; only with the lock lifted and a needed update is the snapshot committed, `started` cleared and a frame with the gif text produced; the lock stays as it is |
| LegacyPlayer.BotGifUpdater.UnlockEdit | src/main/java/org/example/BotGifUpdater.java:118-120 | the lock is lifted; nothing else changes |
| LegacyPlayer.BotGifUpdater.SetMessage | src/main/java/org/example/BotGifUpdater.java:122-124 | only the message changes; `started` is not re-armed |
| IoGifUpdater.BotGifUpdater.constructor | src/main/java/io/github/foloke/BotGifUpdater.java:29-45 | no message, `started` set, the initial snapshot |
| IoGifUpdater.BotGifUpdater.IsNeedUpdate | src/main/java/io/github/foloke/BotGifUpdater.java:112-120 | true exactly when `started` is set or the player differs from the snapshot |
| IoGifUpdater.BotGifUpdater.GetPlayerState | src/main/java/io/github/foloke/BotGifUpdater.java:132-141 | STOP exactly without a track, PAUSE exactly with a paused one |
| IoGifUpdater.BotGifUpdater.Tick | src/main/java/io/github/foloke/BotGifUpdater.java:48-110 | the window ticks down; with a message and a needed update the snapshot is committed, `started` cleared and a frame with the gif text produced |
| IoGifUpdater.BotGifUpdater.SetMessage | src/main/java/io/github/foloke/BotGifUpdater.java:122-126 | only the message changes; `started` is not re-armed |
| JavaStrings.Pieces | src/main/java/io/github/foloke/spring/services/BotPlayersHolder.java:53 | the pieces of a split before trailing empty ones are dropped: never none, and PiecesJoin joins them back to the input |
| JavaStrings.DropTrailingEmpty | src/main/java/io/github/foloke/spring/services/BotPlayersHolder.java:53 | a prefix of the pieces that ends in a non-empty piece, and only empty pieces were dropped |
| JavaStrings.PiecesJoin | src/main/java/io/github/foloke/spring/services/BotPlayersHolder.java:53 | joining the pieces with the separator gives back the input |
| JavaStrings.PiecesWithoutSep | src/main/java/io/github/foloke/spring/commands/player/BotChooseTrackSearchResultButtonCommand.java:40 | a string without the separator's first character is one piece |
| JavaStrings.PiecesAfterPrefix | src/main/java/io/github/foloke/spring/commands/player/BotChooseTrackSearchResultButtonCommand.java:40 | a separator after a separator-free prefix ends the first piece there |
| JavaStrings.JoinPieces | src/main/java/io/github/foloke/spring/services/BotPlayerService.java:206-221 | splitting lines joined by a separator they do not contain gives the lines back |
| JavaStrings.JoinSnoc | src/main/java/io/github/foloke/spring/services/BotPlayerService.java:207-212 | one more StringBuilder append adds the separator and the line |
| JavaStrings.NatToString | src/main/java/io/github/foloke/spring/commands/player/BotPlayerSearchChatCommand.java:149 | Long.toString of a non-negative number is a non-empty string of decimal digits |
| JavaStrings.NatToStringValue | src/main/java/io/github/foloke/spring/commands/player/BotPlayerSearchChatCommand.java:149 | the digits read back as the number |
| JavaStrings.Partition | src/main/java/io/github/foloke/spring/services/BotPlayerService.java:123-126 | chunks of one to five, all full but the last |
| JavaStrings.PartitionFlatten | src/main/java/io/github/foloke/spring/services/BotPlayerService.java:123-129 | the chunks, read in order, are the input |
| JavaStrings.AnyMatch | src/main/java/io/github/foloke/spring/services/BotPlayerService.java:229 | true exactly when some element satisfies the predicate |
| Components.ActionRows | src/main/java/io/github/foloke/spring/services/BotPlayerService.java:121-131 | the rows read in order are the buttons; each row has one to five buttons, all full but the last |
| PlayersHolder.EmptyListNamesOneLink | src/main/java/io/github/foloke/spring/services/BotPlayersHolder.java:53 | an empty default list still names one link, the empty one |
| PlayersHolder.CommasSeparateLinks | src/main/java/io/github/foloke/spring/services/BotPlayersHolder.java:53 | "a,b" names the links a and b |
| PlayersHolder.TrailingEmptyLinksDropped | src/main/java/io/github/foloke/spring/services/BotPlayersHolder.java:53 | trailing empty links are dropped |
| PlayersHolder.InnerEmptyLinkKept | src/main/java/io/github/foloke/spring/services/BotPlayersHolder.java:53 | an empty link between commas is kept |
| PlayersHolder.LoneCommaNamesNothing | src/main/java/io/github/foloke/spring/services/BotPlayersHolder.java:53 | a lone comma names no link |
| PlayersHolder.BotPlayersHolder.constructor | src/main/java/io/github/foloke/spring/services/BotPlayersHolder.java:27-39 | no player is registered |
| PlayersHolder.BotPlayersHolder.GetBotPlayer | src/main/java/io/github/foloke/spring/services/BotPlayersHolder.java:44-49 | the guild's player is returned and registered; a registered one is returned with nothing changed, a missing one is new, holds the default tracks, and no other entry changes |
| PlayersHolder.BotPlayersHolder.Register | src/main/java/io/github/foloke/spring/services/BotPlayersHolder.java:45-48 | the new player joins the map under its guild and no other entry changes; players never share objects |
| PlayersHolder.BotPlayersHolder.NewBotPlayer | src/main/java/io/github/foloke/spring/services/BotPlayersHolder.java:51-62 | the new player's lists hold the tracks of every default link, in order; a link that fails is skipped |
| PlayerService.GetParamValue | src/main/java/io/github/foloke/spring/services/BotPlayerService.java:78-83 | the option's value, or "" when the option or its value is missing |
| PlayerService.SuccessLines | src/main/java/io/github/foloke/spring/services/BotPlayerService.java:206-215 | "track_added_message", then "player_created_message" only if a message was created, then the repeat warning only under REPEAT |
| PlayerService.ErrorLines | src/main/java/io/github/foloke/spring/services/BotPlayerService.java:216-221 | the error header, then each error in order |
| PlayerService.SuccessReplyReadsBack | src/main/java/io/github/foloke/spring/services/BotPlayerService.java:206-215 | splitting a success reply at line breaks recovers its lines |
| PlayerService.ErrorReplyReadsBack | src/main/java/io/github/foloke/spring/services/BotPlayerService.java:216-221 | splitting an error reply at line breaks recovers the header and every error |
| PlayerService.BuildReply | src/main/java/io/github/foloke/spring/services/BotPlayerService.java:207-215 | the StringBuilder appends give the lines joined by "\n" |
| PlayerService.JoinOutcome | src/main/java/io/github/foloke/spring/services/BotPlayerService.java:155-185 | access denied with "join_channel_warning_message" exactly without a member channel; nothing to do exactly on the bot's own channel; a join failure exactly when joining another channel fails |
| PlayerService.BotPlayerService.constructor | src/main/java/io/github/foloke/spring/services/BotPlayerService.java:61-71 | the holder, localization and button commands are kept |
| PlayerService.BotPlayerService.GetButtons | src/main/java/io/github/foloke/spring/services/BotPlayerService.java:121-131 | one secondary button per command, in order, with its name and emoji, in rows of one to five |
| PlayerService.BotPlayerService.IsPlayerButtonCommand | src/main/java/io/github/foloke/spring/services/BotPlayerService.java:228-230 | true exactly when some command has this exact name |
| PlayerService.BotPlayerService.CreateMessage | src/main/java/io/github/foloke/spring/services/BotPlayerService.java:106-119 | with a created message and a guild, the guild's player (created if missing) takes it by the Replace rule; otherwise nothing changes |
| PlayerService.BotPlayerService.SetPlayerMessage | src/main/java/io/github/foloke/spring/services/BotPlayerService.java:113-116 | the registered player's message follows Replace and the registry stays valid |
| PlayerService.BotPlayerService.TryCreateMessage | src/main/java/io/github/foloke/spring/services/BotPlayerService.java:90-101 | true exactly with a guild whose player had no message, which then has the created one; false leaves everything as it was; without a guild nothing changes; a player it creates holds the default tracks (HoldsDefaults); with a guild the message follows MessageAttached and the registry gains at most this guild's entry, and every other guild keeps its player, queue and message (Others) |
| PlayerService.BotPlayerService.FetchPlayer | src/main/java/io/github/foloke/spring/services/BotPlayerService.java:94 | the guild's player from getBotPlayer: only this guild's entry may be new, and then it holds the default tracks; the guild's message and every other guild are kept |
| PlayerService.BotPlayerService.AttachIfMissing | src/main/java/io/github/foloke/spring/services/BotPlayerService.java:95-99 | true exactly when the player had no message, which then becomes the created one (MessageAttached); otherwise the updater is untouched; every other guild is kept |
| PlayerService.BotPlayerService.OthersFramed | src/main/java/io/github/foloke/spring/services/BotPlayersHolder.java:44-49 | when only the holder and this guild's player change and no other entry is added, every other guild keeps its player, queue and message |
| PlayersHolder.LoadIntoDefaults | src/main/java/io/github/foloke/spring/services/BotPlayersHolder.java:51-60 | loading into a queue that holds only the default tracks leaves the defaults followed by the loaded infos in both lists, nothing played and nothing playing |
| PlayerService.BotPlayerService.CreateForPlayer | src/main/java/io/github/foloke/spring/services/BotPlayerService.java:94-97 | a player without a message ends with the created one, if any; every other guild is kept (Others) |
| PlayerService.BotPlayerService.Connect | src/main/java/io/github/foloke/spring/services/BotPlayerService.java:155-185 | the guild's player is created if missing and no other entry changes; the outcome is JoinOutcome of the voice state; the queue is ConnectedQueue: an existing player's queue is unchanged, except that a failed join leaves it paused, and a new player's queue holds the default tracks; the guild's message and every other guild are kept |
| PlayerService.BotPlayerService.JoinGuildChannel | src/main/java/io/github/foloke/spring/services/BotPlayerService.java:163-179 | for a registered player, the outcome and the queue state are JoinChannel's; the registry, the guild's message and every other guild are kept |
| PlayerService.BotPlayerService.JoinChannel | src/main/java/io/github/foloke/spring/services/BotPlayerService.java:159-182 | the outcome is JoinOutcome of the voice state; the player's queue state is unchanged, except that a failed join leaves it paused |
| PlayerService.BotPlayerService.ConnectAndAddToQueue | src/main/java/io/github/foloke/spring/services/BotPlayerService.java:198-223 | a missing guild gives the error reply with "player_creation_error" and changes nothing; with a guild, the registry gains at most this guild's entry, and every other guild keeps its player, queue and message (Others); connect's exceptions pass through after registering the player, with the queue as ConnectedQueue and the message kept; otherwise the track is loaded into an existing player's queue (LoadInto), or a new player's lists are the default infos followed by the loaded ones; the reply is the error lines with the message kept, or the success lines with the created message attached (MessageAttached) |
| PlayerService.BotPlayerService.ConnectAndAdd | src/main/java/io/github/foloke/spring/services/BotPlayerService.java:201-215 | for an interaction in a guild: the registry gains at most this guild's entry, and every other guild keeps its player, queue and message (Others); connect's exceptions pass through with the queue as ConnectedQueue and the message kept; otherwise an existing player's queue receives the load (LoadInto), a new player's lists are the default infos followed by the loaded ones, and the reply is the error lines with the message kept or the success lines with the created message attached |
| PlayerService.BotPlayerService.AddAndReply | src/main/java/io/github/foloke/spring/services/BotPlayerService.java:203-221 | the registry is unchanged and every other guild is kept; the queue moves as LoadInto; the reply is the error lines for load errors, with the message kept, else the success lines with "created" exactly when the player had no message, and the created message attached |
| PlayerService.BotPlayerService.ReplyAdded | src/main/java/io/github/foloke/spring/services/BotPlayerService.java:206-215 | the success reply, with "player created" exactly when the player had no message; the message becomes the created one exactly then (MessageAttached); the registry is unchanged and every other guild is kept |
| PlayerService.BotPlayerService.AddToPlayer | src/main/java/io/github/foloke/spring/services/BotPlayerService.java:203 | the registered player's queue moves as LoadInto, and the exception carries exactly the load errors; its message and every other guild are kept |
| ChooseTrack.TrackIdOf | src/main/java/io/github/foloke/spring/commands/player/BotChooseTrackSearchResultButtonCommand.java:40-42 | a track id exactly when the split has a second segment, and then it is that segment |
| ChooseTrack.SegmentsAfterTwoSeparators | src/main/java/io/github/foloke/spring/commands/player/BotChooseTrackSearchResultButtonCommand.java:40 | two `%`-free segments before two separators come out first |
| ChooseTrack.TrackIdIgnoresLaterSegments | src/main/java/io/github/foloke/spring/commands/player/BotChooseTrackSearchResultButtonCommand.java:40-42 | the segment after the first separator is decoded whatever follows the next one |
| ChooseTrack.BareNameHasNoTrackId | src/main/java/io/github/foloke/spring/commands/player/BotChooseTrackSearchResultButtonCommand.java:40-42 | "choose_track" carries no track id |
| ChooseTrack.TrailingSeparatorHasNoTrackId | src/main/java/io/github/foloke/spring/commands/player/BotChooseTrackSearchResultButtonCommand.java:40-42 | "choose_track%%" carries none either, since the trailing empty segment is dropped |
| ChooseTrack.BotChooseTrackSearchResultButtonCommand.constructor | src/main/java/io/github/foloke/spring/commands/player/BotChooseTrackSearchResultButtonCommand.java:31-36 | the service is kept |
| ChooseTrack.BotChooseTrackSearchResultButtonCommand.Execute | src/main/java/io/github/foloke/spring/commands/player/BotChooseTrackSearchResultButtonCommand.java:39-52 | no reply and no change exactly without a track id; with one, everything is as Choose states for the decoded id: the missing-guild error with nothing changed, or a registered player with every other guild kept and the created message attached, then connect's exception with the queue as ConnectedQueue, or the load into the player with the error or success lines |
| ChooseTrack.BotChooseTrackSearchResultButtonCommand.Choose | src/main/java/io/github/foloke/spring/commands/player/BotChooseTrackSearchResultButtonCommand.java:42-51 | without a guild, the error reply and nothing changes; with one, the player is registered, every other guild is kept, and the message is the created one exactly when the player had none (MessageAttached); connect's exception leaves the queue as ConnectedQueue; otherwise the reply is connectAndAddToQueue's for the id, with "player created" exactly when neither the player nor the first attempt had a message, and an existing player's queue receives the load while a new player's lists are the default infos followed by the loaded ones |
| ChooseTrack.BotChooseTrackSearchResultButtonCommand.ChooseInGuild | src/main/java/io/github/foloke/spring/commands/player/BotChooseTrackSearchResultButtonCommand.java:43-46 | Choose's guarantees for an interaction in a guild |
| SearchCommand.FieldList | src/main/java/io/github/foloke/spring/commands/player/BotPlayerSearchChatCommand.java:110-127 | one field per result, in order, numbered from one, linking the video |
| SearchCommand.CreateButtons | src/main/java/io/github/foloke/spring/commands/player/BotPlayerSearchChatCommand.java:129-151 | one button per result's video id, in order with 0-based indices, in rows of one to five, all full but the last |
| SearchCommand.Execute | src/main/java/io/github/foloke/spring/commands/player/BotPlayerSearchChatCommand.java:81-108 | an embed exactly for a result list, titled "tracks_found_caption", with matching fields and buttons; "no_search_result" for a null list, "search_error" for an I/O error, the exception's message without an API key |
| SearchCommand.ButtonIdRoundTrip | src/main/java/io/github/foloke/spring/commands/player/BotPlayerSearchChatCommand.java:143-151 | for a `%`-free video id, the button id splits into the command name, the id and the index, and the choose command decodes the id back |
| SearchCommand.ButtonIndexRoundTrip | src/main/java/io/github/foloke/spring/commands/player/BotPlayerSearchChatCommand.java:143-151 | the index segment reads back as the result's index |
| SearchCommand.FieldMatchesButton | src/main/java/io/github/foloke/spring/commands/player/BotPlayerSearchChatCommand.java:115-151 | a field starts with its button's caption, which reads as index + 1, and ends with the link to the button's video |
| SearchCommand.ButtonsChooseTheirResults | src/main/java/io/github/foloke/spring/commands/player/BotPlayerSearchChatCommand.java:129-151 | in a found-results reply, the i-th button chooses the i-th result's video and is numbered like the i-th field |

## Left out

- Threads, sleeps and locks are left out. The updater's `while` loop is one
  `Tick` call. The ramp's executor runs the ramp to completion at once, with
  no other call in between. The mutexes and `synchronized` are not modelled.
- Java `float` is modelled as `real`. `(int)` of a non-negative float is its
  floor. Rounding is not reproduced.
- Lavaplayer is left out. This covers `provide`, `loadItem`, decoding and
  engine events. The engine is a small class whose `setVolume` stores any
  integer as given, with no clamping.
- Discord I/O is left out: message create, edit, delete and reply. Where its
  outcome matters, it is a parameter: the created message, the delete result
  and the voice state.
- GIF and image rendering is left out. A tick hands a `Frame` value to the
  renderer, and a failing render changes nothing.
- Logging is left out, including the log-only callbacks `onPlayerPause`,
  `onPlayerResume`, `onTrackStart` and `onTrackException`. They change no
  state.
- Localization (`BotLocalization`) is a function from a key to a string.
- The YouTube search is a function parameter. Each result's title and video
  id are assumed to be present.
- Some members are called but not shown. The model gives them the smallest
  behaviour consistent with their callers:
  - the three-argument `BotGuildPlayer` constructor that `BotPlayersHolder`
    uses;
  - `addToQueue` as it raises `AddToQueueException`
    (`BotGuildPlayer.AddToQueueReporting`);
  - `BotQueue.addLoadedTrack`;
  - `BotGuildPlayer.pause` and `unPause`.
- `io.github.foloke.player.BotPlayer` is not part of this model.
  `io.github.foloke.BotGifUpdater` is written against it. The legacy
  `org.example.BotPlayer` stands in for it, since it has the same getters.
- `PlayerService.BotPlayerService.JoinChannel` models a join that throws by
  leaving the player paused. The exception is reported as `JoinFailed`; its
  content is not modelled.
- `ChooseTrack.BotChooseTrackSearchResultButtonCommand.Choose` does not model
  its `AddToQueueException` catch. That handler cannot run, because
  `connectAndAddToQueue` catches the exception itself.
- Both message attempts of a press, in `tryCreateMessage` and inside
  `connectAndAddToQueue`, see the same channel answer `created`.
- Button routing is left out. The listener dispatches by exact custom-id
  equality, so a parameterised `choose_track%%…` id never reaches this
  command through that path. The command's own decoding is modelled.
- The unused `player` parameter of the choose command's `execute` is left
  out.
- The defensive list copies of `AddToQueueException` are implicit: a Dafny
  sequence is a value, so later changes to a caller's list cannot reach the
  exception.
- PlayersHolder.BotPlayersHolder.GetBotPlayer: for a new player it states the
  infos of the default tracks in both lists, not their track identities or
  the engine's volume.

## Findings

| source | as written | input that shows it | evidently intended | confidence | as-written member | corrected member |
|---|---|---|---|---|---|---|
| src/main/java/io/github/foloke/player/BotQueue.java:124 | `lastTrack` is an `Optional` that nothing initialises (line 44). Under REPEAT, `next()` calls `lastTrack.isPresent()` on null and throws a NullPointerException. | A new queue holding one track, repeat-track on, then `next()`: nothing plays. | Treat the unset field as empty, as the legacy queue does with null, so the pop branch runs. | not executed | QueueLaws.FreshRepeatQueueCannotStart | QueueLaws.NextRepeatBeforeFirstPlay |
