# radio_bot playback core in Dafny

This project models the radio bot's core. The bot joins one voice channel and plays audio files from a cloud-storage folder. Each day it works through a shuffled queue of up to 20 tracks. While a track plays, the channel's name shows a "Now playing" label.

The model has three parts, all taken from `bot/bot.ts`:

- `label.dfy`, module `ChannelLabel`: how the status label is built from a file name. One trailing `.mp3` is removed (case-sensitive, end of string only). Then trailing whitespace is trimmed, the prefix `Tempo.Radio | Now playing: ` is put in front, and the result is cut to 100 characters. Whitespace means what `String.prototype.trimEnd` removes: the ECMAScript WhiteSpace and LineTerminator code points.
- `listing.dfy`, module `Listing`: the folder listing and the daily sample. Listing entries without a truthy id or name are dropped. A listing of at most `count` entries becomes the queue as it is. A longer one is shuffled and cut to `count`. The randomised sort is a parameter, `shuffled`: any reordering of the listing. Nothing is claimed about its distribution.
- `playback.dfy`, module `Playback`: the sequencer. The module-level `dailyQueue`, `index` and `connection` of the bot become the class `Sequencer` with the fields `queue`, `index` and `connected`. A `trace` field records the calls made to the outside world: renames, stream fetches, joins and plays.
  - The outside world is an oracle. For each queue position, an `Outcome` says:
    - whether the connection's channel is cached, so that a rename is tried;
    - whether the rename resolves;
    - whether the stream opens;
    - whether the existing connection reports "disconnected";
    - whether the fixed voice channel is found;
    - whether the player subscribes.
  - `Step` is one pass of `playNext`: one attempt at the track under the cursor, and the cursor moves on by one.
  - `PlayNext` is the chain of such passes, up to the end of the queue.
  - `Restart`, `PlayMusic`, `DailyRefresh` and `OnDisconnect` are the restart paths.
  - The pure functions `Attempt` and `Run` specify the methods.
  - The lemmas about `Run` state what a run does: every track fetched once and in order, the started tracks, the labels tried, and the connection.

`playNext` renames the channel only when `connection` is set and its channel is in the client cache (bot/bot.ts:93-98). `RunLabelsEachTrack` therefore assumes both.

## Model

| member | source | states |
|---|---|---|
| ChannelLabel.IsWhitespace | bot/bot.ts:88 | among ASCII characters exactly tab, line feed, vertical tab, form feed, carriage return and space count as whitespace; letters, digits and '.' never do. The other members are the no-break and Unicode space separators, the byte order mark and the line and paragraph separators |
| ChannelLabel.StripMp3 | bot/bot.ts:88 | the result is a prefix of the name; a name ending in ".mp3" is exactly the result followed by ".mp3", and any other name comes back unchanged |
| ChannelLabel.CleanName | bot/bot.ts:88 | the cleaned name is a prefix of the file name that does not end in whitespace, everything cut after the extension is removed is whitespace, and a name ending in ".mp3" loses at least those four characters |
| ChannelLabel.StripMp3Once | bot/bot.ts:88 | removing the extension from `stem + ".mp3"` gives back exactly `stem`, even when `stem` itself ends in ".mp3": one suffix only |
| ChannelLabel.UpperCaseExtensionKept | bot/bot.ts:88 | the match is case-sensitive: a name ending in ".MP3" comes through cleaning unchanged |
| ChannelLabel.TrimEnd | bot/bot.ts:88 | the result is a prefix of the input that does not end in whitespace, and everything cut off is whitespace |
| ChannelLabel.TrimEndUnique | bot/bot.ts:88 | any prefix with those three properties is the trimmed string, so the contract pins trimEnd down completely |
| ChannelLabel.TrimEndIdempotent | bot/bot.ts:88 | trimming twice equals trimming once |
| ChannelLabel.CleanNameUnchanged | bot/bot.ts:88 | a name survives cleaning unchanged exactly when it does not end in ".mp3" and does not end in whitespace |
| ChannelLabel.CleanNameExamples | bot/bot.ts:88 | "a.mp3.mp3" cleans to "a.mp3", "x.mp3 " to "x.mp3", and "Loud.MP3" keeps its extension |
| ChannelLabel.StatusLabel | bot/bot.ts:89-92 | the label has at most 100 characters, starts with the exact prefix, has length min(100, 27 + cleaned length), what follows the prefix is a prefix of the cleaned name, and when prefix plus cleaned name fit in 100 nothing is cut |
| ChannelLabel.StatusLabelKeeps73 | bot/bot.ts:89-92 | the prefix has 27 characters, and the label is the prefix followed by the first min(73, cleaned length) characters of the cleaned name |
| ChannelLabel.LongLabelIsCut | bot/bot.ts:89-92 | when the prefixed name is longer than 100 characters, the label is its first 100 characters, exactly 100 long |
| ChannelLabel.SongOneLabel | bot/bot.ts:88-92 | "Song One.mp3" gives the label made of the exact prefix followed by "Song One" |
| Listing.KeepUsable | bot/bot.ts:57-61 | the kept tracks are no more than the entries, and every kept track has a non-empty id and a non-empty name |
| Listing.KeepUsableAppend | bot/bot.ts:57-61 | filtering a concatenation is the concatenation of the filtered parts, so the kept entries keep their original order |
| Listing.KeepUsableMembers | bot/bot.ts:57-61 | a track is in the result exactly when some entry has both fields present and non-empty and describes that track |
| Listing.KeepUsableAllComplete | bot/bot.ts:57-61 | a listing of complete entries comes through whole, entry for entry |
| Listing.FilesFromFolder | bot/bot.ts:51-66 | an API error or a response without a file list yields no tracks; otherwise the result is exactly the listing filtered and mapped by KeepUsable, so it is no longer than the listing and every track in it has an id and a name |
| Listing.RandomTracks | bot/bot.ts:68-72 | the sample has min(N, count) tracks; a listing of at most `count` tracks is returned as it is, in the same order; the sample is a sub-multiset of the listing, and every track in it comes from the listing |
| Listing.RandomTracksDistinct | bot/bot.ts:68-72 | a sample of a listing without repeated tracks has no repeated tracks |
| Playback.Renames | bot/bot.ts:93-98 | a rename is tried only when a connection exists, and then exactly when its channel is cached |
| Playback.NeedsJoin | bot/bot.ts:133 | a join is needed whenever there is no connection; with a connection, exactly when it reports "disconnected" |
| Playback.StartSucceeds | bot/bot.ts:108-156 | a track starts only when its stream opens and the player subscribes; when a join is needed, the start fails if the voice channel is missing and otherwise the stream and the subscription decide; when no join is needed, the stream and the subscription alone decide |
| Playback.ConnectedAfter | bot/bot.ts:133-146 | an attempt never drops an existing connection; without one, a connection exists afterwards exactly when the stream opened and the channel was found |
| Playback.Attempt | bot/bot.ts:93-161 | the first call of an attempt is the rename, when one is tried, and the fetch of the track's stream comes right after it; otherwise the fetch is the first call; a connection exists afterwards exactly when one existed before or the stream opened and the channel was found |
| Playback.AttemptFetches | bot/bot.ts:108-113 | one attempt fetches its track exactly once |
| Playback.AttemptLabels | bot/bot.ts:93-106 | one attempt tries the track's status label exactly when a connection exists and its channel is cached; the rename's result is not consulted |
| Playback.AttemptPlays | bot/bot.ts:108-161 | one attempt plays its track exactly when the stream opens, a connection exists that does not report "disconnected" or the channel is found for a join, and the subscription succeeds; any other failure is a skip |
| Playback.Run | bot/bot.ts:78-169 | a run from cursor i makes at least one call for each remaining track; the Run lemmas below state which calls |
| Playback.Started | bot/bot.ts:108-161 | the tracks whose start succeeds are at most the remaining tracks, and each comes from the remaining part of the queue |
| Playback.RunFetchesEachTrackOnce | bot/bot.ts:157-168 | a run from cursor i fetches each of queue[i..] exactly once and in queue order: no retries and no track left out |
| Playback.RunPlaysStarted | bot/bot.ts:78-169 | the tracks played in a run are exactly the tracks whose start succeeds, in queue order |
| Playback.StartedWhileConnected | bot/bot.ts:133-155 | while the connection stays up, a track starts exactly when its stream opens and the player subscribes |
| Playback.RunWithoutChannel | bot/bot.ts:133-138 | with no connection and the voice channel missing, every attempt is skipped like a stream failure: nothing plays and no connection is made |
| Playback.RunLabelsEachTrack | bot/bot.ts:93-106 | with a connection whose channel is cached, the labels tried in a run are the status labels of every remaining track, in order, including tracks whose start then fails |
| Playback.RunConnection | bot/bot.ts:133-147 | a run ends with a connection exactly when it began with one, or some attempt opened its stream and found the channel |
| Playback.RenameOutcomeIgnored | bot/bot.ts:98-106 | whether the rename succeeds changes nothing about the attempt |
| Playback.SecondOfThreeFails | bot/bot.ts:157-168 | with three tracks whose second stream fails, the tracks played are the first and the third |
| Playback.Sequencer.constructor | bot/bot.ts:74-76 | the starting state: an empty queue, cursor 0, no connection |
| Playback.Sequencer.Step | bot/bot.ts:78-169 | once the cursor is at the end, nothing happens: no rename, no fetch, no play, same cursor; otherwise the calls of one attempt are appended to the trace and the cursor advances by exactly one, whether the start failed or the track finished; the cursor never passes the end |
| Playback.Sequencer.PlayNext | bot/bot.ts:157-168 | the loop leaves the cursor at the end of the queue, and the calls made are those of the run from the old cursor |
| Playback.Sequencer.Restart | bot/bot.ts:212-213 | the whole queue is replaced by a fresh sample of min(N, 20) tracks and the cursor is set to 0, whatever it was |
| Playback.Sequencer.PlayMusic | bot/bot.ts:171-214 | joins the channel, then plays a fresh sample from position 0 to its end |
| Playback.Sequencer.DailyRefresh | bot/bot.ts:218-220 | replaces the queue with a fresh sample and plays it from position 0 on the current connection, never resuming the old cursor |
| Playback.Sequencer.OnDisconnect | bot/bot.ts:189-209 | when the channel is found, starts over like playMusic with a fresh sample from position 0; otherwise nothing changes |
| Playback.SkipExample | bot/bot.ts:157-168 | driving a fresh sequencer through three tracks whose second fails to fetch plays the first and the third and leaves the cursor at 3 |

## Left out

- The chat client and the voice library are outside the model: logging in, joining, waiting for "ready", `subscribe`, `play`, and the state-change listeners (bot/bot.ts:22-32, 139-155, 171-210, 224-236). Their results are the oracle fields of `Outcome`. The wait for "ready" in playMusic is assumed to end.
- The storage provider is outside the model: `files.list`, `files.get`, the stream buffer and the volume setting (bot/bot.ts:35-39, 53-56, 110-131). The listing is an input `Response`, and the stream result is `Outcome.streamOk`.
- Randomness: `sort(() => 0.5 - Math.random())` is only "some reordering", the parameter `shuffled`. The model makes no claim about its distribution.
- Playback.Sequencer.PlayNext: assumes that every started track finishes, because the Idle event arrives, before the next attempt. It also assumes that no restart interleaves with a run. The cron callback and the disconnect handler are not guarded against a run in flight. Modelling that race would need concurrency, which is out of scope. `Restart` can be called between any two `Step`s, and it always resets the cursor.
- Scheduling: the daily cron schedule itself (bot/bot.ts:216) and the extra schedule and disconnect handler that each call of playMusic registers are not modelled.
- Playback.Sequencer.OnDisconnect: `connection.destroy()` is not modelled beyond keeping the variable set.
- The HTTP liveness endpoint, `dotenv`, credential parsing, logging and `global.gc` (bot/bot.ts:35-49, 165) are I/O and runtime hooks.
- ChannelLabel.StatusLabel: lengths count Unicode scalar values. JavaScript's `slice(0, 100)` counts UTF-16 code units, so for names with characters outside the Basic Multilingual Plane the real label can be cut earlier, or in the middle of a character.
- dist/bot.js is older build output with the same listing, sampling, label and sequencing logic. It is not part of this model.
