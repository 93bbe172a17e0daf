# Cast receiver with server-side ad insertion — a Dafny model

The receiver is a `Player` object that sits between a Cast playback engine
and the IMA dynamic ad insertion stream manager. This project models the
logic the player adds on top of those two SDKs:

- **Cue points to breaks.** Each time the ad service reports a new cue-point
  list, the player rebuilds the load request's break clips `BC_i` and breaks
  `B_i`. Break `i` refers to clip `i` only. Both last `end - start`. The break
  is embedded, is watched exactly when the cue point was played, and is
  positioned at the cue's start less the total duration of all earlier
  breaks. `CueBreaks` defines the expected entries. Its lemmas show that ids
  are unique and that, for ordered cue points, positions never decrease. They
  also show that each position equals the cue's start with all ad time that
  has ended by then removed. `Player.OnCuePointsChanged` is the listener's
  loop, proved to produce exactly those entries.
- **Sender commands.** The message is split on `,` (`JsStrings.Split`,
  proved to be the inverse of `Join`), and the first field picks the one
  reply that is broadcast: `bookmark,<content time>`,
  `contentTime,<content time>` or `Message not recognized`.
- **Ad-break state and seeking.** Break start sets the ad flag. Break end
  clears it and performs a deferred seek when one is pending. `seek` moves
  the playhead and broadcasts only when no ad is playing.
- **Load interception.** The player requests a live stream when the asset
  key is truthy and an on-demand stream otherwise. It fires a manual
  `timeupdate` for a buffered stream requested at time 0. For a buffered
  stream with a non-zero start time, it moves the playhead to that start's
  stream time. The stream-loaded and stream-error listeners point the request
  at the stitched or the backup stream and resolve the promise.

The ad service's conversions `contentTimeForStreamTime` and
`streamTimeForContentTime` are functions the `Player` is constructed with.
So is the text JavaScript gives a number when it is appended to a string.
Broadcasts to the sender are recorded in `Player.broadcasts`. Calls on the
host (the stream request, the manual `timeupdate`) are recorded in
`Player.hostCalls`. Times are `real`. The number that `parseFloat` reads
from a `bookmark` command's second field is a parameter of the message
handler.

Three behaviours of `player.js` are easy to misread:

- A stream event that arrives after the load promise has settled is not
  ignored. The listener still rewrites the request's `contentUrl` (and, for
  a late success, its subtitles) before its `resolve` call, which then does
  nothing (player.js:72-84). `CastPlayer.LoadedThenError` shows a late
  error replacing the stitched URL with the backup URL.
- The playhead moves to the start position inside the promise executor,
  before either stream event can fire (player.js:129-131).
  `InterceptLoad` does the same.
- Seeks are not redirected around unwatched breaks: that interceptor is
  commented out (player.js:137-151), so nothing sets the deferred seek
  target. The model keeps the target as a field that a caller may set, as
  `CastPlayer.DeferredSeek` does.

## Model

| member | source | states |
|---|---|---|
| JsStrings.Split | player.js:47-48 | `split(',')` gives at least one field; no field holds a comma; joining the fields restores the message; the first field is the text before the first comma |
| JsStrings.SplitJoin | player.js:47 | splitting a join of comma-free fields gives back exactly those fields, so the split is the unique comma-free decomposition |
| JsStrings.IndexOf | player.js:47-48 | the position of the first comma: none occurs before it, and there is one at it unless it is the end |
| JsStrings.NatToString | player.js:96-100 | the decimal text of a counter value is non-empty, made of digits, and has no leading zero |
| JsStrings.DecimalValueOfNatToString | player.js:96-100 | reading the decimal text of a counter back gives the counter |
| JsStrings.NatToStringInjective | player.js:96-100 | two counters have the same decimal text exactly when they are equal |
| CueBreaks.ClipId | player.js:96-97 | clip ids are `BC_` followed by the decimal digits of the counter, with no leading zero |
| CueBreaks.BreakId | player.js:96-100 | break ids are `B_` followed by the decimal digits of the counter, with no leading zero |
| CueBreaks.Position | player.js:93-105 | a break's position plus the durations of all earlier breaks is its cue's start; the first break sits at its cue's start |
| CueBreaks.ClipFor | player.js:97-98 | clip i has id `BC_i` and lasts from its cue's start to its end |
| CueBreaks.BreakFor | player.js:100-103 | break i has id `B_i`, refers to clip i alone, lasts as long as that clip, is embedded, is watched iff the cue was played, and sits at `Position(cues, i)` |
| CueBreaks.IdsUnique | player.js:96-100 | `B_i = B_j` iff `i = j`, `BC_i = BC_j` iff `i = j`, and no break id is ever a clip id |
| CueBreaks.TotalDurationStep | player.js:103-105 | adding a cue point to the prefix adds its `end - start` to the running total |
| CueBreaks.OrderedChain | player.js:87-111 | in ordered, non-overlapping cue points every break ends before any later break starts |
| CueBreaks.PositionGap | player.js:100-105 | two consecutive breaks are placed as far apart as the content between them |
| CueBreaks.PositionsNondecreasing | player.js:94-109 | for ordered cue points, break positions never decrease along the list |
| CueBreaks.TotalDurationNonNegative | player.js:103-105 | cue points with `start <= end` give a non-negative running total |
| CueBreaks.PositionBounds | player.js:100 | for ordered cue points starting at or after 0, each break sits between 0 and its cue's start |
| CueBreaks.DurationEndedByPrefix | player.js:93-105 | for ordered cue points, the ad time ended by break i's start is the total of the breaks before i |
| CueBreaks.PositionRemovesEarlierAdTime | player.js:100 | for ordered cue points, break i's position is its start less all ad time that has ended by then |
| CastPlayer.Player.OnCuePointsChanged | player.js:87-111 | both lists are replaced, never appended to, with one entry per cue point. Entry i is clip `BC_i` and break `B_i`, which refers to `BC_i` only. Both last `end_i - start_i`; the break is embedded, watched iff played, at `start_i` less the durations of all earlier breaks. An absent list gives two empty lists |
| CastPlayer.IngestTwice | player.js:89-90 | ingesting the same cue points a second time leaves exactly what the first ingestion produced |
| CastPlayer.Player.constructor | player.js:10 | a new player has start time 0, no ad playing, no deferred seek, no broadcasts and no host calls, and keeps the conversions it is given |
| CastPlayer.Player.ContentTime | player.js:209-212 | `getContentTime`: the ad service's content time for the media element's playhead |
| CastPlayer.Player.Reply | player.js:45-64 | the text before the first comma selects the reply: `bookmark` gives `bookmark,` and the content time of the given time; `getContentTime` gives `contentTime,` and the content time of the playhead; anything else gives `Message not recognized` |
| CastPlayer.ArgumentsDoNotSelect | player.js:47-49 | appending `,` and any arguments to a comma-free command leaves its reply unchanged |
| CastPlayer.Player.OnCustomMessage | player.js:45-64 | a custom message appends exactly its reply to the broadcasts and changes no other state (the content time comes from `getContentTime`, player.js:209-212) |
| CastPlayer.Player.Broadcast | player.js:214-217 | a broadcast appends its message and nothing else |
| CastPlayer.Player.Seek | player.js:202-207 | while an ad plays, neither the playhead nor the broadcasts change; otherwise the playhead becomes the target and `Seeking to: <target>` is broadcast once |
| CastPlayer.Player.OnAdBreakStarted | player.js:157-161 | the ad flag is set and `adBreakStarted` is broadcast |
| CastPlayer.Player.OnAdBreakEnded | player.js:163-171 | the ad flag is cleared and `adBreakEnded` broadcast. A non-zero pending target moves the playhead there, broadcasts `Seeking to: <target>` and is reset to 0; with none pending the playhead stays |
| CastPlayer.DeferredSeek | player.js:163-171 | with a pending target set, a seek during the break is ignored, and the break's end moves the playhead to the target |
| CastPlayer.Player.RequestStreamFor | player.js:193-198 | the start time is stored, and exactly one stream request is issued, carrying the given parameters; it is live iff the asset key is truthy |
| CastPlayer.Player.InterceptLoad | player.js:113-131 | without custom data the promise is rejected and nothing else happens. Otherwise the start time is stored and one stream request made, live iff the asset key is truthy. A manual time update follows iff the stream is buffered and requested at time 0. The playhead moves to the stream time of the start iff the start is non-zero and the stream buffered |
| CastPlayer.PendingLoad.Resolve | player.js:76 | resolving settles a pending promise and leaves a settled one as it was |
| CastPlayer.Player.OnStreamLoaded | player.js:72-77 | broadcasts success, sets the request's URL and subtitles to the stitched stream's, and resolves the promise if it is still pending |
| CastPlayer.Player.OnStreamError | player.js:80-84 | broadcasts failure, sets the request's URL to the backup stream, and resolves the promise if it is still pending |
| CastPlayer.LoadedThenError | player.js:72-84 | after a success and then an error, the promise is fulfilled once but the request points at the backup stream |

## Left out

- SDK construction and wiring, the message namespace and `castContext_.start` (player.js:6-30): these only set up the host objects. The model takes the `Player`'s collaborators as constructor parameters instead.
- The DOM updates, console logging, the ad-progress countdown (player.js:173-179) and the quartile logging (player.js:182-189): user interface and debug output only.
- The forwarding of ID3 metadata to the ad service (player.js:153-155): a call into the SDK with no logic of its own.
- The commented-out seek interceptor (player.js:137-151): it is not live code. Seek redirection around unwatched breaks is therefore not modelled, and no listener sets the deferred seek target.
- `this.bookmark(time)` (player.js:54): `Player` has no such method, so the call throws after the broadcast. Only the broadcast is modelled.
- `contentTimeForStreamTime`, `streamTimeForContentTime` and `previousCuePointForStreamTime` belong to the ad service. The first two are unconstrained functions. The third is used only by the dead seek interceptor.
- `parseFloat` and JavaScript number arithmetic: times are `real`, so NaN and `-0` do not occur. The `bookmark` time is a parameter. JavaScript's number-to-text conversion is an unconstrained function, except for the ids' non-negative integers, which are written out in decimal.
- `undefined` versus 0: the initial `adIsPlaying_` and `seekToTimeAfterAdBreak_`, and an absent `startTime` in the custom data, are modelled as `false` and `0`. The code only tests their truthiness, and 0 and `undefined` are both falsy.
- The custom-data fields the receiver only passes to the ad service's request constructors are not modelled. Neither is the extra argument given to `requestStream` (player.js:121), which ignores it.
- Listener accumulation: each load adds its listeners to the one shared stream manager, so a later load's events also reach an earlier load's listeners. Each `PendingLoad` is modelled on its own.
- A load that neither stream event ever answers stays pending for ever; the code has no timeout, and neither does the model.
- The ad service's time conversions are fixed for the `Player`'s whole lifetime. In the ad service they depend on the cue points known when the call is made; no lemma here relies on either behaviour.
