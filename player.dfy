/**
 The receiver's `Player`: the custom-message commands from the sender, the
 interception of a load request, the cue-point, stream-loaded and stream-error
 listeners registered for that load, the ad-break start/end listeners and
 `seek`. The ad service's time conversions and the text of a JavaScript
 number are functions the player is given; what it sends to the sender is
 kept as the list of broadcast strings, and what it asks of its host (a
 stream request, a manual `timeupdate` event) as the list of host calls.
 */
module CastPlayer {
  import JsStrings
  import opened CueBreaks

  datatype Option<+T> = None | Some(value: T)

  /** The playback engine's stream types. */
  datatype StreamType = Buffered | Live | NoStreamType

  /** A subtitle track of the stitched stream. */
  datatype Subtitle = Subtitle(language: string, url: string)

  /**
   The ad-service parameters a load request carries as custom data; of them
   the receiver itself reads only the asset key and the start time.
   */
  datatype ImaRequestData = ImaRequestData(assetKey: Option<string>, startTime: real)

  /** The two kinds of stream request the ad service accepts. */
  datatype StreamRequest =
    | LiveStreamRequest(data: ImaRequestData)
    | VodStreamRequest(data: ImaRequestData)

  /** What the player asks of its host. */
  datatype HostCall =
    | RequestStream(request: StreamRequest)
    | ManualTimeUpdate

  /** The state of the promise the load interceptor hands back to the playback engine. */
  datatype PromiseState = Pending | Fulfilled | Rejected

  /** The stream loaded instead when the ad service reports an error. */
  const BackupStream: string := "http://storage.googleapis.com/testtopbox-public/video_content/bbb/master.m3u8"

  const NotRecognized: string := "Message not recognized"

  /** JavaScript truthiness of an optional string: present and not empty. */
  predicate Truthy(s: Option<string>) {
    s.Some? && s.value != ""
  }

  /** A load request as the playback engine hands it to the interceptor. */
  class LoadRequest {
    const streamType: StreamType
    /** The requested start position; `None` when the request leaves it undefined. */
    const currentTime: Option<real>
    /** The ad-service parameters; `None` when the request carries no custom data. */
    const customData: Option<ImaRequestData>
    var contentUrl: string
    var subtitles: seq<Subtitle>
    var breakClips: seq<BreakClip>
    var breaks: seq<Break>

    constructor (streamType: StreamType, currentTime: Option<real>, customData: Option<ImaRequestData>, contentUrl: string)
      ensures this.streamType == streamType && this.currentTime == currentTime
      ensures this.customData == customData && this.contentUrl == contentUrl
      ensures subtitles == [] && breakClips == [] && breaks == []
    {
      this.streamType := streamType;
      this.currentTime := currentTime;
      this.customData := customData;
      this.contentUrl := contentUrl;
      subtitles := [];
      breakClips := [];
      breaks := [];
    }
  }

  /** One interception of a load: the request the listeners share and the promise returned for it. */
  class PendingLoad {
    const request: LoadRequest
    var state: PromiseState

    constructor (request: LoadRequest)
      ensures this.request == request && state == Pending
    {
      this.request := request;
      state := Pending;
    }

    /** `resolve(request)`: settles a pending promise; a settled one stays as it is. */
    method Resolve()
      modifies this`state
      ensures state == if old(state) == Pending then Fulfilled else old(state)
    {
      if state == Pending {
        state := Fulfilled;
      }
    }
  }

  class Player {
    /** The ad service's conversion from stream time to content time. */
    const contentTimeForStreamTime: real -> real
    /** The ad service's conversion from content time to stream time. */
    const streamTimeForContentTime: real -> real
    /** The text JavaScript gives a number when it is appended to a string. */
    const numberToString: real -> string

    var startTime: real
    /** The media element's playhead. */
    var currentTime: real
    var adIsPlaying: bool
    /** The seek target deferred to the end of the ad break; 0 means none. */
    var seekToTimeAfterAdBreak: real
    /** Every message broadcast to the sender, oldest first. */
    var broadcasts: seq<string>
    /** Every call made on the host, oldest first. */
    var hostCalls: seq<HostCall>

    constructor (contentTimeForStreamTime: real -> real, streamTimeForContentTime: real -> real,
                 numberToString: real -> string, playhead: real)
      ensures this.contentTimeForStreamTime == contentTimeForStreamTime
      ensures this.streamTimeForContentTime == streamTimeForContentTime
      ensures this.numberToString == numberToString
      ensures currentTime == playhead
      ensures startTime == 0.0 && !adIsPlaying && seekToTimeAfterAdBreak == 0.0
      ensures broadcasts == [] && hostCalls == []
    {
      this.contentTimeForStreamTime := contentTimeForStreamTime;
      this.streamTimeForContentTime := streamTimeForContentTime;
      this.numberToString := numberToString;
      startTime := 0.0;
      currentTime := playhead;
      adIsPlaying := false;
      seekToTimeAfterAdBreak := 0.0;
      broadcasts := [];
      hostCalls := [];
    }

    /** `getContentTime`: the content time of the playhead. */
    function ContentTime(): real
      reads this
    {
      contentTimeForStreamTime(currentTime)
    }

    /**
     The one message the custom-message listener broadcasts for `data`, where
     `time` is the number read from the field after the first comma. The
     command is the text before the first comma, and only it selects the reply.
     */
    function Reply(data: string, time: real): (r: string)
      reads this
      ensures var command := data[..JsStrings.IndexOf(data, ',')];
        && (command == "bookmark" ==> r == "bookmark," + numberToString(contentTimeForStreamTime(time)))
        && (command == "getContentTime" ==> r == "contentTime," + numberToString(contentTimeForStreamTime(currentTime)))
        && (command != "bookmark" && command != "getContentTime" ==> r == NotRecognized)
    {
      var message := JsStrings.Split(data, ',');
      match message[0]
      case "bookmark" => "bookmark," + numberToString(contentTimeForStreamTime(time))
      case "getContentTime" => "contentTime," + numberToString(ContentTime())
      case _ => NotRecognized
    }

    /** `broadcast`: sends one message to the sender. */
    method Broadcast(message: string)
      modifies this`broadcasts
      ensures broadcasts == old(broadcasts) + [message]
    {
      broadcasts := broadcasts + [message];
    }

    /** The custom-message listener: exactly one broadcast, and no other state changes. */
    method OnCustomMessage(data: string, time: real)
      modifies this`broadcasts
      ensures broadcasts == old(broadcasts) + [Reply(data, time)]
    {
      var message := JsStrings.Split(data, ',');
      var command := message[0];
      if command == "bookmark" {
        var bookmarkTime := contentTimeForStreamTime(time);
        Broadcast("bookmark," + numberToString(bookmarkTime));
      } else if command == "getContentTime" {
        var contentTime := ContentTime();
        Broadcast("contentTime," + numberToString(contentTime));
      } else {
        Broadcast(NotRecognized);
      }
    }

    /** `seek`: moves the playhead and says so, unless an ad is playing. */
    method Seek(time: real)
      modifies this`currentTime, this`broadcasts
      ensures adIsPlaying ==> currentTime == old(currentTime) && broadcasts == old(broadcasts)
      ensures !adIsPlaying ==>
        currentTime == time && broadcasts == old(broadcasts) + ["Seeking to: " + numberToString(time)]
    {
      if !adIsPlaying {
        currentTime := time;
        Broadcast("Seeking to: " + numberToString(time));
      }
    }

    /** The ad-break-started listener. */
    method OnAdBreakStarted()
      modifies this`adIsPlaying, this`broadcasts
      ensures adIsPlaying
      ensures broadcasts == old(broadcasts) + ["adBreakStarted"]
    {
      adIsPlaying := true;
      Broadcast("adBreakStarted");
    }

    /**
     The ad-break-ended listener: clears the ad flag and, when a seek was
     deferred, performs it and forgets it.
     */
    method OnAdBreakEnded()
      modifies this`adIsPlaying, this`currentTime, this`broadcasts, this`seekToTimeAfterAdBreak
      ensures !adIsPlaying && seekToTimeAfterAdBreak == 0.0
      ensures var target := old(seekToTimeAfterAdBreak);
        if target != 0.0 then
          currentTime == target &&
          broadcasts == old(broadcasts) + ["adBreakEnded", "Seeking to: " + numberToString(target)]
        else
          currentTime == old(currentTime) && broadcasts == old(broadcasts) + ["adBreakEnded"]
    {
      adIsPlaying := false;
      Broadcast("adBreakEnded");
      if seekToTimeAfterAdBreak != 0.0 {
        Seek(seekToTimeAfterAdBreak);
        seekToTimeAfterAdBreak := 0.0;
      }
    }

    /** `requestStream`: remembers the start time and issues a live request exactly when there is an asset key. */
    method RequestStreamFor(data: ImaRequestData)
      modifies this`startTime, this`hostCalls
      ensures startTime == data.startTime
      ensures exists request :: (hostCalls == old(hostCalls) + [RequestStream(request)]
        && request.data == data
        && (request.LiveStreamRequest? <==> Truthy(data.assetKey)))
    {
      startTime := data.startTime;
      var streamRequest := if Truthy(data.assetKey) then LiveStreamRequest(data) else VodStreamRequest(data);
      hostCalls := hostCalls + [RequestStream(streamRequest)];
    }

    /**
     The load interceptor's promise executor. A request without custom data
     makes `requestStream` throw, which rejects the promise and skips the rest.
     Otherwise the stream is requested, a manual time update follows exactly
     for a buffered stream requested at time 0, and for a buffered stream with
     a non-zero start time the playhead moves to that start's stream time.
     */
    method InterceptLoad(request: LoadRequest) returns (load: PendingLoad)
      modifies this`startTime, this`currentTime, this`hostCalls
      ensures fresh(load) && load.request == request
      ensures request.customData.None? ==>
        load.state == Rejected && startTime == old(startTime) &&
        currentTime == old(currentTime) && hostCalls == old(hostCalls)
      ensures request.customData.Some? ==>
        var data := request.customData.value;
        var fire := request.streamType == Buffered && request.currentTime == Some(0.0);
        && load.state == Pending
        && startTime == data.startTime
        && |hostCalls| == |old(hostCalls)| + 1 + (if fire then 1 else 0)
        && hostCalls[..|old(hostCalls)|] == old(hostCalls)
        && hostCalls[|old(hostCalls)|].RequestStream?
        && hostCalls[|old(hostCalls)|].request.data == data
        && (hostCalls[|old(hostCalls)|].request.LiveStreamRequest? <==> Truthy(data.assetKey))
        && (fire ==> hostCalls[|old(hostCalls)| + 1] == ManualTimeUpdate)
        && currentTime == if data.startTime != 0.0 && request.streamType == Buffered
                          then streamTimeForContentTime(data.startTime) else old(currentTime)
    {
      load := new PendingLoad(request);
      var fireManualTimeUpdate := false;
      if request.streamType == Buffered {
        fireManualTimeUpdate := request.currentTime == Some(0.0);
      }
      match request.customData
      case None =>
        load.state := Rejected;
      case Some(data) =>
        RequestStreamFor(data);
        if fireManualTimeUpdate {
          hostCalls := hostCalls + [ManualTimeUpdate];
        }
        if startTime != 0.0 && request.streamType == Buffered {
          currentTime := streamTimeForContentTime(startTime);
        }
    }

    /**
     The stream-loaded listener: points the request at the stitched stream and
     resolves the promise. It rewrites the request even when the promise has
     already settled.
     */
    method OnStreamLoaded(load: PendingLoad, url: string, subtitles: seq<Subtitle>)
      modifies this`broadcasts, load.request`contentUrl, load.request`subtitles, load`state
      ensures broadcasts == old(broadcasts) + ["Stream request successful. Loading stream..."]
      ensures load.request.contentUrl == url && load.request.subtitles == subtitles
      ensures load.state == if old(load.state) == Pending then Fulfilled else old(load.state)
    {
      Broadcast("Stream request successful. Loading stream...");
      load.request.contentUrl := url;
      load.request.subtitles := subtitles;
      load.Resolve();
    }

    /**
     The stream-error listener: points the request at the backup stream and
     resolves the promise. It rewrites the request even when the promise has
     already settled.
     */
    method OnStreamError(load: PendingLoad)
      modifies this`broadcasts, load.request`contentUrl, load`state
      ensures broadcasts == old(broadcasts) + ["Stream request failed. Loading backup stream..."]
      ensures load.request.contentUrl == BackupStream
      ensures load.state == if old(load.state) == Pending then Fulfilled else old(load.state)
    {
      Broadcast("Stream request failed. Loading backup stream...");
      load.request.contentUrl := BackupStream;
      load.Resolve();
    }

    /**
     The cue-points-changed listener: replaces the request's break clips and
     breaks with one entry per cue point, whatever they held before; an absent
     cue-point list leaves both empty.
     */
    method OnCuePointsChanged(load: PendingLoad, cuePoints: Option<seq<CuePoint>>)
      modifies load.request`breakClips, load.request`breaks
      ensures var cues := if cuePoints.Some? then cuePoints.value else [];
        && |load.request.breakClips| == |cues|
        && |load.request.breaks| == |cues|
        && forall i :: 0 <= i < |cues| ==>
             load.request.breakClips[i] == ClipFor(cues, i) && load.request.breaks[i] == BreakFor(cues, i)
    {
      var request := load.request;
      request.breakClips := [];
      request.breaks := [];
      if cuePoints.Some? {
        var cues := cuePoints.value;
        var id: nat := 0;
        var totalDuration := 0.0;
        for i := 0 to |cues|
          invariant id == i
          invariant totalDuration == TotalDuration(cues[..i])
          invariant |request.breakClips| == i && |request.breaks| == i
          invariant forall k :: 0 <= k < i ==>
            request.breakClips[k] == ClipFor(cues, k) && request.breaks[k] == BreakFor(cues, k)
        {
          var cuePoint := cues[i];
          var uniqId := id;
          id := id + 1;
          var bc := BreakClip(ClipId(uniqId), cuePoint.end - cuePoint.start);
          var b := Break(BreakId(uniqId), [bc.id], cuePoint.start - totalDuration,
                         true, cuePoint.played, cuePoint.end - cuePoint.start);
          TotalDurationStep(cues, i);
          totalDuration := totalDuration + b.duration;
          request.breakClips := request.breakClips + [bc];
          request.breaks := request.breaks + [b];
        }
      }
    }
  }

  /** Appending arguments after a comma never changes which reply a command gets. */
  lemma ArgumentsDoNotSelect(p: Player, command: string, args: string, time: real)
    requires ',' !in command
    ensures p.Reply(command + "," + args, time) == p.Reply(command, time)
  {
    JsStrings.IndexOfAfterField(command, ',', args);
    JsStrings.IndexOfAbsent(command, ',');
    assert (command + "," + args)[..|command|] == command;
    assert command[..|command|] == command;
  }

  /**
   Re-ingesting the same cue points leaves exactly the break clips and breaks
   the first ingestion produced: nothing is appended and nothing drifts.
   */
  method IngestTwice(p: Player, load: PendingLoad, cuePoints: Option<seq<CuePoint>>)
    returns (clips: seq<BreakClip>, breaks: seq<Break>)
    modifies load.request`breakClips, load.request`breaks
    ensures load.request.breakClips == clips && load.request.breaks == breaks
    ensures var cues := if cuePoints.Some? then cuePoints.value else [];
      |clips| == |cues| && |breaks| == |cues|
  {
    p.OnCuePointsChanged(load, cuePoints);
    clips, breaks := load.request.breakClips, load.request.breaks;
    p.OnCuePointsChanged(load, cuePoints);
  }

  /**
   The promise settles once, but a stream error that arrives after the stream
   has loaded still replaces the stitched stream's URL by the backup stream's.
   */
  method LoadedThenError(p: Player, load: PendingLoad, url: string, subtitles: seq<Subtitle>)
    requires load.state == Pending
    modifies p`broadcasts, load.request`contentUrl, load.request`subtitles, load`state
    ensures load.state == Fulfilled
    ensures load.request.contentUrl == BackupStream && load.request.subtitles == subtitles
    ensures p.broadcasts == old(p.broadcasts) + ["Stream request successful. Loading stream...",
                                                 "Stream request failed. Loading backup stream..."]
  {
    p.OnStreamLoaded(load, url, subtitles);
    p.OnStreamError(load);
  }

  /**
   A seek deferred to the end of an ad break: seeks during the break are
   ignored and the deferred target is honoured once the break ends.
   */
  method DeferredSeek(p: Player, target: real, during: real)
    requires target != 0.0
    modifies p`adIsPlaying, p`currentTime, p`broadcasts, p`seekToTimeAfterAdBreak
    ensures !p.adIsPlaying && p.seekToTimeAfterAdBreak == 0.0 && p.currentTime == target
    ensures p.broadcasts == old(p.broadcasts) +
      ["adBreakStarted", "adBreakEnded", "Seeking to: " + p.numberToString(target)]
  {
    p.seekToTimeAfterAdBreak := target;
    p.OnAdBreakStarted();
    p.Seek(during);
    p.OnAdBreakEnded();
  }
}
