/**
 * The server's table of running conversions (`active_streams` in backend/app.py) and the two
 * functions that change it, `start_ffmpeg_conversion` and `stop_ffmpeg_conversion`. Everything
 * the operating system decides (where ffmpeg is, the new process, what each poll of the output
 * directory sees, how terminating the process goes) is a parameter.
 */
module Registry {
  import opened Wrappers
  import opened Strings
  import opened Ffmpeg

  /** A launched ffmpeg process: its id and the arguments it was started with. */
  datatype Process = Process(pid: int, args: seq<string>)

  /**
   * What the host provides to one start: `shutil.which("ffmpeg")`, the id of the spawned
   * process, and what poll number i (taken i half-seconds after launch) sees.
   */
  datatype Host = Host(ffmpegPath: Option<string>, pid: int, poll: nat -> Listing)

  datatype StartError = FfmpegNotFound | PlaylistTimeout

  /** How SIGTERM followed by `wait(timeout=5)` ended. */
  datatype StopOutcome =
    | Terminated    // the process exited in time
    | WaitTimedOut  // wait raised TimeoutExpired; the process is then killed
    | Failed        // any other exception (no such process group, permission, ...)

  /** `os.path.join(HLS_OUTPUT_ROOT, stream_id)`. */
  function OutputDir(cfg: Config, streamId: string): string {
    PathJoin(cfg.outputRoot, streamId)
  }

  /**
   * The ffmpeg command of one stream: the camera URL as input, and the segments and the
   * playlist written inside that stream's output directory.
   */
  function StreamCommand(cfg: Config, ffmpegPath: string, rtspUrl: string, streamId: string): (args: seq<string>)
    ensures |args| == 30 && args[0] == ffmpegPath && args[4] == rtspUrl
    ensures StartsWith(args[28], OutputDir(cfg, streamId)) && EndsWith(args[28], SegmentPattern)
    ensures StartsWith(args[29], OutputDir(cfg, streamId)) && EndsWith(args[29], PlaylistName)
  {
    var dir := OutputDir(cfg, streamId);
    assert !StartsWith(SegmentPattern, "/") && !StartsWith(PlaylistName, "/") by {
      assert SegmentPattern[0] == 's' && PlaylistName[0] == 'i';
    }
    Command(ffmpegPath, rtspUrl, PathJoin(dir, SegmentPattern), PathJoin(dir, PlaylistName))
  }

  /**
   * The readiness loop: poll every half second while less than 30 seconds have passed, and
   * stop at the first poll that sees the playlist and a segment. Returns that poll's number,
   * or None when all 60 polls failed.
   */
  method AwaitPlaylist(poll: nat -> Listing) returns (readyAt: Option<nat>)
    ensures readyAt.Some? ==>
      readyAt.value < PollLimit && Ready(poll(readyAt.value))
      && forall j :: 0 <= j < readyAt.value ==> !Ready(poll(j))
    ensures readyAt.None? ==> forall j :: 0 <= j < PollLimit ==> !Ready(poll(j))
  {
    var tick := 0;
    while tick < PollLimit
      invariant 0 <= tick <= PollLimit
      invariant forall j :: 0 <= j < tick ==> !Ready(poll(j))
    {
      if Ready(poll(tick)) {
        return Some(tick);
      }
      tick := tick + 1;
    }
    return None;
  }

  /** Registering an id and removing it again leaves the table as it was without that id. */
  lemma UpdateThenRemove<K, V>(m: map<K, V>, k: K, v: V)
    ensures m[k := v] - {k} == m - {k}
  {
    assert (m[k := v] - {k}).Keys == (m - {k}).Keys;
  }

  class StreamRegistry {
    /** `active_streams`: stream id to the ffmpeg process producing it. */
    var active: map<string, Process>

    constructor ()
      ensures active == map[]
    {
      active := map[];
    }

    /**
     * Launch ffmpeg for `rtspUrl` under `streamId`, register it, and poll up to 60 times for
     * a playlist with at least one segment. On success the stream stays registered and its
     * playlist URL is returned; after 60 unsuccessful polls the entry is removed again.
     */
    method StartConversion(cfg: Config, rtspUrl: string, streamId: string, host: Host)
      returns (r: Result<string, StartError>)
      modifies this
      ensures host.ffmpegPath.None? ==> r == Err(FfmpegNotFound) && active == old(active)
      ensures host.ffmpegPath.Some? ==>
        (r.Ok? <==> exists i :: 0 <= i < PollLimit && Ready(host.poll(i)))
      ensures r.Ok? ==>
        && r.value == PlaylistUrl(cfg.serverUrl, streamId)
        && active == old(active)[streamId := Process(host.pid, StreamCommand(cfg, host.ffmpegPath.value, rtspUrl, streamId))]
      ensures r == Err(PlaylistTimeout) ==> active == old(active) - {streamId}
      ensures r.Err? ==> streamId !in active || active == old(active)
      ensures host.ffmpegPath.Some? && r.Err? ==> r.error == PlaylistTimeout
    {
      if host.ffmpegPath.None? {
        return Err(FfmpegNotFound);
      }
      var args := StreamCommand(cfg, host.ffmpegPath.value, rtspUrl, streamId);
      active := active[streamId := Process(host.pid, args)];

      var readyAt := AwaitPlaylist(host.poll);
      if readyAt.Some? {
        return Ok(PlaylistUrl(cfg.serverUrl, streamId));
      }
      // active_streams.pop(stream_id, None); terminating the process afterwards has no effect
      // on the table or on the result
      UpdateThenRemove(old(active), streamId, Process(host.pid, args));
      active := active - {streamId};
      return Err(PlaylistTimeout);
    }

    /**
     * `stop_ffmpeg_conversion`: the id is always removed; the result says whether a process
     * was registered under it and terminating it did not fail.
     */
    method StopConversion(streamId: string, outcome: StopOutcome) returns (stopped: bool)
      modifies this
      ensures active == old(active) - {streamId}
      ensures stopped <==> streamId in old(active) && !outcome.Failed?
    {
      var present := streamId in active;
      active := active - {streamId};
      if !present {
        return false;
      }
      match outcome
      case Terminated => stopped := true;
      case WaitTimedOut => stopped := true;
      case Failed => stopped := false;
    }
  }
}
