/**
 * The pure parts of `start_ffmpeg_conversion` in backend/app.py: where a stream's files go,
 * the ffmpeg argument list, the playlist URL handed to the browser and the readiness test
 * applied to each directory listing.
 */
module Ffmpeg {
  import opened Wrappers
  import opened Strings

  const PlaylistName: string := "index.m3u8"
  const SegmentPattern: string := "seg_%03d.ts"
  const SegmentSuffix: string := ".ts"

  /** 30 seconds of waiting in steps of half a second: polls at 0.0, 0.5, ..., 29.5. */
  const PollLimit: nat := 60

  /** The two environment-provided settings (HLS_OUTPUT_ROOT, HLS_SERVER_URL). */
  datatype Config = Config(outputRoot: string, serverUrl: string)

  /** POSIX `os.path.join(dir, name)` for two parts. */
  function PathJoin(dir: string, name: string): (p: string)
    ensures EndsWith(p, name)
    ensures StartsWith(name, "/") || dir == "" ==> p == name
    ensures !StartsWith(name, "/") ==> StartsWith(p, dir)
    ensures !StartsWith(name, "/") ==> |p| == |dir| + |name| + (if dir == "" || EndsWith(dir, "/") then 0 else 1)
    ensures !StartsWith(name, "/") && dir != "" ==> |name| < |p| && p[|p| - |name| - 1] == '/'
  {
    if StartsWith(name, "/") then name
    else if dir == "" || EndsWith(dir, "/") then dir + name
    else dir + "/" + name
  }

  /**
   * The argument vector handed to `subprocess.Popen`, given the ffmpeg path, the camera URL,
   * the segment file pattern and the playlist path inside the stream's output directory.
   */
  function Command(ffmpegPath: string, rtspUrl: string, segmentPath: string, playlistPath: string): (args: seq<string>)
    ensures |args| == 30
    ensures args[0] == ffmpegPath
    ensures args[3] == "-i" && args[4] == rtspUrl
    ensures args[27] == "-hls_segment_filename" && args[28] == segmentPath
    ensures args[29] == playlistPath
  {
    [ffmpegPath,
     "-rtsp_transport", "tcp",
     "-i", rtspUrl,
     "-c:v", "libx264",
     "-preset", "veryfast",
     "-tune", "zerolatency",
     "-sc_threshold", "0",
     "-g", "30",
     "-keyint_min", "30",
     "-c:a", "aac",
     "-b:a", "96k",
     "-hls_time", "1",
     "-hls_list_size", "3",
     "-hls_flags", "delete_segments+append_list",
     "-hls_segment_filename", segmentPath,
     playlistPath]
  }

  /**
   * Every option name sits at an odd position and is followed by exactly one value, so the
   * caller's URL is only ever the value of -i and is never read as an option.
   */
  lemma CommandOptionPositions(ffmpegPath: string, rtspUrl: string, segmentPath: string, playlistPath: string)
    ensures var args := Command(ffmpegPath, rtspUrl, segmentPath, playlistPath);
      forall i :: 1 <= i < 29 && i % 2 == 1 ==> StartsWith(args[i], "-")
  {
    var args := Command(ffmpegPath, rtspUrl, segmentPath, playlistPath);
    forall i | 1 <= i < 29 && i % 2 == 1 ensures StartsWith(args[i], "-") {
      assert |args[i]| > 0 && args[i][0] == '-';
    }
  }

  /** The playlist URL returned to the browser once the stream is ready. */
  function PlaylistUrl(serverUrl: string, streamId: string): (url: string)
    ensures |url| == |serverUrl| + |streamId| + 1 + |PlaylistName|
    ensures StartsWith(url, serverUrl)
    ensures EndsWith(url, "/" + PlaylistName)
    ensures url[|serverUrl|..|url| - |PlaylistName| - 1] == streamId
  {
    serverUrl + streamId + "/" + PlaylistName
  }

  /** Different stream ids under one server give different playlist URLs. */
  lemma PlaylistUrlInjective(serverUrl: string, a: string, b: string)
    requires PlaylistUrl(serverUrl, a) == PlaylistUrl(serverUrl, b)
    ensures a == b
  {
  }

  /** `any(fn.endswith('.ts') for fn in files)`, scanning the names in order. */
  function HasSegments(files: seq<string>): (r: bool)
    ensures r <==> exists i :: 0 <= i < |files| && EndsWith(files[i], SegmentSuffix)
  {
    if files == [] then false
    else
      assert forall i :: 1 <= i < |files| ==> files[i] == files[1..][i - 1];
      EndsWith(files[0], SegmentSuffix) || HasSegments(files[1..])
  }

  /**
   * What one poll sees of the output directory: whether the playlist exists, and the names
   * `os.listdir` returned (None when it raised).
   */
  datatype Listing = Listing(playlistExists: bool, files: Option<seq<string>>)

  /**
   * The condition the poll loop waits for: the playlist exists and the listing succeeded and
   * holds a segment file; a listing that raised counts as no segments.
   */
  predicate Ready(l: Listing): (r: bool)
    ensures r <==>
      && l.playlistExists && l.files.Some?
      && exists i :: 0 <= i < |l.files.value| && EndsWith(l.files.value[i], SegmentSuffix)
  {
    l.playlistExists && l.files.Some? && HasSegments(l.files.value)
  }
}
