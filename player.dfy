/**
 * The video half of `VideoPlayer` in frontend/src/App.js: the effect that, whenever the stream
 * URL changes, tears down what the previous run attached and attaches the new URL, either
 * through an hls.js instance or through the browser's native HLS support.
 */
module Player {
  import opened Wrappers
  import opened Strings

  /** What the cleanup returned by the last effect run will do. */
  datatype Teardown =
    | NoTeardown   // the last run returned early (or the cleanup already ran)
    | DestroyHls   // `hls.destroy()`
    | ClearSrc     // `video.src = ''`

  /**
   * `hls` is the URL loaded into the live hls.js instance, if one exists; `src` the video
   * element's own source. `created` and `destroyed` count hls.js instances, `metadataListeners`
   * the `loadedmetadata` listeners added to the element, `plays` the calls of `video.play()`.
   */
  datatype PlayerState = PlayerState(
    teardown: Teardown,
    hls: Option<string>,
    src: string,
    metadataListeners: nat,
    created: nat,
    destroyed: nat,
    plays: nat)

  datatype Event =
    /** The effect runs for `hlsUrl`; the other fields are what the browser offers. */
    | EffectRun(hlsUrl: Option<string>, hasVideo: bool, hlsSupported: bool, canPlayHls: bool)
    | Unmount
    | ManifestParsed   // the live hls.js instance parsed its manifest
    | LoadedMetadata   // the video element loaded metadata

  /** A player not yet mounted: no element source, nothing attached. */
  const Initial: PlayerState := PlayerState(NoTeardown, None, "", 0, 0, 0, 0)

  /** The cleanup of the previous run. */
  function RunTeardown(s: PlayerState): (t: PlayerState)
    ensures s.teardown != DestroyHls ==> t.hls == s.hls
    ensures t.teardown == NoTeardown
    ensures s.teardown == DestroyHls ==> t.hls.None? && t.destroyed == s.destroyed + 1 && t.src == s.src
    ensures s.teardown == ClearSrc ==> t.src == "" && t.destroyed == s.destroyed
    ensures s.teardown == NoTeardown ==> t == s
    ensures t.created == s.created && t.plays == s.plays && t.metadataListeners == s.metadataListeners
  {
    match s.teardown
    case NoTeardown => s
    case DestroyHls => s.(teardown := NoTeardown, hls := None, destroyed := s.destroyed + 1)
    case ClearSrc => s.(teardown := NoTeardown, src := "")
  }

  /** Which cleanup an effect run leaves behind. */
  function Plan(hlsUrl: Option<string>, hasVideo: bool, hlsSupported: bool): (d: Teardown)
    ensures d == NoTeardown <==> !Truthy(hlsUrl) || !hasVideo
    ensures d == DestroyHls <==> Truthy(hlsUrl) && hasVideo && hlsSupported
    ensures d == ClearSrc <==> Truthy(hlsUrl) && hasVideo && !hlsSupported
  {
    if !Truthy(hlsUrl) || !hasVideo then NoTeardown
    else if hlsSupported then DestroyHls
    else ClearSrc
  }

  /**
   * The body of the effect after the previous cleanup ran: nothing without a URL or an
   * element; else a new hls.js instance for the URL when hls.js is supported; else the URL as
   * the element's source plus one more `loadedmetadata` listener when the browser plays HLS;
   * else nothing but a cleanup that clears the source.
   */
  function Attach(s: PlayerState, hlsUrl: Option<string>, hasVideo: bool, hlsSupported: bool, canPlayHls: bool): (t: PlayerState)
    requires s.teardown == NoTeardown
    ensures t.teardown == Plan(hlsUrl, hasVideo, hlsSupported)
    ensures t.created == s.created + (if t.teardown == DestroyHls then 1 else 0)
    ensures t.hls == (if t.teardown == DestroyHls then hlsUrl else s.hls)
    ensures var native := Truthy(hlsUrl) && hasVideo && !hlsSupported && canPlayHls;
      && t.src == (if native then hlsUrl.value else s.src)
      && t.metadataListeners == s.metadataListeners + (if native then 1 else 0)
    ensures t.destroyed == s.destroyed && t.plays == s.plays
  {
    if !Truthy(hlsUrl) || !hasVideo then s
    else if hlsSupported then s.(teardown := DestroyHls, hls := Some(hlsUrl.value), created := s.created + 1)
    else if canPlayHls then
      s.(teardown := ClearSrc, src := hlsUrl.value, metadataListeners := s.metadataListeners + 1)
    else s.(teardown := ClearSrc)
  }

  /**
   * `play()` is called once when the live instance parses its manifest, and once per listener
   * ever added when the element loads metadata (the listeners are never removed).
   */
  function Step(s: PlayerState, e: Event): (t: PlayerState)
    ensures t.plays != s.plays ==> e.ManifestParsed? || e.LoadedMetadata?
    ensures e.ManifestParsed? || e.LoadedMetadata? ==> t == s.(plays := t.plays)
    ensures e.ManifestParsed? && s.hls.None? ==> t == s
    ensures t.created <= s.created + 1 && t.destroyed <= s.destroyed + 1
  {
    match e
    case EffectRun(u, v, h, c) => Attach(RunTeardown(s), u, v, h, c)
    case Unmount => RunTeardown(s)
    case ManifestParsed => if s.hls.Some? then s.(plays := s.plays + 1) else s
    case LoadedMetadata => s.(plays := s.plays + s.metadataListeners)
  }

  function Run(s: PlayerState, es: seq<Event>): PlayerState
    decreases |es|
  {
    if es == [] then s else Run(Step(s, es[0]), es[1..])
  }

  /**
   * A live hls.js instance exists exactly when the pending cleanup destroys it, and every
   * instance but that one has been destroyed: at most one is ever alive.
   */
  ghost predicate Valid(s: PlayerState) {
    && (s.teardown == DestroyHls <==> s.hls.Some?)
    && s.created == s.destroyed + (if s.hls.Some? then 1 else 0)
  }

  lemma InitialValid()
    ensures Valid(Initial)
  {
  }

  lemma StepValid(s: PlayerState, e: Event)
    requires Valid(s)
    ensures Valid(Step(s, e))
  {
  }

  /** Any sequence of renders, media events and an unmount keeps at most one instance alive. */
  lemma {:induction false} RunValid(s: PlayerState, es: seq<Event>)
    requires Valid(s)
    ensures Valid(Run(s, es))
    ensures Run(s, es).created <= Run(s, es).destroyed + 1
    decreases |es|
  {
    if es != [] {
      StepValid(s, es[0]);
      RunValid(Step(s, es[0]), es[1..]);
    }
  }

  /** An effect run leaves the cleanup `Plan` chooses and attaches the URL it was given. */
  lemma EffectRunAttaches(s: PlayerState, u: Option<string>, v: bool, h: bool, c: bool)
    requires Valid(s)
    ensures var t := Step(s, EffectRun(u, v, h, c));
      && t.teardown == Plan(u, v, h)
      && (t.teardown == DestroyHls ==> t.hls == u && t.created == s.created + 1)
      && (t.teardown != DestroyHls ==> t.hls.None? && t.created == s.created)
      && (Truthy(u) && v && !h && c ==> t.src == u.value)
      && (t.src != RunTeardown(s).src || t.metadataListeners != s.metadataListeners ==> Truthy(u) && v && !h && c)
      && t.destroyed == s.destroyed + (if s.hls.Some? then 1 else 0)
  {
  }

  /** Unmounting destroys the live instance or clears the native source. */
  lemma UnmountReleases(s: PlayerState)
    requires Valid(s)
    ensures var t := Step(s, Unmount);
      && t.hls.None? && t.created == t.destroyed && t.teardown == NoTeardown
      && (s.teardown == ClearSrc ==> t.src == "")
  {
  }

  /** Only media events start playback; renders and cleanups never do. */
  lemma {:induction false} PlaysOnlyOnMediaEvents(s: PlayerState, es: seq<Event>)
    requires forall i :: 0 <= i < |es| ==> es[i].EffectRun? || es[i].Unmount?
    ensures Run(s, es).plays == s.plays
    decreases |es|
  {
    if es != [] {
      PlaysOnlyOnMediaEvents(Step(s, es[0]), es[1..]);
    }
  }

  /**
   * Native playback of `n` URLs in turn leaves `n` more listeners on the element, so a single
   * later `loadedmetadata` calls `play()` once for each of them.
   */
  lemma {:induction false} NativeListenersAccumulate(s: PlayerState, urls: seq<string>)
    requires forall i :: 0 <= i < |urls| ==> urls[i] != ""
    ensures var es := NativeRuns(urls);
      && Run(s, es).metadataListeners == s.metadataListeners + |urls|
      && Run(s, es + [LoadedMetadata]).plays == s.plays + s.metadataListeners + |urls|
    decreases |urls|
  {
    var es := NativeRuns(urls);
    if urls == [] {
      assert es + [LoadedMetadata] == [LoadedMetadata];
    } else {
      NativeListenersAccumulate(Step(s, es[0]), urls[1..]);
      assert (es + [LoadedMetadata])[1..] == NativeRuns(urls[1..]) + [LoadedMetadata];
      PlaysOnlyOnMediaEvents(s, es);
    }
  }

  /** Effect runs for each URL in a browser without hls.js but with native HLS. */
  function NativeRuns(urls: seq<string>): (es: seq<Event>)
    ensures |es| == |urls|
    ensures forall i :: 0 <= i < |es| ==> es[i] == EffectRun(Some(urls[i]), true, false, true)
  {
    if urls == [] then [] else [EffectRun(Some(urls[0]), true, false, true)] + NativeRuns(urls[1..])
  }

  /** The element and the hls.js instance the effect works on. */
  class VideoPlayer {
    var teardown: Teardown
    var hls: Option<string>
    var src: string
    var metadataListeners: nat
    var created: nat
    var destroyed: nat
    var plays: nat

    function State(): PlayerState
      reads this
    {
      PlayerState(teardown, hls, src, metadataListeners, created, destroyed, plays)
    }

    constructor ()
      ensures State() == Initial
    {
      teardown, hls, src := NoTeardown, None, "";
      metadataListeners, created, destroyed, plays := 0, 0, 0, 0;
    }

    /** The cleanup closure of the previous run. */
    method Cleanup()
      modifies this
      ensures State() == RunTeardown(old(State()))
    {
      if teardown == DestroyHls {
        hls, destroyed := None, destroyed + 1;
      } else if teardown == ClearSrc {
        src := "";
      }
      teardown := NoTeardown;
    }

    /** A render with a changed `hlsUrl`: the previous cleanup, then the effect body. */
    method OnEffect(hlsUrl: Option<string>, hasVideo: bool, hlsSupported: bool, canPlayHls: bool)
      modifies this
      ensures State() == Step(old(State()), EffectRun(hlsUrl, hasVideo, hlsSupported, canPlayHls))
    {
      Cleanup();
      if hlsUrl.None? || hlsUrl.value == "" || !hasVideo {
        return;
      }
      if hlsSupported {
        hls, created := Some(hlsUrl.value), created + 1;
        teardown := DestroyHls;
      } else if canPlayHls {
        src, metadataListeners := hlsUrl.value, metadataListeners + 1;
        teardown := ClearSrc;
      } else {
        teardown := ClearSrc;
      }
    }

    method OnUnmount()
      modifies this
      ensures State() == Step(old(State()), Unmount)
    {
      Cleanup();
    }

    method OnManifestParsed()
      modifies this
      ensures State() == Step(old(State()), ManifestParsed)
    {
      if hls.Some? {
        plays := plays + 1;
      }
    }

    method OnLoadedMetadata()
      modifies this
      ensures State() == Step(old(State()), LoadedMetadata)
    {
      plays := plays + metadataListeners;
    }
  }
}
