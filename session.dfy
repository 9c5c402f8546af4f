/**
 * The stream session of `App` in frontend/src/App.js: `hlsUrl`, `streamId` and `loading`, the
 * handlers `handleStartStream` and `handleStopStream`, and the button that calls them. Each
 * handler is split at its `await`: the part that runs on the click is one event, the part
 * that runs when the request settles is another, and any other event may come in between.
 */
module Session {
  import opened Wrappers
  import opened Strings

  /** A request sent to the backend. */
  datatype Request = PostStart(rtspUrl: string) | PostStop(streamId: string)

  /** What the user is shown or the console receives when a request fails. */
  datatype Report = StartAlert | StopWarning

  /**
   * `stopsInFlight` counts stop requests not yet settled; `sent` and `reports` record the
   * requests and the failure reports in order.
   */
  datatype SessionState = SessionState(
    hlsUrl: Option<string>,
    streamId: Option<string>,
    loading: bool,
    stopsInFlight: nat,
    sent: seq<Request>,
    reports: seq<Report>)

  datatype Event =
    | StartRequested(debounced: string)               // handleStartStream up to its await
    | StartSucceeded(hlsUrl: string, streamId: string) // the start reply arrived
    | StartFailed                                      // the start request raised
    | StopRequested                                    // handleStopStream up to its await
    | StopFinished(ok: bool)                           // a stop request settled

  const Initial: SessionState := SessionState(None, None, false, 0, [], [])

  /**
   * Which events can happen: a start only while none is loading, a start reply only while one
   * is, a stop settling only while one was sent. Every click on an enabled button is allowed.
   * Beyond the page's clicks it also allows a start while a stream URL is set (the button
   * calls stop then), and a stop while loading or with an empty debounced URL (the button is
   * disabled then); `PageRunnable` rules those out.
   */
  predicate Enabled(s: SessionState, e: Event): (b: bool)
    ensures (exists d :: !Button(s, d).disabled && e == Click(s, d)) ==> b
  {
    match e
    case StartRequested(_) => !s.loading
    case StartSucceeded(_, _) => s.loading
    case StartFailed => s.loading
    case StopRequested => true
    case StopFinished(_) => s.stopsInFlight > 0
  }

  /**
   * The synchronous part of `handleStopStream`: nothing while the stream id is falsy (null or
   * empty), else one more stop request in flight, for that id; the session itself is kept.
   */
  function RequestStop(s: SessionState): (t: SessionState)
    ensures !Truthy(s.streamId) ==> t == s
    ensures Truthy(s.streamId) ==>
      && t.sent == s.sent + [PostStop(s.streamId.value)] && t.stopsInFlight == s.stopsInFlight + 1
      && t.hlsUrl == s.hlsUrl && t.streamId == s.streamId && t.loading == s.loading
      && t.reports == s.reports
  {
    if !Truthy(s.streamId) then s
    else s.(stopsInFlight := s.stopsInFlight + 1, sent := s.sent + [PostStop(s.streamId.value)])
  }

  /**
   * Requests are only ever appended; the session changes only when a reply arrives; `loading`
   * changes only on a start or its reply.
   */
  function Step(s: SessionState, e: Event): (t: SessionState)
    ensures |s.sent| <= |t.sent| && t.sent[..|s.sent|] == s.sent
    ensures t.hlsUrl != s.hlsUrl || t.streamId != s.streamId ==> e.StartSucceeded? || e.StopFinished?
    ensures t.loading != s.loading ==> e.StartRequested? || IsStartReply(e)
  {
    match e
    case StartRequested(u) =>
      var t := RequestStop(s);
      t.(loading := true, sent := t.sent + [PostStart(u)])
    case StartSucceeded(h, id) => s.(hlsUrl := Some(h), streamId := Some(id), loading := false)
    case StartFailed => s.(loading := false, reports := s.reports + [StartAlert])
    case StopRequested => RequestStop(s)
    case StopFinished(ok) =>
      // Enabled only with a stop in flight; the guard keeps Step total
      s.(hlsUrl := None, streamId := None,
         stopsInFlight := if s.stopsInFlight == 0 then 0 else s.stopsInFlight - 1,
         reports := if ok then s.reports else s.reports + [StopWarning])
  }

  /** Every event of the trace is enabled when it happens. */
  predicate Runnable(s: SessionState, es: seq<Event>)
    decreases |es|
  {
    es == [] || (Enabled(s, es[0]) && Runnable(Step(s, es[0]), es[1..]))
  }

  function Run(s: SessionState, es: seq<Event>): SessionState
    decreases |es|
  {
    if es == [] then s else Run(Step(s, es[0]), es[1..])
  }

  predicate IsStartReply(e: Event) {
    e.StartSucceeded? || e.StartFailed?
  }

  /**
   * A click on Start stops the current session first (without waiting for it), then sets
   * `loading` and sends the debounced URL; the session itself is untouched until replies come.
   */
  lemma StartSendsDebounced(s: SessionState, u: string)
    requires Enabled(s, StartRequested(u))
    ensures var t := Step(s, StartRequested(u));
      && t.loading
      && t.sent == s.sent + (if Truthy(s.streamId) then [PostStop(s.streamId.value)] else []) + [PostStart(u)]
      && t.hlsUrl == s.hlsUrl && t.streamId == s.streamId
  {
  }

  /**
   * `loading` stays true from the start request until its reply, whatever happens meanwhile,
   * and is false right after the reply, whether it succeeded or failed.
   */
  lemma {:induction false} LoadingWhileInFlight(s: SessionState, mid: seq<Event>)
    requires s.loading
    requires Runnable(s, mid)
    requires forall i :: 0 <= i < |mid| ==> !IsStartReply(mid[i])
    ensures Run(s, mid).loading
    ensures forall r :: IsStartReply(r) ==> !Step(Run(s, mid), r).loading
    decreases |mid|
  {
    if mid != [] {
      assert !mid[0].StartRequested?;
      LoadingWhileInFlight(Step(s, mid[0]), mid[1..]);
    }
  }

  /** A successful start takes the reply's URL and id; a failed one sets neither and alerts. */
  lemma StartOutcome(s: SessionState, h: string, id: string)
    requires s.loading
    ensures var t := Step(s, StartSucceeded(h, id));
      t.hlsUrl == Some(h) && t.streamId == Some(id) && !t.loading
    ensures var t := Step(s, StartFailed);
      && t.hlsUrl == s.hlsUrl && t.streamId == s.streamId && !t.loading
      && t.reports == s.reports + [StartAlert] && t.sent == s.sent
  {
  }

  /** Stop with a falsy stream id (null or empty) does nothing at all, now or later. */
  lemma StopWithoutSessionIsNoOp(s: SessionState)
    requires !Truthy(s.streamId)
    ensures Step(s, StopRequested) == s
  {
  }

  /**
   * A stop sent for a session clears the session when it settles, whether the backend
   * confirmed it or not; a failure is only reported.
   */
  lemma StopAlwaysClears(s: SessionState, ok: bool)
    requires Truthy(s.streamId)
    ensures var t := Step(Step(s, StopRequested), StopFinished(ok));
      && t.hlsUrl.None? && t.streamId.None?
      && t.sent == s.sent + [PostStop(s.streamId.value)]
      && t.stopsInFlight == s.stopsInFlight
      && t.reports == (if ok then s.reports else s.reports + [StopWarning])
  {
  }

  // ------------------------------------------------------------------------- the button

  datatype Action = StartAction | StopAction

  datatype ButtonView = ButtonView(disabled: bool, onClick: Action, text: string)

  const ProcessingLabel: string := "Processing..."
  const StopLabel: string := "Stop Stream"
  const StartLabel: string := "Start Stream"

  /**
   * The stream button: disabled while loading or while the debounced URL is empty (so also
   * Stop, when the URL box has been cleared), calling stop when a stream URL is set and
   * start otherwise, labelled by the same tests.
   */
  function Button(s: SessionState, debounced: string): (b: ButtonView)
    ensures b.disabled <==> s.loading || debounced == ""
    ensures b.onClick == StopAction <==> Truthy(s.hlsUrl)
    ensures b.text == ProcessingLabel <==> s.loading
    ensures !s.loading ==> (b.text == StopLabel <==> b.onClick == StopAction)
    ensures !s.loading ==> (b.text == StartLabel <==> b.onClick == StartAction)
  {
    ButtonView(
      s.loading || debounced == "",
      if Truthy(s.hlsUrl) then StopAction else StartAction,
      if s.loading then ProcessingLabel else if Truthy(s.hlsUrl) then StopLabel else StartLabel)
  }

  /** The event a click on the button starts. */
  function Click(s: SessionState, debounced: string): (e: Event)
    ensures e == StopRequested <==> Truthy(s.hlsUrl)
    ensures e.StartRequested? ==> e.debounced == debounced
  {
    if Button(s, debounced).onClick == StopAction then StopRequested else StartRequested(debounced)
  }

  /**
   * A click on an enabled button is an enabled event, and a start it triggers sends a
   * non-empty URL.
   */
  lemma ClickEnabled(s: SessionState, debounced: string)
    requires !Button(s, debounced).disabled
    ensures Enabled(s, Click(s, debounced))
    ensures var t := Step(s, Click(s, debounced));
      Click(s, debounced).StartRequested? ==> t.sent[|t.sent| - 1] == PostStart(debounced) && debounced != ""
  {
  }

  /**
   * An event the page itself can produce in state `s` with debounced URL `d`: a start or stop
   * only as the click of the enabled button; replies are not constrained further.
   */
  predicate FromPage(s: SessionState, d: string, e: Event) {
    (e.StartRequested? || e.StopRequested?) ==> !Button(s, d).disabled && e == Click(s, d)
  }

  /** Every event of the trace is enabled and comes from the page. */
  predicate PageRunnable(s: SessionState, d: string, es: seq<Event>)
    decreases |es|
  {
    es == [] || (Enabled(s, es[0]) && FromPage(s, d, es[0]) && PageRunnable(Step(s, es[0]), d, es[1..]))
  }

  /** The stream URL and the stream id are both set or both unset. */
  predicate Paired(s: SessionState) {
    Truthy(s.hlsUrl) <==> Truthy(s.streamId)
  }

  /** Every event keeps URL and id paired, as long as a start reply carries both. */
  lemma StepPaired(s: SessionState, e: Event)
    requires Paired(s)
    requires e.StartSucceeded? ==> e.hlsUrl != "" && e.streamId != ""
    ensures Paired(Step(s, e))
  {
  }

  /**
   * With URL and id paired, a start from the page never stops a previous stream: the button
   * calls stop whenever a stream URL is set, so `handleStartStream` finds no stream id.
   */
  lemma PageStartSendsOnlyStart(s: SessionState, d: string)
    requires Paired(s) && !Button(s, d).disabled && Click(s, d).StartRequested?
    ensures Step(s, Click(s, d)).sent == s.sent + [PostStart(d)]
    ensures Step(s, Click(s, d)).stopsInFlight == s.stopsInFlight
  {
  }

  /**
   * Outside what the page does, `Enabled` also allows a start while a stream plays and a stop
   * while a start is loading.
   */
  lemma EnabledBeyondPage(d: string)
    requires d != ""
    ensures var s := Initial.(hlsUrl := Some("u"), streamId := Some("s"));
      && Enabled(s, StartRequested(d)) && !FromPage(s, d, StartRequested(d))
    ensures var s := Initial.(loading := true);
      && Enabled(s, StopRequested) && !FromPage(s, d, StopRequested)
  {
  }

  /**
   * Stop replies are not tied to the session they were sent for. Clicking Stop twice sends two
   * stops; the first reply ends the session; a new start succeeds; then the second, late reply
   * clears the new session, leaving its stream running on the server with no id in the page.
   */
  lemma LateStopClearsNewSession(d: string)
    requires d != ""
    ensures var s := Initial.(hlsUrl := Some("http://h/s1/index.m3u8"), streamId := Some("s1"));
      var es := [StopRequested, StopRequested, StopFinished(true), StartRequested(d),
                 StartSucceeded("http://h/s2/index.m3u8", "s2"), StopFinished(true)];
      && PageRunnable(s, d, es)
      && Run(s, es[..5]).streamId == Some("s2")
      && Run(s, es).sent == [PostStop("s1"), PostStop("s1"), PostStart(d)]
      && Run(s, es).hlsUrl.None? && Run(s, es).streamId.None?
  {
    var s := Initial.(hlsUrl := Some("http://h/s1/index.m3u8"), streamId := Some("s1"));
    var es := [StopRequested, StopRequested, StopFinished(true), StartRequested(d),
               StartSucceeded("http://h/s2/index.m3u8", "s2"), StopFinished(true)];
    var s1 := Step(s, es[0]);
    var s2 := Step(s1, es[1]);
    var s3 := Step(s2, es[2]);
    var s4 := Step(s3, es[3]);
    var s5 := Step(s4, es[4]);
    var s6 := Step(s5, es[5]);
    assert Click(s, d) == StopRequested && Click(s1, d) == StopRequested;
    assert Click(s3, d) == StartRequested(d);
    assert PageRunnable(s5, d, es[5..]) by {
      assert es[5..][1..] == [];
    }
    assert PageRunnable(s4, d, es[4..]) by {
      assert es[4..][1..] == es[5..];
    }
    assert PageRunnable(s3, d, es[3..]) by {
      assert es[3..][1..] == es[4..];
    }
    assert PageRunnable(s2, d, es[2..]) by {
      assert es[2..][1..] == es[3..];
    }
    assert PageRunnable(s1, d, es[1..]) by {
      assert es[1..][1..] == es[2..];
    }
    assert es[5..][1..] == [];
    assert Run(s, es) == Run(s1, es[1..]) == Run(s2, es[2..]) == Run(s3, es[3..])
      == Run(s4, es[4..]) == Run(s5, es[5..]) == s6;
    var p := es[..5];
    assert p[1..] == es[1..5] && p[1..][1..] == es[2..5] && es[2..5][1..] == es[3..5];
    assert es[3..5][1..] == es[4..5] && es[4..5][1..] == [];
    assert Run(s, p) == Run(s1, es[1..5]) == Run(s2, es[2..5]) == Run(s3, es[3..5])
      == Run(s4, es[4..5]) == s5;
  }

  /** The state `App` keeps, updated by the two handlers. */
  class SessionController {
    var hlsUrl: Option<string>
    var streamId: Option<string>
    var loading: bool
    var stopsInFlight: nat
    var sent: seq<Request>
    var reports: seq<Report>

    function State(): SessionState
      reads this
    {
      SessionState(hlsUrl, streamId, loading, stopsInFlight, sent, reports)
    }

    constructor ()
      ensures State() == Initial
    {
      hlsUrl, streamId, loading := None, None, false;
      stopsInFlight, sent, reports := 0, [], [];
    }

    /** `handleStopStream` up to its await. */
    method HandleStopStream()
      modifies this
      ensures State() == Step(old(State()), StopRequested)
    {
      if !Truthy(streamId) {
        return;
      }
      sent := sent + [PostStop(streamId.value)];
      stopsInFlight := stopsInFlight + 1;
    }

    /** `handleStartStream` up to its await. */
    method HandleStartStream(debounced: string)
      requires !loading
      modifies this
      ensures State() == Step(old(State()), StartRequested(debounced))
    {
      if Truthy(streamId) {
        HandleStopStream();
      }
      loading := true;
      sent := sent + [PostStart(debounced)];
    }

    /** The rest of `handleStartStream` after a reply. */
    method StartSettled(reply: Option<(string, string)>)
      requires loading
      modifies this
      ensures reply.Some? ==> State() == Step(old(State()), StartSucceeded(reply.value.0, reply.value.1))
      ensures reply.None? ==> State() == Step(old(State()), StartFailed)
    {
      if reply.Some? {
        hlsUrl := Some(reply.value.0);
        streamId := Some(reply.value.1);
      } else {
        reports := reports + [StartAlert];
      }
      loading := false;
    }

    /** The rest of `handleStopStream` after the request settled. */
    method StopSettled(ok: bool)
      requires stopsInFlight > 0
      modifies this
      ensures State() == Step(old(State()), StopFinished(ok))
    {
      if !ok {
        reports := reports + [StopWarning];
      }
      hlsUrl := None;
      streamId := None;
      stopsInFlight := stopsInFlight - 1;
    }
  }
}
