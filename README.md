# RTSP livestream with overlays — a verified model

This project models a small livestreaming application in Dafny and proves properties of the model.
A Flask server starts one ffmpeg process per camera stream. Each process turns an RTSP source into an
HLS playlist. The server also keeps overlay records in MongoDB. A React page starts and stops streams,
plays the playlist and draws the overlays over the video.

Browser side (`frontend/src/App.js`):

- `debounce.dfy` models `useDebouncedValue`. Time runs in ticks of one millisecond. Each change of
  the value or of the delay cancels the live timer and starts a new one.
- `player.dfy` models the video effect of `VideoPlayer`. It attaches the stream through hls.js or
  natively, and its cleanup destroys the hls.js instance or clears the element's source.
- `compositor.dfy` models the overlay layers `VideoPlayer` draws. `Overlays` holds the overlay
  record; `Compositor` maps overlays to layers.
- `form.dfy` models the edit form of `OverlayManager`: `handleChange` and the selection effect.
- `session.dfy` models `hlsUrl`, `streamId` and `loading` in `App`, the two handlers that change
  them, and the stream button. Each handler is split at its `await` into two events.

Server side (`backend/app.py`):

- `hex.dfy` models hexadecimal text. It covers stream ids and ObjectId strings.
- `ffmpeg.dfy` holds the pure parts of a conversion: paths, the argument list, the playlist URL
  and the readiness test.
- `registry.dfy` models `active_streams` as a class over a map from stream id to process. It covers
  start, with its 60-poll wait, and stop.
- `routes.dfy` models what each HTTP route decides: the status code, what is registered, and what
  is sent to the overlay store.

`common.dfy` holds `Option`/`Result` and the string helpers both sides use. These are Python's
`isspace` and `strip`, and JavaScript truthiness of an optional string.

The model follows the code where it differs from the design the application was built to:

- A stop reply is not tied to the session it was sent for. Clicking Stop twice sends two stops.
  If a new stream starts before the second reply arrives, that reply clears the new session.
  `Session.LateStopClearsNewSession` exhibits this trace, built from clicks on the enabled button.
- `handleStartStream` stops a current session without waiting for the stop. From the page that
  branch is not reached: the button calls stop while a stream URL is set, and URL and id are set
  and cleared together (`Session.PageStartSendsOnlyStart`).
- Nothing discards a stale start reply.
- The debounced value starts equal to the first input. It is not "no output before the first settle".
- The overlay layers require `position`, and `size` for a logo, because the code reads them
  without a guard. They do not default to 0.
- The selection effect never sets `color`. After it runs, even once at mount, the form has no colour.
- The stream button is disabled whenever the debounced URL is empty. With the URL box cleared
  during a stream, the Stop button is disabled as well.
- `loadedmetadata` listeners are never removed. Each native attach adds one more `play()` call to
  every later metadata event.

## Model

| member | source | states |
|---|---|---|
| Strings.StripEmptyIffBlank | backend/app.py:173 | `strip()` leaves nothing exactly when every character is whitespace |
| Hex.Encode | backend/app.py:176 | `bytes.hex()` gives two characters per byte, all lower-case hex digits |
| Hex.Decode | backend/app.py:213 | a decoded string has two characters per byte |
| Hex.DecodeDefined | backend/app.py:213 | hex text decodes exactly when it has even length and only hex digits |
| Hex.DecodeEncode | backend/app.py:36-38 | decoding the hex text of bytes gives back those bytes |
| Hex.EncodeInjective | backend/app.py:176 | different bytes give different hex text |
| Ffmpeg.PathJoin | backend/app.py:45-47 | POSIX join: an absolute name wins; otherwise the result is the directory, a separator unless the directory is empty or ends in one, and the name, with exactly that length |
| Ffmpeg.Command | backend/app.py:50-67 | 30 arguments: ffmpeg first, the camera URL right after `-i`, the segment pattern after `-hls_segment_filename`, the playlist last |
| Ffmpeg.CommandOptionPositions | backend/app.py:50-67 | every odd position up to 27 holds an option name, so the URL is only ever an option value |
| Ffmpeg.PlaylistUrl | backend/app.py:102 | the URL is the server URL, the stream id, `/index.m3u8`, and the id can be cut back out |
| Ffmpeg.PlaylistUrlInjective | backend/app.py:102 | different stream ids give different playlist URLs |
| Ffmpeg.HasSegments | backend/app.py:93-98 | a listing has segments exactly when some file name ends in `.ts` |
| Ffmpeg.Ready | backend/app.py:101 | a poll succeeds exactly when the playlist exists, the listing did not raise, and some file name ends in `.ts` |
| Registry.StreamCommand | backend/app.py:45-67 | the stream's command reads the camera URL and writes segments and playlist inside the stream's output directory |
| Registry.AwaitPlaylist | backend/app.py:89-104 | returns the first of 60 polls that sees the playlist and a segment, or none when all 60 fail |
| Registry.StreamRegistry.constructor | backend/app.py:34 | the table starts empty |
| Registry.StreamRegistry.StartConversion | backend/app.py:40-128 | without ffmpeg: error, table unchanged; otherwise it succeeds exactly when some poll is ready, success returns the playlist URL and registers the process under the id, and a timeout removes the id |
| Registry.StreamRegistry.StopConversion | backend/app.py:130-149 | the id is always removed and nothing else changes; true exactly when it was present and terminating did not fail |
| Routes.RtspUrlOf | backend/app.py:170-174 | the URL is accepted exactly when it is a string with a non-whitespace character |
| Routes.StreamId | backend/app.py:176 | `stream_` followed by 8 lower-case hex digits |
| Routes.StreamIdDecodes | backend/app.py:176 | the 4 random bytes can be read back from the id |
| Routes.StartStatus | backend/app.py:173-182 | 400 for a bad URL, 500 for a failed start, 200 for a started stream, each exactly |
| Routes.StartStream | backend/app.py:168-182 | a bad URL gives 400 and leaves the table unchanged; a valid URL is started exactly when ffmpeg is found and some poll is ready, with the drawn id, its playlist URL and its process registered; otherwise the error says which, and the table is unchanged (no ffmpeg) or lacks the id (timeout) |
| Routes.StopStream | backend/app.py:184-188 | 200 exactly when the stop succeeded, 404 otherwise; the id is removed |
| Routes.CreateProblemOf | backend/app.py:192-198 | missing fields exactly when a required key is absent; acceptable exactly when all are present and position and size are objects |
| Routes.CreateStatus | backend/app.py:190-201 | 400 exactly when a check fails; otherwise 201 when the insert succeeds and 500 when it raises |
| Routes.ParseObjectId | backend/app.py:213 | accepted exactly when the id is 24 hex digits, giving 12 bytes |
| Routes.SetDocument | backend/app.py:211 | the body without `_id`, every other field kept |
| Routes.UpdateCall | backend/app.py:208-213 | an update is sent exactly when the id parses, with that filter and the body without `_id` |
| Routes.DeleteCall | backend/app.py:221-224 | a delete is sent exactly when the id parses, with that filter |
| Routes.StoreStatus | backend/app.py:212-230 | 400 exactly for a bad id or a store error, 404 exactly when nothing matched, 200 otherwise |
| Routes.DocToJson | backend/app.py:36-38 | `_id` becomes a string and every other field is kept |
| Routes.ListedIdAccepted | backend/app.py:203-230 | an id the store assigned, as the list shows it, parses back to the same ObjectId, so update and delete accept it |
| Routes.ClientIdRefused | backend/app.py:190-230 | a client-sent `_id` that is not 24 characters passes the create checks and is stored, but update and delete then refuse it with 400 |
| Compositor.LogoSrc | frontend/src/App.js:64-68 | content is kept as it is exactly when it starts with `http` or `data:`; otherwise the PNG data prefix goes before it |
| Compositor.LogoSrcIdempotent | frontend/src/App.js:64-68 | resolving an image source twice changes nothing |
| Compositor.LayerOf | frontend/src/App.js:60-101 | top and left come from the position, clicks pass through; a logo gives an image sized by `size` and named by `name`, anything else 16px bold text in its colour or white |
| Compositor.TextLayerIgnoresSize | frontend/src/App.js:82-101 | a text layer does not depend on the overlay's size |
| Compositor.Layers | frontend/src/App.js:59-104 | as many layers as overlays, the first from the first overlay |
| Compositor.Compose | frontend/src/App.js:59 | no layers while the stream URL is falsy |
| Compositor.LayersAt | frontend/src/App.js:59-104 | one layer per overlay, and layer i is the layer of overlay i |
| Compositor.ComposeIsPointwise | frontend/src/App.js:59-104 | with a stream URL, a layer depends on its own overlay only, whatever the rest of the list |
| OverlayForm.FormDeterminedByInputs | frontend/src/App.js:112-119 | a form is determined by what its inputs show |
| OverlayForm.HandleChange | frontend/src/App.js:149-158 | the edited input shows the new value and every other input keeps its value |
| OverlayForm.ChangesCommute | frontend/src/App.js:149-158 | edits of two different inputs give the same form in either order |
| OverlayForm.LastChangeWins | frontend/src/App.js:149-158 | a second edit of an input replaces the first |
| OverlayForm.FormFor | frontend/src/App.js:122-146 | no colour either way; the blank form without a selection; otherwise the overlay's name, content, type (or `text`) and numbers, with blanks for a missing position or size |
| OverlayForm.SelectionShowsLayerPlacement | frontend/src/App.js:122-136 | a selected overlay's X, Y (and logo size) boxes show where its layer is drawn |
| Debounce.Start | frontend/src/App.js:8-13 | the output starts equal to the input and a timer for it is set |
| Debounce.Step | frontend/src/App.js:10-13 | the output changes only when a tick fires the live timer, to the value it holds; renders set the input or the delay |
| Debounce.StartInv | frontend/src/App.js:8-13 | at the start the timer holds the current value |
| Debounce.StepInv | frontend/src/App.js:10-13 | every event keeps the live timer holding the current value |
| Debounce.RunInv | frontend/src/App.js:10-13 | after any events the live timer holds the current value |
| Debounce.QuietTicks | frontend/src/App.js:11 | quiet time only counts the timer down until it fires, then the output is the input |
| Debounce.SettlesAfterQuiet | frontend/src/App.js:8-13 | after a change to v, the output keeps its old value for under max(delay, 1) ticks and is v from then on |
| Debounce.SupersededNeverEmitted | frontend/src/App.js:10-13 | a value replaced within the delay never reaches the output |
| Debounce.EmitsOnlyInputs | frontend/src/App.js:8-14 | the output is always the first output, the first input or a value the input took |
| Debounce.PageUrlSettles | frontend/src/App.js:292 | with the default delay, a new URL reaches the page's debounced value after 500 quiet ticks and not before |
| Debounce.Debouncer.constructor | frontend/src/App.js:8-13 | the first render's state |
| Debounce.Debouncer.Debounced | frontend/src/App.js:14 | the hook returns the output |
| Debounce.Debouncer.OnValue | frontend/src/App.js:10-13 | a render with a new value restarts the timer for it; the same value changes nothing |
| Debounce.Debouncer.OnDelay | frontend/src/App.js:10-13 | a render with a new delay restarts the timer for the current value |
| Debounce.Debouncer.OnTick | frontend/src/App.js:11 | a tick counts the live timer down and fires it on its last millisecond |
| Player.RunTeardown | frontend/src/App.js:41-44 | the cleanup destroys the live instance or clears the source, and touches nothing else |
| Player.Plan | frontend/src/App.js:19-40 | no cleanup exactly without URL or element; an hls.js cleanup exactly when hls.js is supported; a source-clearing cleanup otherwise |
| Player.Attach | frontend/src/App.js:19-39 | the cleanup `Plan` chooses; a new instance with the URL exactly on the hls.js path; source and one more listener exactly on the native path |
| Player.Step | frontend/src/App.js:18-45 | only media events call `play()` and they change nothing else; a manifest event without a live instance does nothing |
| Player.InitialValid | frontend/src/App.js:18-21 | before mounting no instance exists |
| Player.StepValid | frontend/src/App.js:18-45 | every event keeps at most one live instance, the one the pending cleanup destroys |
| Player.RunValid | frontend/src/App.js:18-45 | after any events at most one instance is alive |
| Player.EffectRunAttaches | frontend/src/App.js:18-45 | an effect run first destroys the old instance, then loads the URL into a new one with hls.js or sets it as the source natively; the source and the listeners change only on the native path |
| Player.UnmountReleases | frontend/src/App.js:41-44 | unmounting leaves no live instance and clears a native source |
| Player.PlaysOnlyOnMediaEvents | frontend/src/App.js:26-38 | renders and cleanups never call `play()` |
| Player.NativeListenersAccumulate | frontend/src/App.js:32-38 | n native attaches leave n more listeners, and one metadata event then calls `play()` once per listener |
| Player.VideoPlayer.constructor | frontend/src/App.js:18-21 | the unmounted player |
| Player.VideoPlayer.Cleanup | frontend/src/App.js:41-44 | runs the pending cleanup |
| Player.VideoPlayer.OnEffect | frontend/src/App.js:18-45 | the previous cleanup, then the effect body |
| Player.VideoPlayer.OnUnmount | frontend/src/App.js:41-44 | the last cleanup |
| Player.VideoPlayer.OnManifestParsed | frontend/src/App.js:27-31 | `play()` when the live instance parsed its manifest |
| Player.VideoPlayer.OnLoadedMetadata | frontend/src/App.js:34-38 | `play()` once per listener |
| Session.Enabled | frontend/src/App.js:312-337 | every click on an enabled button is allowed; beyond those it allows a start while a stream URL is set and a stop while loading or with an empty URL |
| Session.RequestStop | frontend/src/App.js:327-330 | nothing while the stream id is null or empty, otherwise one more stop request in flight for it, with the session kept |
| Session.Step | frontend/src/App.js:312-337 | requests are only appended, the session changes only on a reply, and `loading` only on a start or its reply |
| Session.StartSendsDebounced | frontend/src/App.js:312-316 | start sends a stop first when the stream id is truthy, then sets loading and sends the debounced URL |
| Session.LoadingWhileInFlight | frontend/src/App.js:314-324 | loading stays true until the start reply and is false after it, whatever the outcome |
| Session.StartOutcome | frontend/src/App.js:315-324 | success takes the reply's URL and id; failure sets neither and alerts |
| Session.StopWithoutSessionIsNoOp | frontend/src/App.js:328 | stop with a null or empty stream id changes nothing |
| Session.StopAlwaysClears | frontend/src/App.js:327-337 | a stop clears URL and id when it settles, whether it succeeded or not |
| Session.StepPaired | frontend/src/App.js:317-318 | URL and id stay both set or both unset, as long as a start reply carries both |
| Session.PageStartSendsOnlyStart | frontend/src/App.js:312-316 | with URL and id paired, a start clicked on the page sends only the start request |
| Session.EnabledBeyondPage | frontend/src/App.js:354-357 | a start while a stream plays and a stop while loading are allowed events the page does not produce |
| Session.LateStopClearsNewSession | frontend/src/App.js:312-337 | two Stop clicks, the first reply, a new start and then the late second reply: the new session is cleared |
| Session.Button | frontend/src/App.js:356-357 | disabled exactly while loading or with an empty debounced URL; calls stop exactly when a stream URL is set; the label says Processing, Stop or Start to match |
| Session.Click | frontend/src/App.js:356 | a click is a stop exactly when a stream URL is set, else a start with the debounced URL |
| Session.ClickEnabled | frontend/src/App.js:354-357 | a click on an enabled button is an event that can happen, and a start sends a non-empty URL |
| Session.SessionController.constructor | frontend/src/App.js:293-295 | no stream and not loading |
| Session.SessionController.HandleStopStream | frontend/src/App.js:327-330 | the stop request, sent only with a stream id |
| Session.SessionController.HandleStartStream | frontend/src/App.js:312-316 | a stop if a stream is set, then loading and the start request |
| Session.SessionController.StartSettled | frontend/src/App.js:317-324 | the reply's URL and id on success, an alert on failure, and loading off either way |
| Session.SessionController.StopSettled | frontend/src/App.js:331-336 | the URL and id cleared, with a warning on failure |

## Left out

- Input and output are not modelled: HTTP, MongoDB, the filesystem, ffmpeg's process and its log. Their answers are parameters: `Host`, `StopOutcome`, `StoreOutcome` and the reply events.
- `os.makedirs`, `Popen` failures, `serve_hls` and the log tail in the timeout message are left out. They are file and process I/O.
- Windows process handling is left out. Paths follow POSIX `os.path.join`.
- The poll loop counts 60 polls instead of adding float seconds. Readiness is a parameter for each poll.
- Bodies that are not JSON objects are left out. With them Flask raises and the server answers 500.
- Routes.ParseObjectId: does not accept the whitespace that `bytes.fromhex` tolerates inside an ObjectId string, because the bson library is not part of this model.
- Routes.ListedIdAccepted: holds only for ids the store assigned. `create_overlay` stores a client-sent `_id` as it is, and `str()` of an arbitrary stored value is not modelled; `Routes.ClientIdRefused` shows such an id being refused.
- The failure of `insert_one` is a parameter of `Routes.CreateStatus`; the id it returns is not modelled.
- Compositor.LayerOf: requires a position, and a size for a logo, where the code would throw. No default is invented.
- Rendering details are left out: JSX, CSS beyond the modelled layer fields, the `onError` hiding of broken images, `alert` and `console`. Reports are kept as a log in `Session`.
- Timers are ticks of one millisecond. The debouncer's delay is a natural number.
- The overlay list fetch, `handleSubmit` with its `parseInt` payload, and `handleDelete` are left out. They are HTTP plumbing.
- No ordering between asynchronous replies is assumed. Replies are independent events, and `Session.LateStopClearsNewSession` exhibits one interleaving.
- Autoplay rejection is left out. A `play()` call is counted whether or not the browser honours it.
