/** An overlay record as the browser receives it from `GET /api/overlays`. */
module Overlays {
  import opened Wrappers

  datatype Point = Point(x: int, y: int)
  datatype Size = Size(width: int, height: int)

  /**
   * `position`, `size` and `color` may be absent from a stored document (None); `kind` is the
   * document's `type` field, `id` its `_id`.
   */
  datatype Overlay = Overlay(
    id: string,
    name: string,
    kind: string,
    content: string,
    color: Option<string>,
    position: Option<Point>,
    size: Option<Size>)

  const LogoKind: string := "logo"

  /**
   * What the layer mapping dereferences without a guard: `position` always, `size` for a
   * logo. Without them the browser code throws instead of rendering.
   */
  predicate Renderable(o: Overlay) {
    o.position.Some? && (o.kind == LogoKind ==> o.size.Some?)
  }
}

/**
 * The overlay half of `VideoPlayer` in frontend/src/App.js: while a stream URL is set, one
 * absolutely positioned, click-through layer per overlay, in list order.
 */
module Compositor {
  import opened Wrappers
  import opened Strings
  import opened Overlays

  const DataPngPrefix: string := "data:image/png;base64,"
  const DefaultTextColor: string := "white"
  const TextFontSize: int := 16

  /** One rendered element: an `<img>` for a logo, a `<div>` label for anything else. */
  datatype Layer =
    | ImageLayer(src: string, alt: string, top: int, left: int, width: int, height: int,
                 pointerEventsNone: bool)
    | TextLayer(text: string, top: int, left: int, color: string, fontSize: int, bold: bool,
                pointerEventsNone: bool)

  /** The two prefixes under which logo content is used as the image source as it is. */
  predicate IsDirectSource(content: string) {
    StartsWith(content, "http") || StartsWith(content, "data:")
  }

  /**
   * The image source of a logo: its content when that already starts with `http` or `data:`
   * (a plain prefix test, so `httpx...` passes too), otherwise the content read as base64 PNG.
   */
  function LogoSrc(content: string): (src: string)
    ensures EndsWith(src, content)
    ensures src == content <==> IsDirectSource(content)
    ensures !IsDirectSource(content) ==> src == DataPngPrefix + content
    ensures IsDirectSource(src)
  {
    if IsDirectSource(content) then content else DataPngPrefix + content
  }

  /** Resolving twice changes nothing. */
  lemma LogoSrcIdempotent(content: string)
    ensures LogoSrc(LogoSrc(content)) == LogoSrc(content)
  {
  }

  /** The layer one overlay becomes. */
  function LayerOf(o: Overlay): (l: Layer)
    requires Renderable(o)
    ensures l.top == o.position.value.y && l.left == o.position.value.x
    ensures l.pointerEventsNone
    ensures l.ImageLayer? <==> o.kind == LogoKind
    ensures l.ImageLayer? ==>
      && l.src == LogoSrc(o.content) && l.alt == o.name
      && l.width == o.size.value.width && l.height == o.size.value.height
    ensures l.TextLayer? ==>
      && l.text == o.content && l.fontSize == TextFontSize && l.bold
      && l.color == (if Truthy(o.color) then o.color.value else DefaultTextColor)
  {
    var p := o.position.value;
    if o.kind == LogoKind then
      ImageLayer(LogoSrc(o.content), o.name, p.y, p.x, o.size.value.width, o.size.value.height, true)
    else
      TextLayer(o.content, p.y, p.x, if Truthy(o.color) then o.color.value else DefaultTextColor,
                TextFontSize, true, true)
  }

  /** A text overlay's size plays no part in its layer. */
  lemma TextLayerIgnoresSize(o: Overlay, s: Option<Size>)
    requires Renderable(o) && o.kind != LogoKind
    ensures LayerOf(o.(size := s)) == LayerOf(o)
  {
  }

  /** `overlays.map(...)`: one layer per overlay, in order. */
  function Layers(overlays: seq<Overlay>): (ls: seq<Layer>)
    requires forall i :: 0 <= i < |overlays| ==> Renderable(overlays[i])
    ensures |ls| == |overlays|
    ensures ls != [] ==> ls[0] == LayerOf(overlays[0])
  {
    if overlays == [] then [] else [LayerOf(overlays[0])] + Layers(overlays[1..])
  }

  /** `{hlsUrl && overlays.map(...)}`: nothing while no stream URL is set. */
  function Compose(hlsUrl: Option<string>, overlays: seq<Overlay>): (ls: seq<Layer>)
    requires Truthy(hlsUrl) ==> forall i :: 0 <= i < |overlays| ==> Renderable(overlays[i])
    ensures !Truthy(hlsUrl) ==> ls == []
  {
    if Truthy(hlsUrl) then Layers(overlays) else []
  }

  /** Layer i is the layer of overlay i, and there are as many layers as overlays. */
  lemma {:induction false} LayersAt(overlays: seq<Overlay>, i: nat)
    requires forall j :: 0 <= j < |overlays| ==> Renderable(overlays[j])
    ensures |Layers(overlays)| == |overlays|
    ensures i < |overlays| ==> Layers(overlays)[i] == LayerOf(overlays[i])
  {
    if overlays != [] {
      LayersAt(overlays[1..], if i == 0 then 0 else i - 1);
    }
  }

  /**
   * With a stream URL set, the composite has one layer per overlay in paint (list) order, and
   * layer i depends on overlay i alone: two lists that agree at one position render the same
   * layer there, whatever else they contain.
   */
  lemma ComposeIsPointwise(hlsUrl: Option<string>, a: seq<Overlay>, b: seq<Overlay>, i: nat, j: nat)
    requires Truthy(hlsUrl)
    requires forall k :: 0 <= k < |a| ==> Renderable(a[k])
    requires forall k :: 0 <= k < |b| ==> Renderable(b[k])
    requires i < |a| && j < |b| && a[i] == b[j]
    ensures |Compose(hlsUrl, a)| == |a| && |Compose(hlsUrl, b)| == |b|
    ensures Compose(hlsUrl, a)[i] == Compose(hlsUrl, b)[j] == LayerOf(a[i])
  {
    LayersAt(a, i);
    LayersAt(b, j);
  }
}
