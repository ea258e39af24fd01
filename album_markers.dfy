/** The album marker builder (src/component/imageEditPannel/imageMarkerUtils.ts):
    filters the albums for the viewport, and for each survivor composes the
    Polaroid card geometry, the escaped caption and either the cover image
    from storage or a "Cover Missing" placeholder, then rebuilds the layer. */
module AlbumMarkers {
  import opened Common
  import opened Interfaces
  import opened MarkerGeometry
  import opened HtmlEscape
  import opened ViewportFilter
  import opened MarkerLayer

  const CaptionFontBase: nat := 14

  /** The album card: a border above the photo, the photo, a border-sized
      gap and the caption area. */
  function AlbumRenderSpec(zoom: real): (r: RenderSpec)
    ensures r.dims == DimensionsAt(zoom, CaptionFontBase)
    ensures r.icon == IconLayout(r.dims, 2 * r.dims.border + r.dims.photoHeight + r.dims.captionHeight)
  {
    var d := DimensionsAt(zoom, CaptionFontBase);
    var cardInternalContentHeight := d.photoHeight + d.border + d.captionHeight;
    RenderSpec(d, IconLayout(d, d.border + cardInternalContentHeight))
  }

  /** The smallest album marker, used at zoom 7 and below. */
  lemma AlbumGeometryAtMinZoom(zoom: real)
    requires zoom <= ZoomForMinSize
    ensures AlbumRenderSpec(zoom).icon == IconGeometry(48, 63, 54, 79, 27.0, 13.0, 0.0, -41.5)
    ensures AlbumRenderSpec(zoom).dims.captionFontSize == 8
  {
    DimensionsAtMinZoom(zoom, CaptionFontBase);
    assert Round(14.0 / 4.0) == 4;
  }

  /** The largest album marker, used at zoom 13 and above. */
  lemma AlbumGeometryAtMaxZoom(zoom: real)
    requires zoom >= ZoomForMaxSize
    ensures AlbumRenderSpec(zoom).icon == IconGeometry(184, 214, 196, 251, 98.0, 31.0, 0.0, -132.0)
    ensures AlbumRenderSpec(zoom).dims.captionFontSize == 14
  {
    DimensionsAtMaxZoom(zoom, CaptionFontBase);
  }

  /** For every zoom the icon anchor sits inside the album icon. */
  lemma AlbumAnchorInside(zoom: real)
    ensures var g := AlbumRenderSpec(zoom).icon;
      0.0 < g.anchorX < g.containerWidth as real &&
      0.0 < g.anchorY < g.containerHeight as real && g.popupAnchorY < 0.0
  {
    var d := DimensionsAt(zoom, CaptionFontBase);
    AnchorInsideIcon(d, 2 * d.border + d.photoHeight + d.captionHeight);
  }

  /** The caption: the title, else the country, else "Untitled Album". */
  function Caption(a: Album): (r: string)
    ensures r != ""
  {
    if a.title != "" then a.title
    else if a.country != "" then a.country
    else "Untitled Album"
  }

  /** What fills the photo box: the stored cover, or the placeholder. */
  datatype CoverImage = Photo(src: string) | CoverMissing(fontSize: int)

  /** Looks the cover key up in storage; an empty key, a missing entry or
      empty data gives the placeholder, whose label font never drops below 8. */
  function CoverFor(a: Album, storage: Storage, photoWidth: int): (r: CoverImage)
    ensures r.Photo? <==> a.cover.url != "" && a.cover.url in storage && storage[a.cover.url] != ""
    ensures r.Photo? ==> r.src == storage[a.cover.url]
    ensures r.CoverMissing? ==> r.fontSize >= 8
  {
    var key := a.cover.url;
    var imageSrc := if key != "" && key in storage then storage[key] else "";
    if imageSrc != "" then Photo(imageSrc)
    else CoverMissing(Max(8, Round(10.0 * (photoWidth as real / MaxPhotoWidth as real))))
  }

  /** One marker on the layer; clicking it hands `album` to the click callback. */
  datatype AlbumMarker = AlbumMarker(
    album: Album,
    lat: real,
    lng: real,
    caption: string,
    cover: CoverImage,
    spec: RenderSpec)

  function BuildMarker(a: Album, zoom: real, storage: Storage): AlbumMarker
  {
    var spec := AlbumRenderSpec(zoom);
    AlbumMarker(a, a.lat, a.lng, EscapeEach(Caption(a)), CoverFor(a, storage, spec.dims.photoWidth), spec)
  }

  function CountryOf(a: Album): string { a.country }

  /** The markers for the selected albums, one each, in order. */
  function MarkersFor(albums: seq<Album>, zoom: real, storage: Storage): (r: seq<AlbumMarker>)
    ensures |r| == |albums|
  {
    if albums == [] then []
    else MarkersFor(albums[..|albums| - 1], zoom, storage) + [BuildMarker(albums[|albums| - 1], zoom, storage)]
  }

  /** The layer's content after a redraw. */
  function LayerAfterUpdate(data: Option<seq<Album>>, zoom: real, inView: Album -> bool,
                            storage: Storage): seq<AlbumMarker>
  {
    if data.None? || data.value == [] then []
    else MarkersFor(Visible(data.value, zoom, CountryOf, inView), zoom, storage)
  }

  /** updateImageMarkersOnMap: clears the layer, returns on missing or
      empty data, and otherwise adds one marker per album the viewport
      filter keeps. `inView` is the current map bounds' containment test
      and `storage` the image data store. */
  method UpdateImageMarkersOnMap(layer: Layer<AlbumMarker>, data: Option<seq<Album>>, zoom: real,
                                 inView: Album -> bool, storage: Storage)
    modifies layer
    ensures layer.markers == LayerAfterUpdate(data, zoom, inView, storage)
  {
    layer.ClearLayers();
    if data.None? || data.value == [] {
      return;
    }
    var imagesToShow := SelectVisible(data.value, zoom, CountryOf, inView);
    AddMarkers(layer, imagesToShow, zoom, storage);
  }

  /** The source's `imagesToShow.forEach`: builds each album's marker and
      adds it to the layer, in order. */
  method AddMarkers(layer: Layer<AlbumMarker>, albums: seq<Album>, zoom: real, storage: Storage)
    modifies layer
    ensures layer.markers == old(layer.markers) + MarkersFor(albums, zoom, storage)
  {
    ghost var before := layer.markers;
    for i := 0 to |albums|
      invariant layer.markers == before + MarkersFor(albums[..i], zoom, storage)
    {
      AddMarkerAt(layer, albums, i, zoom, storage, before);
    }
    assert albums[..|albums|] == albums;
  }

  /** One iteration of the loop: builds the marker of `albums[i]` and adds it. */
  method AddMarkerAt(layer: Layer<AlbumMarker>, albums: seq<Album>, i: nat, zoom: real, storage: Storage,
                     ghost before: seq<AlbumMarker>)
    requires i < |albums|
    requires layer.markers == before + MarkersFor(albums[..i], zoom, storage)
    modifies layer
    ensures layer.markers == before + MarkersFor(albums[..i + 1], zoom, storage)
  {
    ghost var built := MarkersFor(albums[..i], zoom, storage);
    var marker := BuildMarker(albums[i], zoom, storage);
    MarkersForStep(albums, i, zoom, storage);
    layer.AddLayer(marker);
    assert layer.markers == before + (built + [marker]);
  }

  /** Extending the prefix of `albums` by one element adds its marker. */
  lemma MarkersForStep(albums: seq<Album>, i: nat, zoom: real, storage: Storage)
    requires i < |albums|
    ensures MarkersFor(albums[..i + 1], zoom, storage) == MarkersFor(albums[..i], zoom, storage) + [BuildMarker(albums[i], zoom, storage)]
  {
    assert albums[..i + 1][..i] == albums[..i];
  }

  /** The `i`-th marker is built from the `i`-th element. */
  lemma {:induction false} MarkersForPointwise(albums: seq<Album>, zoom: real, storage: Storage)
    ensures forall i :: 0 <= i < |albums| ==> MarkersFor(albums, zoom, storage)[i] == BuildMarker(albums[i], zoom, storage)
  {
    if albums != [] {
      var init := albums[..|albums| - 1];
      MarkersForPointwise(init, zoom, storage);
      forall i | 0 <= i < |albums| ensures MarkersFor(albums, zoom, storage)[i] == BuildMarker(albums[i], zoom, storage) {
        if i < |init| {
          assert albums[i] == init[i];
        }
      }
    }
  }

  /** A marker's caption is the source's chained escape of the album's
      caption, and holds no character that could break out of the markup. */
  lemma MarkerCaptionEscaped(a: Album, zoom: real, storage: Storage)
    ensures var c := BuildMarker(a, zoom, storage).caption;
      c == Escape(Caption(a)) && '<' !in c && '>' !in c && '"' !in c
  {
    EscapeIsEscapeEach(Caption(a));
    EscapeLeavesNoMarkup(Caption(a));
  }

  /** Every marker on the layer stands for an in-view album of the data,
      the markers follow the data's order, each marker forwards its own
      album when clicked, and its caption is the escaped album caption. */
  lemma LayerMarkersForwardTheirAlbums(data: seq<Album>, zoom: real, inView: Album -> bool,
                                       storage: Storage)
    ensures var markers := LayerAfterUpdate(Some(data), zoom, inView, storage);
      var shown := Visible(data, zoom, CountryOf, inView);
      |markers| == |shown| && IsSubsequence(shown, data) &&
      forall i :: 0 <= i < |markers| ==>
        markers[i].album == shown[i] && inView(markers[i].album) &&
        markers[i].caption == Escape(Caption(shown[i])) &&
        '<' !in markers[i].caption && '>' !in markers[i].caption && '"' !in markers[i].caption
  {
    VisibleSubsequence(data, zoom, CountryOf, inView);
    if data == [] {
      assert Visible(data, zoom, CountryOf, inView) == [];
    }
    var shown := Visible(data, zoom, CountryOf, inView);
    var markers := LayerAfterUpdate(Some(data), zoom, inView, storage);
    MarkersForPointwise(shown, zoom, storage);
    forall i | 0 <= i < |shown|
      ensures inView(shown[i])
      ensures markers[i].caption == Escape(Caption(shown[i]))
      ensures '<' !in markers[i].caption && '>' !in markers[i].caption && '"' !in markers[i].caption
    {
      assert shown[i] in shown;
      MarkerCaptionEscaped(shown[i], zoom, storage);
    }
  }

  /** Three in-view albums of one country: one marker at zoom 3, three at zoom 10. */
  lemma SameCountryScenario(a: Album, b: Album, c: Album, inView: Album -> bool, storage: Storage)
    requires a.country != "" && b.country == a.country && c.country == a.country
    requires inView(a) && inView(b) && inView(c)
    ensures |LayerAfterUpdate(Some([a, b, c]), 3.0, inView, storage)| == 1
    ensures |LayerAfterUpdate(Some([a, b, c]), 10.0, inView, storage)| == 3
  {
    var s := [a, b, c];
    assert s[1..] == [b, c] && s[1..][1..] == [c] && s[1..][1..][1..] == [];
    var k := {a.country};
    assert Representatives([c], k, CountryOf, inView) == [];
    assert Representatives([b, c], k, CountryOf, inView) == [];
    assert CountryOf(a) == a.country && a.country !in {};
    var none: set<string> := {};
    assert none + {a.country} == k;
    assert Representatives(s, none, CountryOf, inView) == [a] + Representatives([b, c], k, CountryOf, inView);
    assert InView([c], inView) == [c];
    assert InView([b, c], inView) == [b, c];
    assert InView(s, inView) == [a, b, c];
  }
}
