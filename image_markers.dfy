/** The older image marker builder (src/app/gallery/imageMarkerUtils.ts).
    Same filter and scaler as the album builder; it differs in the pin
    record, in taking the caption from `caption`, in a caption font base of
    30, in a card one border shorter, and in drawing the image url directly
    with no placeholder. */
module ImageMarkers {
  import opened Common
  import opened MarkerGeometry
  import opened HtmlEscape
  import opened ViewportFilter
  import opened MarkerLayer
  import AlbumMarkers

  /** The pin record of this version. */
  datatype GalleryImage = GalleryImage(
    id: string,
    lat: real,
    lng: real,
    url: string,
    country: string,
    caption: string,
    description: string,
    date: string)

  const CaptionFontBase: nat := 30

  /** The image card: a border above the photo, the photo and the caption area. */
  function ImageRenderSpec(zoom: real): (r: RenderSpec)
    ensures r.dims == DimensionsAt(zoom, CaptionFontBase)
    ensures r.icon == IconLayout(r.dims, r.dims.border + r.dims.photoHeight + r.dims.captionHeight)
  {
    var d := DimensionsAt(zoom, CaptionFontBase);
    RenderSpec(d, IconLayout(d, d.border + d.photoHeight + d.captionHeight))
  }

  lemma ImageGeometryAtMinZoom(zoom: real)
    requires zoom <= ZoomForMinSize
    ensures ImageRenderSpec(zoom).icon == IconGeometry(48, 59, 54, 75, 27.0, 13.0, 0.0, -39.5)
    ensures ImageRenderSpec(zoom).dims.captionFontSize == 8
  {
    DimensionsAtMinZoom(zoom, CaptionFontBase);
    assert Round(30.0 / 4.0) == 8;
  }

  lemma ImageGeometryAtMaxZoom(zoom: real)
    requires zoom >= ZoomForMaxSize
    ensures ImageRenderSpec(zoom).icon == IconGeometry(184, 202, 196, 239, 98.0, 31.0, 0.0, -126.0)
    ensures ImageRenderSpec(zoom).dims.captionFontSize == 30
  {
    DimensionsAtMaxZoom(zoom, CaptionFontBase);
  }

  /** The older card is shorter than the album card at the same zoom by
      exactly one border, and so is its icon container; the widths and the
      icon anchor are the same. */
  lemma ImageCardOneBorderShorter(zoom: real)
    ensures var img, album := ImageRenderSpec(zoom), AlbumMarkers.AlbumRenderSpec(zoom);
      img.icon.cardHeight == album.icon.cardHeight - img.dims.border &&
      img.icon.containerHeight == album.icon.containerHeight - img.dims.border &&
      img.icon.cardWidth == album.icon.cardWidth &&
      img.icon.containerWidth == album.icon.containerWidth &&
      img.icon.anchorX == album.icon.anchorX && img.icon.anchorY == album.icon.anchorY
    ensures ImageRenderSpec(zoom).icon.cardHeight >= ImageRenderSpec(zoom).dims.photoHeight + 19
  {
  }

  /** The caption: `caption`, else the country, else "Untitled". */
  function Caption(img: GalleryImage): (r: string)
    ensures r != ""
  {
    if img.caption != "" then img.caption
    else if img.country != "" then img.country
    else "Untitled"
  }

  /** One marker; its background is the image url itself, and clicking it
      hands `image` to the click callback. */
  datatype ImageMarker = ImageMarker(
    image: GalleryImage,
    lat: real,
    lng: real,
    caption: string,
    backgroundUrl: string,
    spec: RenderSpec)

  function BuildMarker(img: GalleryImage, zoom: real): ImageMarker
  {
    ImageMarker(img, img.lat, img.lng, EscapeEach(Caption(img)), img.url, ImageRenderSpec(zoom))
  }

  function CountryOf(img: GalleryImage): string { img.country }

  function MarkersFor(images: seq<GalleryImage>, zoom: real): (r: seq<ImageMarker>)
    ensures |r| == |images|
  {
    if images == [] then []
    else MarkersFor(images[..|images| - 1], zoom) + [BuildMarker(images[|images| - 1], zoom)]
  }

  function LayerAfterUpdate(data: Option<seq<GalleryImage>>, zoom: real,
                            inView: GalleryImage -> bool): seq<ImageMarker>
  {
    if data.None? || data.value == [] then []
    else MarkersFor(Visible(data.value, zoom, CountryOf, inView), zoom)
  }

  /** updateImageMarkersOnMap of this version: clear, return on missing or
      empty data, then one marker per image the viewport filter keeps. */
  method UpdateImageMarkersOnMap(layer: Layer<ImageMarker>, data: Option<seq<GalleryImage>>,
                                 zoom: real, inView: GalleryImage -> bool)
    modifies layer
    ensures layer.markers == LayerAfterUpdate(data, zoom, inView)
  {
    layer.ClearLayers();
    if data.None? || data.value == [] {
      return;
    }
    var imagesToShow := SelectVisible(data.value, zoom, CountryOf, inView);
    AddMarkers(layer, imagesToShow, zoom);
  }

  method AddMarkers(layer: Layer<ImageMarker>, images: seq<GalleryImage>, zoom: real)
    modifies layer
    ensures layer.markers == old(layer.markers) + MarkersFor(images, zoom)
  {
    ghost var before := layer.markers;
    for i := 0 to |images|
      invariant layer.markers == before + MarkersFor(images[..i], zoom)
    {
      AddMarkerAt(layer, images, i, zoom, before);
    }
    assert images[..|images|] == images;
  }

  /** One iteration of the loop: builds the marker of `images[i]` and adds it. */
  method AddMarkerAt(layer: Layer<ImageMarker>, images: seq<GalleryImage>, i: nat, zoom: real,
                     ghost before: seq<ImageMarker>)
    requires i < |images|
    requires layer.markers == before + MarkersFor(images[..i], zoom)
    modifies layer
    ensures layer.markers == before + MarkersFor(images[..i + 1], zoom)
  {
    ghost var built := MarkersFor(images[..i], zoom);
    var marker := BuildMarker(images[i], zoom);
    MarkersForStep(images, i, zoom);
    layer.AddLayer(marker);
    assert layer.markers == before + (built + [marker]);
  }

  /** Extending the prefix of `images` by one element adds its marker. */
  lemma MarkersForStep(images: seq<GalleryImage>, i: nat, zoom: real)
    requires i < |images|
    ensures MarkersFor(images[..i + 1], zoom) == MarkersFor(images[..i], zoom) + [BuildMarker(images[i], zoom)]
  {
    assert images[..i + 1][..i] == images[..i];
  }

  /** The `i`-th marker is built from the `i`-th element. */
  lemma {:induction false} MarkersForPointwise(images: seq<GalleryImage>, zoom: real)
    ensures forall i :: 0 <= i < |images| ==> MarkersFor(images, zoom)[i] == BuildMarker(images[i], zoom)
  {
    if images != [] {
      var init := images[..|images| - 1];
      MarkersForPointwise(init, zoom);
      forall i | 0 <= i < |images| ensures MarkersFor(images, zoom)[i] == BuildMarker(images[i], zoom) {
        if i < |init| {
          assert images[i] == init[i];
        }
      }
    }
  }

  /** A marker's caption is the source's chained escape of the image's
      caption, and holds no character that could break out of the markup. */
  lemma MarkerCaptionEscaped(img: GalleryImage, zoom: real)
    ensures var c := BuildMarker(img, zoom).caption;
      c == Escape(Caption(img)) && '<' !in c && '>' !in c && '"' !in c
  {
    EscapeIsEscapeEach(Caption(img));
    EscapeLeavesNoMarkup(Caption(img));
  }

  /** One marker per selected image, in order, each forwarding its own
      image when clicked, drawing the image's url, with the escaped caption. */
  lemma LayerMarkersForwardTheirImages(data: seq<GalleryImage>, zoom: real, inView: GalleryImage -> bool)
    ensures var markers := LayerAfterUpdate(Some(data), zoom, inView);
      var shown := Visible(data, zoom, CountryOf, inView);
      |markers| == |shown| && IsSubsequence(shown, data) &&
      forall i :: 0 <= i < |markers| ==>
        markers[i].image == shown[i] && inView(markers[i].image) &&
        markers[i].backgroundUrl == shown[i].url &&
        markers[i].caption == Escape(Caption(shown[i])) &&
        '<' !in markers[i].caption && '>' !in markers[i].caption && '"' !in markers[i].caption
  {
    VisibleSubsequence(data, zoom, CountryOf, inView);
    if data == [] {
      assert Visible(data, zoom, CountryOf, inView) == [];
    }
    var shown := Visible(data, zoom, CountryOf, inView);
    var markers := LayerAfterUpdate(Some(data), zoom, inView);
    MarkersForPointwise(shown, zoom);
    forall i | 0 <= i < |shown|
      ensures inView(shown[i])
      ensures markers[i].caption == Escape(Caption(shown[i]))
      ensures '<' !in markers[i].caption && '>' !in markers[i].caption && '"' !in markers[i].caption
    {
      assert shown[i] in shown;
      MarkerCaptionEscaped(shown[i], zoom);
    }
  }
}
