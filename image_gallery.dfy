/** The image gallery page (src/app/gallery/mapGallery.tsx): the older page
    that pins single images rather than albums. Its controller keeps the
    image list, the edit panel, the "picking a location for" id, the search
    box and the country zoom; the map, Leaflet and the GeoJSON download
    appear only as the flags saying whether they are loaded and as the loaded
    country features. Each handler runs to completion before the next, so
    the ref that mirrors the picking id always holds it. */
module ImageGallery {
  import opened Common
  import opened ListById
  import opened CountryView
  import opened MarkerLayer
  import opened ImageMarkers
  import MarkerRedraw

  function ImageId(img: GalleryImage): string { img.id }

  function MoveTo(lat: real, lng: real): GalleryImage -> GalleryImage
  {
    (img: GalleryImage) => img.(lat := lat, lng := lng)
  }

  function Replace(updated: GalleryImage): GalleryImage -> GalleryImage
  {
    (_: GalleryImage) => updated
  }

  /** The page's state, as one value. */
  datatype PageState = PageState(
    images: seq<GalleryImage>,
    editingImage: Option<GalleryImage>,
    panelOpen: bool,
    pickingId: Option<string>,
    searchQuery: string,
    searchResults: seq<CountryFeature>,
    dropdownOpen: bool,
    zoomedCountry: Option<string>,
    flights: seq<Flight>,
    countryFeatures: seq<CountryFeature>,
    leafletLoaded: bool,
    mapPresent: bool)

  /** The JavaScript truthiness test the handlers apply to the picking id. */
  predicate Picking(s: PageState)
  {
    s.pickingId.Some? && s.pickingId.value != ""
  }

  /** An open panel has an image, and the panel is closed while a location
      is being picked. */
  predicate Valid(s: PageState)
  {
    (s.panelOpen ==> s.editingImage.Some?) &&
    (Picking(s) ==> !s.panelOpen)
  }

  /** A map click while picking moves exactly the images with the picked id,
      and only their coordinates. */
  lemma MapClickMovesOnlyPicked(images: seq<GalleryImage>, id: string, lat: real, lng: real)
    ensures var r := UpdateWhere(images, id, ImageId, MoveTo(lat, lng));
      |r| == |images| &&
      forall i :: 0 <= i < |images| ==>
        (images[i].id != id ==> r[i] == images[i]) &&
        (images[i].id == id ==> r[i] == images[i].(lat := lat, lng := lng))
  {
    UpdateWherePointwise(images, id, ImageId, MoveTo(lat, lng));
  }

  /** Saving replaces exactly the images with the saved image's id. */
  lemma SaveReplacesOnlyMatching(images: seq<GalleryImage>, updated: GalleryImage)
    ensures var r := UpdateWhere(images, updated.id, ImageId, Replace(updated));
      |r| == |images| &&
      forall i :: 0 <= i < |images| ==> r[i] == (if images[i].id == updated.id then updated else images[i])
  {
    UpdateWherePointwise(images, updated.id, ImageId, Replace(updated));
  }

  /** Deleting keeps exactly the images with another id, in order, and a
      second delete of the same id changes nothing. */
  lemma DeleteKeepsOthers(images: seq<GalleryImage>, id: string)
    ensures var r := RemoveWhere(images, id, ImageId);
      IsSubsequence(r, images) && (forall img :: img in r <==> img in images && img.id != id) &&
      RemoveWhere(r, id, ImageId) == r
  {
    RemoveWhereKeepsOthers(images, id, ImageId);
    RemoveWhereIdempotent(images, id, ImageId);
  }

  /** The page: its React state, replaced by each handler, and the Leaflet
      layer group its markers live in. */
  class Page {
    var st: PageState
    var markersLayer: Layer?<ImageMarker>
    var redraw: MarkerRedraw.Redraw<seq<GalleryImage>>

    constructor (initialImages: seq<GalleryImage>)
      ensures Valid(st)
      ensures st == PageState(initialImages, None, false, None, "", [], false, None, [], [], false, false)
      ensures markersLayer == null
      ensures redraw == MarkerRedraw.Initial(initialImages)
    {
      st := PageState(initialImages, None, false, None, "", [], false, None, [], [], false, false);
      markersLayer := null;
      redraw := MarkerRedraw.Initial(initialImages);
    }

    /** The end of the map initialisation: Leaflet, the map and its marker
        layer are in place and the country features are loaded. The map is
        then ready, so the effect that depends on it draws the list at
        once. `zoom` and `inView` are the new map's zoom and bounds test. */
    method MapInitialised(layer: Layer<ImageMarker>, features: seq<CountryFeature>, zoom: real,
                          inView: GalleryImage -> bool)
      requires Valid(st)
      modifies this`st, this`markersLayer, this`redraw, layer
      ensures Valid(st)
      ensures st == old(st).(leafletLoaded := true, mapPresent := true, countryFeatures := features)
      ensures markersLayer == layer
      ensures layer.markers == ImageMarkers.LayerAfterUpdate(Some(st.images), zoom, inView)
      ensures redraw == MarkerRedraw.DrawnNow(old(redraw))
    {
      st := st.(leafletLoaded := true, mapPresent := true, countryFeatures := features);
      markersLayer := layer;
      redraw := MarkerRedraw.DrawnNow(redraw);
      UpdateImageMarkers(zoom, inView);
    }

    /** The effect that copies a changed `imagesData` prop into the list. */
    method ImagesPropChanged(initialImages: seq<GalleryImage>)
      requires Valid(st)
      modifies this`st
      ensures Valid(st)
      ensures st == old(st).(images := initialImages)
    {
      st := st.(images := initialImages);
    }

    /** handleImageClick: ignored while picking; otherwise the panel opens
        on the clicked image. */
    method ImageClick(image: GalleryImage)
      requires Valid(st)
      modifies this`st
      ensures Valid(st)
      ensures Picking(old(st)) ==> st == old(st)
      ensures !Picking(old(st)) ==> st == old(st).(editingImage := Some(image), panelOpen := true)
    {
      if st.pickingId.Some? && st.pickingId.value != "" {
        return;
      }
      st := st.(editingImage := Some(image), panelOpen := true);
    }

    /** handlePanelClose. */
    method PanelClose()
      requires Valid(st)
      modifies this`st
      ensures Valid(st)
      ensures st == old(st).(panelOpen := false, editingImage := None)
    {
      st := st.(panelOpen := false, editingImage := None);
    }

    /** handlePanelSave: the image with the saved id is replaced and the
        panel closes. */
    method PanelSave(updated: GalleryImage)
      requires Valid(st)
      modifies this`st
      ensures Valid(st)
      ensures st == old(st).(images := UpdateWhere(old(st).images, updated.id, ImageId, Replace(updated)),
                             panelOpen := false, editingImage := None)
    {
      st := st.(images := UpdateWhere(st.images, updated.id, ImageId, Replace(updated)));
      st := st.(panelOpen := false, editingImage := None);
    }

    /** handleStartPickLocation: with an image being edited, the map waits
        for a click for it and the panel closes; without one, nothing
        happens. */
    method StartPickLocation()
      requires Valid(st)
      modifies this`st
      ensures Valid(st)
      ensures old(st).editingImage.None? ==> st == old(st)
      ensures old(st).editingImage.Some? ==>
        st == old(st).(pickingId := Some(old(st).editingImage.value.id), panelOpen := false)
    {
      if st.editingImage.Some? {
        st := st.(pickingId := Some(st.editingImage.value.id));
        st := st.(panelOpen := false);
      }
    }

    /** mapClickLogicHandler: while picking, and once Leaflet has loaded,
        the images with the picked id move to the clicked point and the
        picking id is cleared; the panel stays closed. */
    method MapClick(lat: real, lng: real)
      requires Valid(st)
      modifies this`st
      ensures Valid(st)
      ensures !(Picking(old(st)) && old(st).leafletLoaded) ==> st == old(st)
      ensures Picking(old(st)) && old(st).leafletLoaded ==>
        st == old(st).(images := UpdateWhere(old(st).images, old(st).pickingId.value, ImageId, MoveTo(lat, lng)),
                       pickingId := None)
    {
      if st.pickingId.Some? && st.pickingId.value != "" && st.leafletLoaded {
        var targetImageId := st.pickingId.value;
        st := st.(images := UpdateWhere(st.images, targetImageId, ImageId, MoveTo(lat, lng)));
        st := st.(pickingId := None);
      }
    }

    /** handleDeleteImage: every image with the id goes, the rest stay in
        order; the panel is left as it is. */
    method DeleteImage(imageId: string)
      requires Valid(st)
      modifies this`st
      ensures Valid(st)
      ensures st == old(st).(images := RemoveWhere(old(st).images, imageId, ImageId))
    {
      st := st.(images := RemoveWhere(st.images, imageId, ImageId));
    }

    /** updateImageMarkersCallback: a no-op until Leaflet, the map and the
        marker layer are all present; then the layer is rebuilt from the
        image list. `inView` is the map's current bounds test. */
    method UpdateImageMarkers(zoom: real, inView: GalleryImage -> bool)
      modifies markersLayer
      ensures !st.leafletLoaded || !st.mapPresent || markersLayer == null ==>
        markersLayer == null || markersLayer.markers == old(markersLayer.markers)
      ensures st.leafletLoaded && st.mapPresent && markersLayer != null ==>
        markersLayer.markers == LayerAfterUpdate(Some(st.images), zoom, inView)
    {
      var layer := markersLayer;
      if !st.leafletLoaded || !st.mapPresent || layer == null {
        return;
      }
      ImageMarkers.UpdateImageMarkersOnMap(layer, Some(st.images), zoom, inView);
    }

    /** The `zoomend moveend` listener, registered once the map is ready:
        it calls the current debounced wrapper. */
    method MapMoved()
      modifies this`redraw
      ensures st.leafletLoaded && st.mapPresent ==> redraw == MarkerRedraw.Moved(old(redraw))
      ensures !(st.leafletLoaded && st.mapPresent) ==> redraw == old(redraw)
      ensures MarkerRedraw.UpToDate(old(redraw)) ==> MarkerRedraw.UpToDate(redraw)
    {
      if st.leafletLoaded && st.mapPresent {
        redraw := MarkerRedraw.Moved(redraw);
      }
    }

    /** `dt` milliseconds pass: every redraw whose timer comes due runs the
        marker callback with the list its wrapper closed over, and the last
        of them decides what the layer shows. */
    method TimePasses(dt: nat, zoom: real, inView: GalleryImage -> bool)
      modifies this`redraw, markersLayer
      ensures redraw == MarkerRedraw.Pass(old(redraw), dt)
      ensures |redraw.wrapper.fired| > |old(redraw).wrapper.fired| && st.leafletLoaded && st.mapPresent && markersLayer != null ==>
        markersLayer.markers == ImageMarkers.LayerAfterUpdate(Some(redraw.wrapper.fired[|redraw.wrapper.fired| - 1]), zoom, inView)
      ensures !(|redraw.wrapper.fired| > |old(redraw).wrapper.fired| && st.leafletLoaded && st.mapPresent && markersLayer != null) ==>
        markersLayer == null || markersLayer.markers == old(markersLayer.markers)
      ensures MarkerRedraw.UpToDate(old(redraw)) ==> MarkerRedraw.UpToDate(redraw)
    {
      if MarkerRedraw.UpToDate(redraw) {
        MarkerRedraw.UpToDatePass(redraw, dt);
      }
      var next := MarkerRedraw.Pass(redraw, dt);
      var ran := |next.wrapper.fired| > |redraw.wrapper.fired|;
      redraw := next;
      var layer := markersLayer;
      if ran && st.leafletLoaded && st.mapPresent && layer != null {
        var last := next.wrapper.fired[|next.wrapper.fired| - 1];
        ImageMarkers.UpdateImageMarkersOnMap(layer, Some(last), zoom, inView);
      }
    }

    /** A render in which the images list was replaced: `useMemo` builds a
        new wrapper over the new list, and once the map is ready the effect
        redraws the layer from it at once. The rebuild is the corrected one,
        which clears the old wrapper's pending timer
        (`MarkerRedraw.Rebuilt` is the one as written). */
    method ListReplaced(zoom: real, inView: GalleryImage -> bool)
      modifies this`redraw, markersLayer
      ensures st.leafletLoaded && st.mapPresent && markersLayer != null ==>
        redraw == MarkerRedraw.DrawnNow(MarkerRedraw.RebuiltClearing(old(redraw), st.images)) &&
        markersLayer.markers == ImageMarkers.LayerAfterUpdate(Some(st.images), zoom, inView)
      ensures !(st.leafletLoaded && st.mapPresent && markersLayer != null) ==>
        redraw == MarkerRedraw.RebuiltClearing(old(redraw), st.images) &&
        (markersLayer == null || markersLayer.markers == old(markersLayer.markers))
      ensures redraw.captured == st.images
      ensures old(redraw).stranded == [] && st.leafletLoaded && st.mapPresent && markersLayer != null ==>
        MarkerRedraw.UpToDate(redraw)
    {
      if redraw.stranded == [] {
        MarkerRedraw.RebuiltClearingUpToDate(redraw, st.images);
      }
      redraw := MarkerRedraw.RebuiltClearing(redraw, st.images);
      if st.leafletLoaded && st.mapPresent && markersLayer != null {
        redraw := MarkerRedraw.DrawnNow(redraw);
        UpdateImageMarkers(zoom, inView);
      }
    }

    /** handleSearchChange. */
    method SearchChange(query: string)
      requires Valid(st)
      modifies this`st
      ensures Valid(st)
      ensures var outcome := Search(old(st).countryFeatures, query);
        st == old(st).(searchQuery := query, searchResults := outcome.results,
                       dropdownOpen := outcome.dropdownOpen)
    {
      var outcome := Search(st.countryFeatures, query);
      var next := st.(searchQuery := query, searchResults := outcome.results, dropdownOpen := outcome.dropdownOpen);
      assert Valid(next);
      st := next;
    }

    /** The search input gaining focus reopens the dropdown when there is a
        query and something to show. */
    method SearchFocus()
      requires Valid(st)
      modifies this`st
      ensures Valid(st)
      ensures st == old(st).(dropdownOpen := if old(st).searchQuery != "" && |old(st).searchResults| > 0
                                             then true else old(st).dropdownOpen)
    {
      if st.searchQuery != "" && |st.searchResults| > 0 {
        st := st.(dropdownOpen := true);
      }
    }

    /** A mouse-down anywhere: outside the search box it closes the dropdown. */
    method MouseDown(insideSearchBox: bool)
      requires Valid(st)
      modifies this`st
      ensures Valid(st)
      ensures st == old(st).(dropdownOpen := if insideSearchBox then old(st).dropdownOpen else false)
    {
      if !insideSearchBox {
        st := st.(dropdownOpen := false);
      }
    }

    /** handleBackButtonClick: the search box is emptied. */
    method BackButtonClick()
      requires Valid(st)
      modifies this`st
      ensures Valid(st)
      ensures st == old(st).(searchQuery := "", searchResults := [], dropdownOpen := false)
    {
      st := st.(searchQuery := "", searchResults := [], dropdownOpen := false);
    }

    /** flyToCountry, for a search result: nothing before the map and
        Leaflet are present; otherwise the flight CountryView computes is
        requested, and when the bounds were usable the country becomes the
        zoomed one and the search box is cleared. */
    method FlyToCountry(feature: CountryFeature, bounds: Option<(LatLng, real)>)
      requires Valid(st)
      modifies this`st
      ensures Valid(st)
      ensures !(old(st).mapPresent && old(st).leafletLoaded) ==> st == old(st)
      ensures old(st).mapPresent && old(st).leafletLoaded ==>
        var usable := feature.name != "" && !feature.geometry.NoGeometry? && bounds.Some?;
        var flight := if usable
          then Some(Flight(AdjustedCenter(bounds.value.0, AdjustmentFor(feature.name)),
                           AdjustedZoom(bounds.value.1, AdjustmentFor(feature.name), Some(MinZoom), Some(MaxZoom))))
          else if feature.name != "" && feature.geometry.Point?
          then Some(Flight(LatLng(feature.geometry.lat, feature.geometry.lng), PointZoom))
          else None;
        st == old(st).(
          flights := old(st).flights + (if flight.Some? then [flight.value] else []),
          zoomedCountry := if usable then Some(feature.name) else old(st).zoomedCountry,
          searchQuery := if usable then "" else old(st).searchQuery,
          searchResults := if usable then [] else old(st).searchResults,
          dropdownOpen := if usable then false else old(st).dropdownOpen)
    {
      if !st.mapPresent || !st.leafletLoaded {
        return;
      }
      var flight := CountryView.FlyToCountry(feature, bounds, Some(MinZoom), Some(MaxZoom));
      if flight.Some? {
        st := st.(flights := st.flights + [flight.value]);
      }
      if feature.name != "" && !feature.geometry.NoGeometry? && bounds.Some? {
        st := st.(zoomedCountry := Some(feature.name));
        st := st.(searchQuery := "", searchResults := [], dropdownOpen := false);
      }
    }

    /** A click on a country shape (onEachFeature's click, then
        zoomToFeature): ignored while picking or before the map and Leaflet
        are present; otherwise the country becomes the zoomed one and the
        map flies to its adjusted target. `boundsCenter` and `fitZoom` are
        the shape's bounds centre and the zoom that fits them. */
    method CountryClick(feature: CountryFeature, boundsCenter: LatLng, fitZoom: real)
      requires Valid(st)
      modifies this`st
      ensures Valid(st)
      ensures Picking(old(st)) || !old(st).mapPresent || !old(st).leafletLoaded ==> st == old(st)
      ensures !Picking(old(st)) && old(st).mapPresent && old(st).leafletLoaded ==>
        st == old(st).(
          zoomedCountry := Some(feature.name),
          flights := old(st).flights + [Flight(AdjustedCenter(boundsCenter, AdjustmentFor(feature.name)),
                                               AdjustedZoom(fitZoom, AdjustmentFor(feature.name), Some(MinZoom), Some(MaxZoom)))])
    {
      if st.pickingId.Some? && st.pickingId.value != "" {
        return;
      }
      if !st.mapPresent || !st.leafletLoaded {
        return;
      }
      st := st.(zoomedCountry := Some(feature.name));
      var flight := ComputeFlight(AdjustmentFor(feature.name), boundsCenter, fitZoom, Some(MinZoom), Some(MaxZoom));
      st := st.(flights := st.flights + [flight]);
    }

    /** highlightFeature's decision for a hovered country at `zoom`. */
    function HighlightsOnHover(name: string, zoom: real): (r: bool)
      reads this
      ensures r ==> st.mapPresent && !Picking(st) && st.zoomedCountry != Some(name) && zoom < HighlightZoomLimit
    {
      !Picking(st) && st.mapPresent && Highlights(false, st.zoomedCountry, name, zoom)
    }
  }
}
