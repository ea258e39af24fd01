/** The album gallery page (src/component/mapComponent/mapGallery.tsx): the
    controller state its handlers change — the album list, the edit panel,
    the new-album draft and its panel, the "picking a location for" id, the
    search box and the country zoom — and the calls it makes to the marker
    builder and to the map's flyTo. React state and refs become the fields
    of `Gallery`; each handler runs to completion before the next, so a ref
    always holds the state it mirrors. The page's map, Leaflet and the
    GeoJSON download appear only as the flags saying whether they are loaded
    and as the loaded country features. */
module AlbumGallery {
  import opened Common
  import opened Interfaces
  import opened ListById
  import opened CountryView
  import opened MarkerLayer
  import AlbumMarkers
  import EditPanel
  import MarkerRedraw

  function AlbumId(a: Album): string { a.id }

  /** The draft openNewAlbumPanel creates: the sentinel id, an empty cover
      key, the origin as location and today as its date. */
  function NewDraft(coverId: string, today: string): (r: Album)
    ensures r.id == Sentinel && r.cover.url == "" && r.lat == 0.0 && r.lng == 0.0 && r.images == []
  {
    Album(Sentinel, "", "", ImageItem(coverId, ""), [], 0.0, 0.0, "", today)
  }

  /** handleSaveNewAlbum's guard: a cover key is required, and the draft
      must have left the origin. */
  predicate NewAlbumAcceptable(a: Album)
  {
    a.cover.url != "" && !(a.lat == 0.0 && a.lng == 0.0 && a.id == Sentinel)
  }

  /** The cover a pick request carries over from the form: a new non-empty
      key replaces the cover's key, keeping its id when it has one. */
  function CoverFromForm(prev: ImageItem, formUrl: string, generatedId: string): (r: ImageItem)
    ensures formUrl != "" ==> r.url == formUrl
    ensures formUrl == "" ==> r == prev
    ensures r.url == prev.url ==> r == prev
    ensures prev.id != "" ==> r.id == prev.id
  {
    if formUrl != "" && formUrl != prev.url
    then ImageItem(if prev.id != "" then prev.id else generatedId, formUrl)
    else prev
  }

  /** The draft updated from the panel's form before picking. */
  function DraftFromForm(prev: Album, form: PanelForm, generatedId: string): (r: Album)
    ensures r.id == prev.id && r.lat == prev.lat && r.lng == prev.lng && r.images == prev.images
    ensures r.title == form.title && r.description == form.description
    ensures r.cover == CoverFromForm(prev.cover, form.albumCoverUrl, generatedId)
    ensures r.dateCreated == (if form.albumDate != "" then form.albumDate else prev.dateCreated)
  {
    prev.(title := form.title, description := form.description,
          cover := CoverFromForm(prev.cover, form.albumCoverUrl, generatedId),
          dateCreated := if form.albumDate != "" then form.albumDate else prev.dateCreated)
  }

  /** The edited album updated from the panel's form before picking; unlike
      the draft, its date is not taken from the form. */
  function EditedFromForm(prev: Album, form: PanelForm, generatedId: string): (r: Album)
    ensures r.id == prev.id && r.lat == prev.lat && r.lng == prev.lng && r.dateCreated == prev.dateCreated
    ensures r.title == form.title && r.description == form.description
    ensures r.cover == CoverFromForm(prev.cover, form.albumCoverUrl, generatedId)
  {
    prev.(title := form.title, description := form.description,
          cover := CoverFromForm(prev.cover, form.albumCoverUrl, generatedId))
  }

  function MoveTo(lat: real, lng: real): Album -> Album
  {
    (a: Album) => a.(lat := lat, lng := lng)
  }

  function Replace(updated: Album): Album -> Album
  {
    (_: Album) => updated
  }

  /** The last album carrying `id`: the one the map-click updater leaves in
      `albumToReEdit`. */
  function LastWithId(albums: seq<Album>, id: string): (r: Option<Album>)
    ensures r.Some? ==> r.value.id == id
    ensures r.Some? ==>
      exists i :: 0 <= i < |albums| && albums[i] == r.value && (forall j :: i < j < |albums| ==> albums[j].id != id)
    ensures r.None? ==> forall i :: 0 <= i < |albums| ==> albums[i].id != id
  {
    if albums == [] then None
    else if albums[|albums| - 1].id == id then Some(albums[|albums| - 1])
    else LastWithId(albums[..|albums| - 1], id)
  }

  /** A fresh draft is headed "New Album", shows the pick prompt, and is
      refused by the save guard until it has a cover key and a location. */
  lemma NewDraftShowsPrompts(coverId: string, today: string)
    ensures EditPanel.DisplayTitle(NewDraft(coverId, today)) == "New Album"
    ensures EditPanel.LocationLabelOf(NewDraft(coverId, today)) == EditPanel.PickLocationPrompt
    ensures !NewAlbumAcceptable(NewDraft(coverId, today))
  {
  }

  /** A draft with a cover key is accepted exactly when it has left the
      origin; a location picked at exactly (0, 0) is refused. */
  lemma DraftAcceptance(d: Album, form: PanelForm, generatedId: string, lat: real, lng: real)
    requires d.id == Sentinel && form.albumCoverUrl != ""
    ensures var moved := MoveTo(lat, lng)(DraftFromForm(d, form, generatedId));
      NewAlbumAcceptable(moved) <==> !(lat == 0.0 && lng == 0.0)
  {
  }

  /** A save replaces the album with the saved album's id and nothing else:
      same length, and every other album is kept in place. */
  lemma SaveReplacesOnlyMatching(albums: seq<Album>, updated: Album)
    ensures var r := UpdateWhere(albums, updated.id, AlbumId, Replace(updated));
      |r| == |albums| &&
      forall i :: 0 <= i < |albums| ==> r[i] == (if albums[i].id == updated.id then updated else albums[i])
  {
    UpdateWherePointwise(albums, updated.id, AlbumId, Replace(updated));
  }

  /** A map click moves exactly the albums with the picked id, and only
      their coordinates. */
  lemma MapClickMovesOnlyPicked(albums: seq<Album>, id: string, lat: real, lng: real)
    ensures var r := UpdateWhere(albums, id, AlbumId, MoveTo(lat, lng));
      |r| == |albums| &&
      forall i :: 0 <= i < |albums| ==>
        (albums[i].id != id ==> r[i] == albums[i]) &&
        (albums[i].id == id ==> r[i] == albums[i].(lat := lat, lng := lng))
  {
    UpdateWherePointwise(albums, id, AlbumId, MoveTo(lat, lng));
  }

  /** Deleting keeps exactly the albums with another id, in order. */
  lemma DeleteKeepsOthers(albums: seq<Album>, id: string)
    ensures var r := RemoveWhere(albums, id, AlbumId);
      IsSubsequence(r, albums) && forall a :: a in r <==> a in albums && a.id != id
  {
    RemoveWhereKeepsOthers(albums, id, AlbumId);
  }

  /** The page's state, as one value. */
  datatype GalleryState = GalleryState(
    albums: seq<Album>,
    editingAlbum: Option<Album>,
    editPanelOpen: bool,
    pickingId: Option<string>,
    newAlbumDraft: Option<Album>,
    newPanelOpen: bool,
    searchQuery: string,
    searchResults: seq<CountryFeature>,
    dropdownOpen: bool,
    zoomedCountry: Option<string>,
    flights: seq<Flight>,
    countryFeatures: seq<CountryFeature>,
    leafletLoaded: bool,
    mapPresent: bool)

  /** The JavaScript truthiness test the handlers apply to the picking id. */
  predicate Picking(s: GalleryState)
  {
    s.pickingId.Some? && s.pickingId.value != ""
  }

  /** The two panels are never open together, an open edit panel has an
      album, and no panel is open while a location is being picked. */
  predicate Valid(s: GalleryState)
  {
    !(s.editPanelOpen && s.newPanelOpen) &&
    (s.editPanelOpen ==> s.editingAlbum.Some?) &&
    (Picking(s) ==> !s.editPanelOpen && !s.newPanelOpen)
  }

  /** The page: its React state, replaced by each handler, and the Leaflet
      layer group its markers live in. */
  class Gallery {
    var st: GalleryState
    var markersLayer: Layer?<AlbumMarkers.AlbumMarker>
    var redraw: MarkerRedraw.Redraw<seq<Album>>

    constructor (initialAlbums: seq<Album>)
      ensures Valid(st)
      ensures st == GalleryState(initialAlbums, None, false, None, None, false, "", [], false,
                                 None, [], [], false, false)
      ensures markersLayer == null
      ensures redraw == MarkerRedraw.Initial(initialAlbums)
    {
      st := GalleryState(initialAlbums, None, false, None, None, false, "", [], false,
                         None, [], [], false, false);
      markersLayer := null;
      redraw := MarkerRedraw.Initial(initialAlbums);
    }

    /** The end of the map initialisation: Leaflet, the map and its marker
        layer are in place and the country features are loaded. The map is
        then ready, so the effect that depends on it draws the list at
        once. `zoom` and `inView` are the new map's zoom and bounds test. */
    method MapInitialised(layer: Layer<AlbumMarkers.AlbumMarker>, features: seq<CountryFeature>, zoom: real,
                          inView: Album -> bool, storage: Storage)
      requires Valid(st)
      modifies this`st, this`markersLayer, this`redraw, layer
      ensures Valid(st)
      ensures st == old(st).(leafletLoaded := true, mapPresent := true, countryFeatures := features)
      ensures markersLayer == layer
      ensures layer.markers == AlbumMarkers.LayerAfterUpdate(Some(st.albums), zoom, inView, storage)
      ensures redraw == MarkerRedraw.DrawnNow(old(redraw))
    {
      st := st.(leafletLoaded := true, mapPresent := true, countryFeatures := features);
      markersLayer := layer;
      redraw := MarkerRedraw.DrawnNow(redraw);
      UpdateAlbumMarkers(zoom, inView, storage);
    }

    /** The effect that copies a changed `imagesData` prop into the list. */
    method AlbumsPropChanged(initialAlbums: seq<Album>)
      requires Valid(st)
      modifies this`st
      ensures Valid(st)
      ensures st == old(st).(albums := initialAlbums)
    {
      st := st.(albums := initialAlbums);
    }

    /** handleAlbumMarkerClick: ignored while picking; otherwise the draft
        is dropped and the edit panel opens on the clicked album. */
    method AlbumMarkerClick(album: Album)
      requires Valid(st)
      modifies this`st
      ensures Valid(st)
      ensures Picking(old(st)) ==> st == old(st)
      ensures !Picking(old(st)) ==>
        st == old(st).(newAlbumDraft := None, newPanelOpen := false,
                       editingAlbum := Some(album), editPanelOpen := true)
    {
      if st.pickingId.Some? && st.pickingId.value != "" {
        return;
      }
      st := st.(newAlbumDraft := None, newPanelOpen := false);
      st := st.(editingAlbum := Some(album), editPanelOpen := true);
    }

    /** handleEditPanelClose. */
    method EditPanelClose()
      requires Valid(st)
      modifies this`st
      ensures Valid(st)
      ensures st == old(st).(editPanelOpen := false, editingAlbum := None)
    {
      st := st.(editPanelOpen := false, editingAlbum := None);
    }

    /** handleEditPanelSave: the album with the saved id is replaced and
        the edit panel closes. */
    method EditPanelSave(updated: Album)
      requires Valid(st)
      modifies this`st
      ensures Valid(st)
      ensures st == old(st).(albums := UpdateWhere(old(st).albums, updated.id, AlbumId, Replace(updated)),
                             editPanelOpen := false, editingAlbum := None)
    {
      st := st.(albums := UpdateWhere(st.albums, updated.id, AlbumId, Replace(updated)));
      st := st.(editPanelOpen := false, editingAlbum := None);
    }

    /** openNewAlbumPanel; its button is disabled while a picking id is set. */
    method OpenNewAlbumPanel(coverId: string, today: string)
      requires Valid(st) && st.pickingId.None?
      modifies this`st
      ensures Valid(st)
      ensures st == old(st).(editingAlbum := None, editPanelOpen := false,
                             newAlbumDraft := Some(NewDraft(coverId, today)), newPanelOpen := true)
    {
      st := st.(editingAlbum := None, editPanelOpen := false);
      st := st.(newAlbumDraft := Some(NewDraft(coverId, today)), newPanelOpen := true);
    }

    /** handleCloseNewAlbumPanel: the draft is dropped, and a pick for it
        is abandoned. */
    method CloseNewAlbumPanel()
      requires Valid(st)
      modifies this`st
      ensures Valid(st)
      ensures st == old(st).(newPanelOpen := false, newAlbumDraft := None,
                             pickingId := if old(st).pickingId == Some(Sentinel) then None else old(st).pickingId)
    {
      st := st.(newPanelOpen := false, newAlbumDraft := None);
      if st.pickingId == Some(Sentinel) {
        st := st.(pickingId := None);
      }
    }

    /** handleSaveNewAlbum: refused, changing nothing, without a cover key or
        while the draft is still at the origin; otherwise the album is
        appended under its generated id and the new-album panel closes. */
    method SaveNewAlbum(toSave: Album, generatedId: string, now: string)
      requires Valid(st)
      modifies this`st
      ensures Valid(st)
      ensures !NewAlbumAcceptable(toSave) ==> st == old(st)
      ensures NewAlbumAcceptable(toSave) ==>
        st == old(st).(
          albums := old(st).albums + [toSave.(id := generatedId,
                                              dateCreated := if toSave.dateCreated != "" then toSave.dateCreated else now)],
          newPanelOpen := false, newAlbumDraft := None,
          pickingId := if old(st).pickingId == Some(Sentinel) then None else old(st).pickingId)
    {
      if toSave.cover.url == "" {
        return;
      }
      if toSave.lat == 0.0 && toSave.lng == 0.0 && toSave.id == Sentinel {
        return;
      }
      var saved := toSave.(id := generatedId,
                           dateCreated := if toSave.dateCreated != "" then toSave.dateCreated else now);
      st := st.(albums := st.albums + [saved]);
      CloseNewAlbumPanel();
    }

    /** startPickLocationForNewAlbum, reached from the open new-album panel:
        the panel hides and, when there is a draft, the draft takes the
        form's values and the map waits for a click for it. */
    method StartPickForNewAlbum(form: PanelForm, generatedId: string)
      requires Valid(st) && st.newPanelOpen
      modifies this`st
      ensures Valid(st)
      ensures old(st).newAlbumDraft.None? ==> st == old(st).(newPanelOpen := false)
      ensures old(st).newAlbumDraft.Some? ==>
        st == old(st).(newPanelOpen := false,
                       newAlbumDraft := Some(DraftFromForm(old(st).newAlbumDraft.value, form, generatedId)),
                       pickingId := Some(Sentinel))
    {
      st := st.(newPanelOpen := false);
      if st.newAlbumDraft.Some? {
        st := st.(newAlbumDraft := Some(DraftFromForm(st.newAlbumDraft.value, form, generatedId)));
        st := st.(pickingId := Some(Sentinel));
      }
    }

    /** startPickLocationForExistingAlbum, reached from the open edit panel:
        the panel closes, the edited album takes the form's values and the
        map waits for a click for that album. */
    method StartPickForExistingAlbum(form: PanelForm, generatedId: string)
      requires Valid(st) && st.editPanelOpen
      modifies this`st
      ensures Valid(st)
      ensures old(st).editingAlbum.Some? &&
        st == old(st).(editPanelOpen := false,
                       editingAlbum := Some(EditedFromForm(old(st).editingAlbum.value, form, generatedId)),
                       pickingId := Some(old(st).editingAlbum.value.id))
    {
      st := st.(editPanelOpen := false);
      if st.editingAlbum.Some? {
        var updated := EditedFromForm(st.editingAlbum.value, form, generatedId);
        st := st.(pickingId := Some(st.editingAlbum.value.id));
        st := st.(editingAlbum := Some(updated));
      }
    }

    /** mapClickLogicHandler: without a picking id, or before Leaflet has
        loaded, nothing happens. Picking for the draft moves the draft and
        reopens its panel. Picking for an album moves exactly the albums
        with that id; the edit panel reopens on the moved album only if
        React ran the list updater at once (`updaterRanEagerly`), since the
        source reads the updater's result right after scheduling it. Either
        way the picking id is cleared. */
    method MapClick(lat: real, lng: real, updaterRanEagerly: bool)
      requires Valid(st)
      modifies this`st
      ensures Valid(st)
      ensures !(Picking(old(st)) && old(st).leafletLoaded) ==> st == old(st)
      ensures Picking(old(st)) && old(st).leafletLoaded && old(st).pickingId == Some(Sentinel) ==>
        st == old(st).(
          newAlbumDraft := if old(st).newAlbumDraft.Some? then Some(MoveTo(lat, lng)(old(st).newAlbumDraft.value)) else None,
          newPanelOpen := true, pickingId := None)
      ensures Picking(old(st)) && old(st).leafletLoaded && old(st).pickingId != Some(Sentinel) ==>
        var moved := UpdateWhere(old(st).albums, old(st).pickingId.value, AlbumId, MoveTo(lat, lng));
        var reEdit := LastWithId(moved, old(st).pickingId.value);
        st == old(st).(
          albums := moved,
          editingAlbum := if updaterRanEagerly && reEdit.Some? then reEdit else old(st).editingAlbum,
          editPanelOpen := if updaterRanEagerly && reEdit.Some? then true else old(st).editPanelOpen,
          pickingId := None)
    {
      if st.pickingId.Some? && st.pickingId.value != "" && st.leafletLoaded {
        var currentPickerId := st.pickingId.value;
        if currentPickerId == Sentinel {
          if st.newAlbumDraft.Some? {
            st := st.(newAlbumDraft := Some(MoveTo(lat, lng)(st.newAlbumDraft.value)));
          }
          st := st.(newPanelOpen := true);
        } else {
          st := st.(albums := UpdateWhere(st.albums, currentPickerId, AlbumId, MoveTo(lat, lng)));
          var albumToReEdit := if updaterRanEagerly then LastWithId(st.albums, currentPickerId) else None;
          if albumToReEdit.Some? {
            st := st.(editingAlbum := albumToReEdit, editPanelOpen := true);
          }
        }
        st := st.(pickingId := None);
      }
    }

    /** handleDeleteAlbum: every album with the id goes, the rest stay in
        order. */
    method DeleteAlbum(albumId: string)
      requires Valid(st)
      modifies this`st
      ensures Valid(st)
      ensures st == old(st).(albums := RemoveWhere(old(st).albums, albumId, AlbumId))
    {
      st := st.(albums := RemoveWhere(st.albums, albumId, AlbumId));
    }

    /** updateAlbumMarkersCallback: a no-op until Leaflet, the map and the
        marker layer are all present; then the layer is rebuilt from the
        album list. `inView` is the map's current bounds test and `storage`
        the image store. */
    method UpdateAlbumMarkers(zoom: real, inView: Album -> bool, storage: Storage)
      modifies markersLayer
      ensures !st.leafletLoaded || !st.mapPresent || markersLayer == null ==>
        markersLayer == null || markersLayer.markers == old(markersLayer.markers)
      ensures st.leafletLoaded && st.mapPresent && markersLayer != null ==>
        markersLayer.markers == AlbumMarkers.LayerAfterUpdate(Some(st.albums), zoom, inView, storage)
    {
      var layer := markersLayer;
      if !st.leafletLoaded || !st.mapPresent || layer == null {
        return;
      }
      AlbumMarkers.UpdateImageMarkersOnMap(layer, Some(st.albums), zoom, inView, storage);
    }

    /** The `zoomend moveend` listener, registered once the map is ready:
        it calls the current debounced wrapper. */
    method MapMoved()
      modifies this`redraw
      ensures st.leafletLoaded && st.mapPresent ==> redraw == MarkerRedraw.Moved(old(redraw))
      ensures !(st.leafletLoaded && st.mapPresent) ==> redraw == old(redraw)
      ensures MarkerRedraw.UpToDate(old(redraw)) ==> MarkerRedraw.UpToDate(redraw)
    {
      if st.leafletLoaded && st.mapPresent {
        redraw := MarkerRedraw.Moved(redraw);
      }
    }

    /** `dt` milliseconds pass: every redraw whose timer comes due runs the
        marker callback with the list its wrapper closed over, and the last
        of them decides what the layer shows. */
    method TimePasses(dt: nat, zoom: real, inView: Album -> bool, storage: Storage)
      modifies this`redraw, markersLayer
      ensures redraw == MarkerRedraw.Pass(old(redraw), dt)
      ensures |redraw.wrapper.fired| > |old(redraw).wrapper.fired| && st.leafletLoaded && st.mapPresent && markersLayer != null ==>
        markersLayer.markers == AlbumMarkers.LayerAfterUpdate(Some(redraw.wrapper.fired[|redraw.wrapper.fired| - 1]), zoom, inView, storage)
      ensures !(|redraw.wrapper.fired| > |old(redraw).wrapper.fired| && st.leafletLoaded && st.mapPresent && markersLayer != null) ==>
        markersLayer == null || markersLayer.markers == old(markersLayer.markers)
      ensures MarkerRedraw.UpToDate(old(redraw)) ==> MarkerRedraw.UpToDate(redraw)
    {
      if MarkerRedraw.UpToDate(redraw) {
        MarkerRedraw.UpToDatePass(redraw, dt);
      }
      var next := MarkerRedraw.Pass(redraw, dt);
      var ran := |next.wrapper.fired| > |redraw.wrapper.fired|;
      redraw := next;
      var layer := markersLayer;
      if ran && st.leafletLoaded && st.mapPresent && layer != null {
        var last := next.wrapper.fired[|next.wrapper.fired| - 1];
        AlbumMarkers.UpdateImageMarkersOnMap(layer, Some(last), zoom, inView, storage);
      }
    }

    /** A render in which the albums list was replaced: `useMemo` builds a
        new wrapper over the new list, and once the map is ready the effect
        redraws the layer from it at once. The rebuild is the corrected one,
        which clears the old wrapper's pending timer
        (`MarkerRedraw.Rebuilt` is the one as written). */
    method ListReplaced(zoom: real, inView: Album -> bool, storage: Storage)
      modifies this`redraw, markersLayer
      ensures st.leafletLoaded && st.mapPresent && markersLayer != null ==>
        redraw == MarkerRedraw.DrawnNow(MarkerRedraw.RebuiltClearing(old(redraw), st.albums)) &&
        markersLayer.markers == AlbumMarkers.LayerAfterUpdate(Some(st.albums), zoom, inView, storage)
      ensures !(st.leafletLoaded && st.mapPresent && markersLayer != null) ==>
        redraw == MarkerRedraw.RebuiltClearing(old(redraw), st.albums) &&
        (markersLayer == null || markersLayer.markers == old(markersLayer.markers))
      ensures redraw.captured == st.albums
      ensures old(redraw).stranded == [] && st.leafletLoaded && st.mapPresent && markersLayer != null ==>
        MarkerRedraw.UpToDate(redraw)
    {
      if redraw.stranded == [] {
        MarkerRedraw.RebuiltClearingUpToDate(redraw, st.albums);
      }
      redraw := MarkerRedraw.RebuiltClearing(redraw, st.albums);
      if st.leafletLoaded && st.mapPresent && markersLayer != null {
        redraw := MarkerRedraw.DrawnNow(redraw);
        UpdateAlbumMarkers(zoom, inView, storage);
      }
    }

    /** handleSearchChange. */
    method SearchChange(query: string)
      requires Valid(st)
      modifies this`st
      ensures Valid(st)
      ensures var outcome := Search(old(st).countryFeatures, query);
        st == old(st).(searchQuery := query, searchResults := outcome.results,
                       dropdownOpen := outcome.dropdownOpen)
    {
      var outcome := Search(st.countryFeatures, query);
      var next := st.(searchQuery := query, searchResults := outcome.results, dropdownOpen := outcome.dropdownOpen);
      assert Valid(next);
      st := next;
    }

    /** The search input gaining focus reopens the dropdown when there is a
        query and something to show. */
    method SearchFocus()
      requires Valid(st)
      modifies this`st
      ensures Valid(st)
      ensures st == old(st).(dropdownOpen := if old(st).searchQuery != "" && |old(st).searchResults| > 0
                                             then true else old(st).dropdownOpen)
    {
      if st.searchQuery != "" && |st.searchResults| > 0 {
        st := st.(dropdownOpen := true);
      }
    }

    /** A mouse-down anywhere: outside the search box it closes the dropdown. */
    method MouseDown(insideSearchBox: bool)
      requires Valid(st)
      modifies this`st
      ensures Valid(st)
      ensures st == old(st).(dropdownOpen := if insideSearchBox then old(st).dropdownOpen else false)
    {
      if !insideSearchBox {
        st := st.(dropdownOpen := false);
      }
    }

    /** flyToCountry, for a search result: nothing before the map and
        Leaflet are present; otherwise the flight CountryView computes is
        requested, and when the bounds were usable the country becomes the
        zoomed one and the search box is cleared. */
    method FlyToCountry(feature: CountryFeature, bounds: Option<(LatLng, real)>)
      requires Valid(st)
      modifies this`st
      ensures Valid(st)
      ensures !(old(st).mapPresent && old(st).leafletLoaded) ==> st == old(st)
      ensures old(st).mapPresent && old(st).leafletLoaded ==>
        var usable := feature.name != "" && !feature.geometry.NoGeometry? && bounds.Some?;
        var flight := if usable
          then Some(Flight(AdjustedCenter(bounds.value.0, AdjustmentFor(feature.name)),
                           AdjustedZoom(bounds.value.1, AdjustmentFor(feature.name), Some(MinZoom), Some(MaxZoom))))
          else if feature.name != "" && feature.geometry.Point?
          then Some(Flight(LatLng(feature.geometry.lat, feature.geometry.lng), PointZoom))
          else None;
        st == old(st).(
          flights := old(st).flights + (if flight.Some? then [flight.value] else []),
          zoomedCountry := if usable then Some(feature.name) else old(st).zoomedCountry,
          searchQuery := if usable then "" else old(st).searchQuery,
          searchResults := if usable then [] else old(st).searchResults,
          dropdownOpen := if usable then false else old(st).dropdownOpen)
    {
      if !st.mapPresent || !st.leafletLoaded {
        return;
      }
      var flight := CountryView.FlyToCountry(feature, bounds, Some(MinZoom), Some(MaxZoom));
      if flight.Some? {
        st := st.(flights := st.flights + [flight.value]);
      }
      if feature.name != "" && !feature.geometry.NoGeometry? && bounds.Some? {
        st := st.(zoomedCountry := Some(feature.name));
        st := st.(searchQuery := "", searchResults := [], dropdownOpen := false);
      }
    }

    /** A click on a country shape (onEachFeature's click, then
        zoomToFeature): ignored while picking or before the map and Leaflet
        are present; otherwise the country becomes the zoomed one and the
        map flies to its adjusted target. `boundsCenter` and `fitZoom` are
        the shape's bounds centre and the zoom that fits them. */
    method CountryClick(feature: CountryFeature, boundsCenter: LatLng, fitZoom: real)
      requires Valid(st)
      modifies this`st
      ensures Valid(st)
      ensures Picking(old(st)) || !old(st).mapPresent || !old(st).leafletLoaded ==> st == old(st)
      ensures !Picking(old(st)) && old(st).mapPresent && old(st).leafletLoaded ==>
        st == old(st).(
          zoomedCountry := Some(feature.name),
          flights := old(st).flights + [Flight(AdjustedCenter(boundsCenter, AdjustmentFor(feature.name)),
                                               AdjustedZoom(fitZoom, AdjustmentFor(feature.name), Some(MinZoom), Some(MaxZoom)))])
    {
      if st.pickingId.Some? && st.pickingId.value != "" {
        return;
      }
      if !st.mapPresent || !st.leafletLoaded {
        return;
      }
      st := st.(zoomedCountry := Some(feature.name));
      var flight := ComputeFlight(AdjustmentFor(feature.name), boundsCenter, fitZoom, Some(MinZoom), Some(MaxZoom));
      st := st.(flights := st.flights + [flight]);
    }

    /** highlightFeature's decision for a hovered country at `zoom`. */
    function HighlightsOnHover(name: string, zoom: real): (r: bool)
      reads this
      ensures r ==> st.mapPresent && !Picking(st) && st.zoomedCountry != Some(name) && zoom < HighlightZoomLimit
    {
      st.mapPresent && Highlights(Picking(st), st.zoomedCountry, name, zoom)
    }
  }
}
