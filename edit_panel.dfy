/** The album edit panel (src/component/imageEditPannel/ImageEditPanel.tsx):
    its view switching, the initialisation from the album it is given, the
    selection of internal images and their deletion, adding internal images,
    and the cover decision on submit. The panel's React state becomes the
    fields of `Panel`; browser storage is the `storage` field; each call of
    one of the props callbacks (onSave, onClose, onDelete,
    onStartPickLocation) is appended to `outbox`. File reading is an input:
    for each file, its name and the data it converted to, or None when the
    conversion failed. Generated ids and today's date are inputs too. */
module EditPanel {
  import opened Common
  import opened Interfaces

  datatype PanelView = DisplayDetails | EditDetails | ManageImages

  /** A call the panel makes to one of its callbacks. */
  datatype PanelEvent =
    | Saved(album: Album)
    | Closed
    | Deleted(albumId: string)
    | PickRequested(form: PanelForm)

  /** An uploaded file: its name, the id generated for it and the data
      it converted to, if the conversion succeeded. */
  datatype UploadedFile = UploadedFile(name: string, generatedId: string, data: Option<string>)

  /** `name.split('.')[0]`: the file name up to its first dot. */
  function Stem(name: string): (r: string)
    ensures '.' !in r
    ensures |r| <= |name| && r == name[..|r|]
    ensures |r| < |name| ==> name[|r|] == '.'
  {
    if name == [] || name[0] == '.' then [] else [name[0]] + Stem(name[1..])
  }

  function CoverStorageKey(coverId: string, fileName: string): string
  {
    "img_data_cover_" + coverId + "_" + Stem(fileName)
  }

  function InternalStorageKey(imageId: string, fileName: string): string
  {
    "img_data_internal_" + imageId + "_" + Stem(fileName)
  }

  /** The date a save sends: the form's date, else today, for a draft; the
      album's own date otherwise. */
  function SavedDate(album: Album, albumDate: string, today: string): string
  {
    if album.id == Sentinel then (if albumDate != "" then albumDate else today) else album.dateCreated
  }

  /** The album object a save sends to onSave: the album with the form's
      title and description, the given cover and images, and its date. */
  function SavedAlbum(album: Album, title: string, description: string, cover: ImageItem,
                      images: seq<ImageItem>, albumDate: string, today: string): (r: Album)
    ensures r.id == album.id && r.lat == album.lat && r.lng == album.lng && r.country == album.country
    ensures r.title == title && r.description == description && r.cover == cover && r.images == images
    ensures album.id != Sentinel ==> r.dateCreated == album.dateCreated
  {
    album.(title := title, description := description, cover := cover, images := images,
           dateCreated := SavedDate(album, albumDate, today))
  }

  /** Toggling an image id in the selection. */
  function Toggle(selected: set<string>, id: string): (r: set<string>)
    ensures id in selected ==> r == selected - {id}
    ensures id !in selected ==> r == selected + {id}
  {
    if id in selected then selected - {id} else selected + {id}
  }

  /** Toggling adds an absent id, removes a present one, and leaves every
      other id as it was; toggling twice changes nothing. */
  lemma ToggleTwice(selected: set<string>, id: string)
    ensures (id in Toggle(selected, id)) <==> id !in selected
    ensures forall other :: other != id ==> (other in Toggle(selected, id) <==> other in selected)
    ensures Toggle(Toggle(selected, id), id) == selected
  {
  }

  /** The images a deletion keeps: the unselected ones, in order. */
  function Kept(images: seq<ImageItem>, selected: set<string>): seq<ImageItem>
  {
    if images == [] then []
    else Kept(images[..|images| - 1], selected)
         + (if images[|images| - 1].id in selected then [] else [images[|images| - 1]])
  }

  /** The storage keys a deletion removes: the non-empty urls of the
      selected images, in order. */
  function SelectedUrls(images: seq<ImageItem>, selected: set<string>): seq<string>
  {
    if images == [] then []
    else SelectedUrls(images[..|images| - 1], selected)
         + (var last := images[|images| - 1];
            if last.id in selected && last.url != "" then [last.url] else [])
  }

  /** The keys listed in `urls`. */
  function KeySet(urls: seq<string>): set<string>
  {
    set u | u in urls
  }

  /** The kept images are exactly the unselected ones, in their original
      order, and the removed keys are exactly the selected images' non-empty
      urls. */
  lemma {:induction false} DeletionPartitions(images: seq<ImageItem>, selected: set<string>)
    ensures forall x :: x in Kept(images, selected) <==> x in images && x.id !in selected
    ensures IsSubsequence(Kept(images, selected), images)
    ensures forall u :: u in SelectedUrls(images, selected) <==>
      u != "" && exists x :: x in images && x.id in selected && x.url == u
  {
    if images != [] {
      var init, last := images[..|images| - 1], images[|images| - 1];
      assert images == init + [last];
      DeletionPartitions(init, selected);
      if last.id in selected {
        assert Kept(images, selected) == Kept(init, selected);
        SubsequenceExtend(Kept(init, selected), init, last);
      } else {
        SubsequenceAppend(Kept(init, selected), init, last);
      }
      forall u | u != "" && exists x :: x in images && x.id in selected && x.url == u
        ensures u in SelectedUrls(images, selected)
      {
        var x :| x in images && x.id in selected && x.url == u;
        if x != last {
          assert x in init;
        }
      }
    }
  }

  lemma {:induction false} SubsequenceExtend<T>(xs: seq<T>, ys: seq<T>, y: T)
    requires IsSubsequence(xs, ys)
    ensures IsSubsequence(xs, ys + [y])
    decreases |ys|
  {
    if xs != [] && ys != [] {
      assert (ys + [y])[1..] == ys[1..] + [y];
      if xs[0] == ys[0] {
        SubsequenceExtend(xs[1..], ys[1..], y);
      } else {
        SubsequenceExtend(xs, ys[1..], y);
      }
    }
  }

  lemma {:induction false} SubsequenceAppend<T>(xs: seq<T>, ys: seq<T>, y: T)
    requires IsSubsequence(xs, ys)
    ensures IsSubsequence(xs + [y], ys + [y])
    decreases |ys|
  {
    if xs == [] {
      assert xs + [y] == [y];
      SubsequenceTail(y, ys);
    } else {
      assert ys != [];
      assert (xs + [y])[1..] == xs[1..] + [y] && (ys + [y])[1..] == ys[1..] + [y];
      if xs[0] == ys[0] {
        SubsequenceAppend(xs[1..], ys[1..], y);
      } else {
        SubsequenceAppend(xs, ys[1..], y);
      }
    }
  }

  lemma {:induction false} SubsequenceTail<T>(y: T, ys: seq<T>)
    ensures IsSubsequence([y], ys + [y])
    decreases |ys|
  {
    if ys != [] {
      assert (ys + [y])[1..] == ys[1..] + [y];
      SubsequenceTail(y, ys[1..]);
    }
  }

  /** What a cover decision yields: a rejected submit, or the cover item
      to save together with the storage it leaves behind. */
  datatype CoverOutcome = Rejected | Accepted(cover: ImageItem, storage: Storage)

  /** The cover decision of handleSubmitAlbumDetails. With a chosen file:
      its data is stored under a new key, and the old cover's data is removed
      unless it is empty, is that very key or is still the key in the form;
      a failed conversion rejects. Without a file: a key in the form that
      differs from the album's becomes a new cover item and the old key's data
      is removed; an unchanged key keeps the cover item; no key rejects. */
  function DecideCover(oldCover: ImageItem, coverFile: Option<UploadedFile>, coverKey: string,
                       generatedId: string, storage: Storage): CoverOutcome
  {
    if coverFile.Some? then
      if coverFile.value.data.None? then Rejected
      else
        var key := CoverStorageKey(coverFile.value.generatedId, coverFile.value.name);
        var stored := storage[key := coverFile.value.data.value];
        var cleaned := if oldCover.url != "" && oldCover.url != key && oldCover.url != coverKey
                       then stored - {oldCover.url} else stored;
        Accepted(ImageItem(coverFile.value.generatedId, key), cleaned)
    else if coverKey != "" then
      if coverKey != oldCover.url then
        Accepted(ImageItem(generatedId, coverKey),
                 if oldCover.url != "" then storage - {oldCover.url} else storage)
      else Accepted(oldCover, storage)
    else Rejected
  }

  /** Without a new file: no key rejects the submit; an unchanged key keeps
      the cover item and storage; a changed key makes a cover item for it and
      removes exactly the old key's data. */
  lemma CoverWithoutFile(oldCover: ImageItem, coverKey: string, generatedId: string, storage: Storage)
    ensures coverKey == "" ==> DecideCover(oldCover, None, coverKey, generatedId, storage) == Rejected
    ensures coverKey != "" && coverKey == oldCover.url ==>
      DecideCover(oldCover, None, coverKey, generatedId, storage) == Accepted(oldCover, storage)
    ensures coverKey != "" && coverKey != oldCover.url ==>
      var o := DecideCover(oldCover, None, coverKey, generatedId, storage);
      o.Accepted? && o.cover.url == coverKey &&
      (oldCover.url != "" ==> oldCover.url !in o.storage) && (oldCover.url == "" ==> o.storage == storage) &&
      forall k :: k != oldCover.url ==>
        (k in o.storage <==> k in storage) && (k in storage ==> o.storage[k] == storage[k])
  {
  }

  /** With a new file that converts: the cover points at the fresh key
      holding the file's data, the old cover's data goes exactly when it is
      non-empty, differs from the new key and is no longer the form's key, and
      nothing else in storage changes. */
  lemma CoverWithFile(oldCover: ImageItem, file: UploadedFile, coverKey: string, generatedId: string, storage: Storage)
    requires file.data.Some?
    ensures var o := DecideCover(oldCover, Some(file), coverKey, generatedId, storage);
      var key := CoverStorageKey(file.generatedId, file.name);
      o.Accepted? && o.cover == ImageItem(file.generatedId, key) &&
      key in o.storage && o.storage[key] == file.data.value &&
      (oldCover.url != key ==>
        (oldCover.url in o.storage <==> oldCover.url in storage && (oldCover.url == "" || oldCover.url == coverKey))) &&
      forall k :: k != key && k != oldCover.url ==>
        (k in o.storage <==> k in storage) && (k in storage ==> o.storage[k] == storage[k])
  {
  }

  /** Since the form's key starts out as the album's cover key, uploading a
      new cover without touching the key field leaves the old cover's data in
      storage. */
  lemma UploadKeepsOldCoverDataWhenKeyUntouched(oldCover: ImageItem, file: UploadedFile, storage: Storage)
    requires file.data.Some? && oldCover.url in storage
    requires oldCover.url != CoverStorageKey(file.generatedId, file.name)
    ensures var o := DecideCover(oldCover, Some(file), oldCover.url, "", storage);
      o.Accepted? && oldCover.url in o.storage && o.storage[oldCover.url] == storage[oldCover.url]
  {
  }

  /** A failed conversion, or neither a file nor a key, rejects. */
  lemma CoverRejections(oldCover: ImageItem, file: UploadedFile, coverKey: string, generatedId: string, storage: Storage)
    ensures file.data.None? ==> DecideCover(oldCover, Some(file), coverKey, generatedId, storage) == Rejected
    ensures DecideCover(oldCover, None, "", generatedId, storage) == Rejected
    ensures DecideCover(oldCover, Some(file), coverKey, generatedId, storage).Rejected? ==> file.data.None?
  {
  }

  /** The image items made from the files that converted, in order. */
  function ResolvedItems(files: seq<UploadedFile>): seq<ImageItem>
  {
    if files == [] then []
    else
      var last := files[|files| - 1];
      ResolvedItems(files[..|files| - 1])
      + (if last.data.Some? then [ImageItem(last.generatedId, InternalStorageKey(last.generatedId, last.name))] else [])
  }

  /** Storage after writing each converted file's data under its key. */
  function StoreFiles(storage: Storage, files: seq<UploadedFile>): Storage
  {
    if files == [] then storage
    else
      var last := files[|files| - 1];
      var before := StoreFiles(storage, files[..|files| - 1]);
      if last.data.Some? then before[InternalStorageKey(last.generatedId, last.name) := last.data.value] else before
  }

  /** There is at most one item per file, every converted file's item is
      among them, and every item's key is present in storage after the
      upload. */
  lemma {:induction false} ResolvedItemsAreStored(storage: Storage, files: seq<UploadedFile>)
    ensures |ResolvedItems(files)| <= |files|
    ensures forall item :: item in ResolvedItems(files) ==> item.url in StoreFiles(storage, files)
    ensures forall f :: f in files && f.data.Some? ==>
      ImageItem(f.generatedId, InternalStorageKey(f.generatedId, f.name)) in ResolvedItems(files)
  {
    if files != [] {
      var init, last := files[..|files| - 1], files[|files| - 1];
      ResolvedItemsAreStored(storage, init);
      assert files == init + [last];
      forall f | f in files && f.data.Some?
        ensures ImageItem(f.generatedId, InternalStorageKey(f.generatedId, f.name)) in ResolvedItems(files)
      {
        if f != last {
          assert f in init;
        }
      }
    }
  }

  /** The location label: the pick prompt for the untouched draft, the
      coordinates otherwise. */
  datatype LocationLabel = PickLocationPrompt | Coordinates(lat: real, lng: real)

  function LocationLabelOf(album: Album): (r: LocationLabel)
    ensures r == PickLocationPrompt <==> album.id == Sentinel && album.lat == 0.0 && album.lng == 0.0
    ensures r.Coordinates? ==> r.lat == album.lat && r.lng == album.lng
  {
    if album.lat == 0.0 && album.lng == 0.0 && album.id == Sentinel then PickLocationPrompt
    else Coordinates(album.lat, album.lng)
  }

  /** The panel heading: the title, else "New Album" for the draft, else
      "Untitled Album". */
  function DisplayTitle(album: Album): (r: string)
    ensures r != ""
    ensures album.title != "" ==> r == album.title
    ensures album.title == "" ==> (r == "New Album" <==> album.id == Sentinel)
  {
    if album.title != "" then album.title
    else if album.id == Sentinel then "New Album" else "Untitled Album"
  }

  /** The album as handleAddInternalImages sends it to onSave, as written:
      only the newly uploaded images. */
  function SavedAfterAddAsWritten(album: Album, title: string, description: string,
                                  existing: seq<ImageItem>, added: seq<ImageItem>,
                                  albumDate: string, today: string): Album
  {
    SavedAlbum(album, title, description, album.cover, added, albumDate, today)
  }

  /** The album handleAddInternalImages evidently means to save: the panel's
      images with the uploaded ones appended, as the panel itself keeps
      them. */
  function SavedAfterAdd(album: Album, title: string, description: string,
                         existing: seq<ImageItem>, added: seq<ImageItem>,
                         albumDate: string, today: string): (r: Album)
    ensures r.images == existing + added
  {
    SavedAlbum(album, title, description, album.cover, existing + added, albumDate, today)
  }

  /** As written, adding one image to an album that already holds one
      saves an album holding only the new image: the existing one is lost. */
  lemma AddInternalImagesDropsExisting(album: Album, old1: ImageItem, new1: ImageItem)
    requires old1 != new1
    ensures old1 !in SavedAfterAddAsWritten(album, album.title, album.description, [old1], [new1], album.dateCreated, "").images
    ensures old1 in SavedAfterAdd(album, album.title, album.description, [old1], [new1], album.dateCreated, "").images
  {
    assert SavedAfterAdd(album, album.title, album.description, [old1], [new1], album.dateCreated, "").images[0] == old1;
  }

  /** The corrected save keeps every image the panel held, in order, and
      appends the uploads after them. */
  lemma AddInternalImagesKeepsExisting(album: Album, title: string, description: string,
                                       existing: seq<ImageItem>, added: seq<ImageItem>,
                                       albumDate: string, today: string)
    ensures var r := SavedAfterAdd(album, title, description, existing, added, albumDate, today);
      |r.images| == |existing| + |added| &&
      r.images[..|existing|] == existing && r.images[|existing|..] == added &&
      r.id == album.id && r.cover == album.cover
  {
  }

  /** The first loop of handleDeleteSelectedImages: walks the images once,
      keeping the unselected ones and collecting the selected ones' urls. */
  method PartitionSelection(images: seq<ImageItem>, selected: set<string>)
    returns (imagesToKeep: seq<ImageItem>, urlsToDelete: seq<string>)
    ensures imagesToKeep == Kept(images, selected)
    ensures urlsToDelete == SelectedUrls(images, selected)
  {
    imagesToKeep, urlsToDelete := [], [];
    for i := 0 to |images|
      invariant imagesToKeep == Kept(images[..i], selected)
      invariant urlsToDelete == SelectedUrls(images[..i], selected)
    {
      assert images[..i + 1][..i] == images[..i];
      var item := images[i];
      if item.id in selected {
        if item.url != "" {
          urlsToDelete := urlsToDelete + [item.url];
        }
      } else {
        imagesToKeep := imagesToKeep + [item];
      }
    }
    assert images[..|images|] == images;
  }

  /** The second loop: removes each collected key from storage. */
  method RemoveKeys(storage: Storage, urls: seq<string>) returns (remaining: Storage)
    ensures remaining == storage - KeySet(urls)
  {
    remaining := storage;
    for j := 0 to |urls|
      invariant remaining == storage - KeySet(urls[..j])
    {
      assert KeySet(urls[..j + 1]) == KeySet(urls[..j]) + {urls[j]} by {
        assert urls[..j + 1] == urls[..j] + [urls[j]];
      }
      remaining := remaining - {urls[j]};
    }
    assert urls[..|urls|] == urls;
  }

  class Panel {
    var view: PanelView
    var title: string
    var description: string
    var coverKey: string
    var albumDate: string
    var coverFile: Option<UploadedFile>
    var editableImages: seq<ImageItem>
    var selected: set<string>
    /** currentlyViewedAlbumIdRef. */
    var viewedAlbumId: Option<string>
    var showDeleteConfirm: bool
    var storage: Storage
    var outbox: seq<PanelEvent>

    /** The panel as first rendered. */
    constructor (storage: Storage)
      ensures view == DisplayDetails && selected == {} && viewedAlbumId.None? && !showDeleteConfirm
      ensures title == "" && description == "" && coverKey == "" && albumDate == ""
      ensures coverFile.None? && editableImages == []
      ensures this.storage == storage && outbox == []
    {
      view := DisplayDetails;
      title, description, coverKey, albumDate := "", "", "", "";
      coverFile := None;
      editableImages := [];
      selected := {};
      viewedAlbumId := None;
      showDeleteConfirm := false;
      this.storage := storage;
      outbox := [];
    }

    /** switchPanelView: always clears the selection. */
    method SwitchPanelView(newView: PanelView)
      modifies this
      ensures view == newView && selected == {}
      ensures title == old(title) && description == old(description) && coverKey == old(coverKey)
      ensures albumDate == old(albumDate) && coverFile == old(coverFile)
      ensures editableImages == old(editableImages) && viewedAlbumId == old(viewedAlbumId)
      ensures showDeleteConfirm == old(showDeleteConfirm) && storage == old(storage) && outbox == old(outbox)
    {
      selected := {};
      view := newView;
    }

    /** The effects that follow `imageInfo` and `isOpen`: opening on an
      album other than the one on display initialises the form from it and
      starts a draft in the edit view and any other album in the display
      view; opening again on the same album changes nothing; closing resets
      the panel. */
    method Sync(album: Album, isOpen: bool, today: string)
      modifies this
      ensures isOpen && old(viewedAlbumId) == Some(album.id) ==>
        view == old(view) && title == old(title) && description == old(description) &&
        coverKey == old(coverKey) && albumDate == old(albumDate) && coverFile == old(coverFile) &&
        editableImages == old(editableImages) && selected == old(selected) && viewedAlbumId == old(viewedAlbumId) &&
        showDeleteConfirm == old(showDeleteConfirm)
      ensures isOpen && old(viewedAlbumId) != Some(album.id) ==>
        view == (if album.id == Sentinel then EditDetails else DisplayDetails) &&
        title == album.title && description == album.description && coverKey == album.cover.url &&
        albumDate == (if album.dateCreated != "" then album.dateCreated else if album.id == Sentinel then today else "") &&
        coverFile.None? && editableImages == album.images && selected == {} &&
        viewedAlbumId == Some(album.id) && showDeleteConfirm == old(showDeleteConfirm)
      ensures !isOpen ==>
        view == DisplayDetails && title == "" && description == "" && coverKey == "" && albumDate == "" &&
        coverFile.None? && editableImages == [] && selected == {} && viewedAlbumId.None? && !showDeleteConfirm
      ensures storage == old(storage) && outbox == old(outbox)
    {
      if isOpen {
        if viewedAlbumId != Some(album.id) {
          LoadAlbum(album, today);
        }
      } else {
        Reset();
      }
    }

    /** Sync on an album other than the one on display. */
    method LoadAlbum(album: Album, today: string)
      modifies this`view, this`title, this`description, this`coverKey, this`albumDate
      modifies this`coverFile, this`editableImages, this`selected, this`viewedAlbumId
      ensures view == (if album.id == Sentinel then EditDetails else DisplayDetails)
      ensures title == album.title && description == album.description && coverKey == album.cover.url
      ensures albumDate == (if album.dateCreated != "" then album.dateCreated else if album.id == Sentinel then today else "")
      ensures coverFile.None? && editableImages == album.images && selected == {}
      ensures viewedAlbumId == Some(album.id)
    {
      title := album.title;
      description := album.description;
      coverKey := album.cover.url;
      albumDate := if album.dateCreated != "" then album.dateCreated
                   else if album.id == Sentinel then today else "";
      coverFile := None;
      editableImages := album.images;
      selected := {};
      if album.id == Sentinel {
        view := EditDetails;
      } else {
        view := DisplayDetails;
      }
      viewedAlbumId := Some(album.id);
    }

    /** Sync on closing: the panel returns to its first-rendered state. */
    method Reset()
      modifies this`view, this`title, this`description, this`coverKey, this`albumDate
      modifies this`coverFile, this`editableImages, this`selected, this`viewedAlbumId, this`showDeleteConfirm
      ensures view == DisplayDetails && title == "" && description == "" && coverKey == "" && albumDate == ""
      ensures coverFile.None? && editableImages == [] && selected == {} && viewedAlbumId.None? && !showDeleteConfirm
    {
      view := DisplayDetails;
      title, description, coverKey, albumDate := "", "", "", "";
      coverFile := None;
      editableImages := [];
      selected := {};
      viewedAlbumId := None;
      showDeleteConfirm := false;
    }

    /** switchToEditDetails: the form is refilled from the album and the
      edit view opens with an empty selection. */
    method SwitchToEditDetails(album: Album)
      modifies this
      ensures view == EditDetails && selected == {}
      ensures title == album.title && description == album.description && coverKey == album.cover.url
      ensures albumDate == album.dateCreated && coverFile.None?
      ensures editableImages == old(editableImages) && viewedAlbumId == old(viewedAlbumId)
      ensures showDeleteConfirm == old(showDeleteConfirm) && storage == old(storage) && outbox == old(outbox)
    {
      title := album.title;
      description := album.description;
      coverKey := album.cover.url;
      albumDate := album.dateCreated;
      coverFile := None;
      SwitchPanelView(EditDetails);
    }

    /** handleCancelEditDetails: a draft is closed; an existing album goes
      back to the display view with the form and images reset from it. */
    method CancelEditDetails(album: Album)
      modifies this
      ensures album.id == Sentinel ==>
        outbox == old(outbox) + [Closed] &&
        view == old(view) && title == old(title) && description == old(description) &&
        coverKey == old(coverKey) && albumDate == old(albumDate) && coverFile == old(coverFile) &&
        editableImages == old(editableImages) && selected == old(selected)
      ensures album.id != Sentinel ==>
        outbox == old(outbox) && view == DisplayDetails && selected == {} &&
        title == album.title && description == album.description && coverKey == album.cover.url &&
        albumDate == album.dateCreated && coverFile.None? && editableImages == album.images
      ensures viewedAlbumId == old(viewedAlbumId) && showDeleteConfirm == old(showDeleteConfirm)
      ensures storage == old(storage)
    {
      if album.id != Sentinel {
        SwitchPanelView(DisplayDetails);
        title := album.title;
        description := album.description;
        coverKey := album.cover.url;
        albumDate := album.dateCreated;
        coverFile := None;
        editableImages := album.images;
      } else {
        outbox := outbox + [Closed];
      }
    }

    /** handleCoverFileChange. */
    method ChooseCoverFile(file: Option<UploadedFile>)
      modifies this
      ensures coverFile == file
      ensures view == old(view) && title == old(title) && description == old(description)
      ensures coverKey == old(coverKey) && albumDate == old(albumDate) && editableImages == old(editableImages)
      ensures selected == old(selected) && viewedAlbumId == old(viewedAlbumId)
      ensures showDeleteConfirm == old(showDeleteConfirm) && storage == old(storage) && outbox == old(outbox)
    {
      coverFile := file;
    }

    /** handleToggleImageSelection. */
    method ToggleImageSelection(imageId: string)
      modifies this
      ensures selected == Toggle(old(selected), imageId)
      ensures view == old(view) && title == old(title) && description == old(description)
      ensures coverKey == old(coverKey) && albumDate == old(albumDate) && coverFile == old(coverFile)
      ensures editableImages == old(editableImages) && viewedAlbumId == old(viewedAlbumId)
      ensures showDeleteConfirm == old(showDeleteConfirm) && storage == old(storage) && outbox == old(outbox)
    {
      var newSelected := selected;
      if imageId in newSelected {
        newSelected := newSelected - {imageId};
      } else {
        newSelected := newSelected + {imageId};
      }
      selected := newSelected;
    }

    /** handleDeleteSelectedImages: nothing happens with an empty selection
      or when the user does not confirm; otherwise the unselected images are
      kept, the selected images' data is removed from storage, the selection
      is emptied and the album with the kept images goes to onSave. */
    method DeleteSelectedImages(album: Album, confirmed: bool, today: string)
      modifies this
      ensures old(selected) == {} || !confirmed ==>
        editableImages == old(editableImages) && selected == old(selected) &&
        storage == old(storage) && outbox == old(outbox)
      ensures old(selected) != {} && confirmed ==>
        editableImages == Kept(old(editableImages), old(selected)) && selected == {} &&
        storage == old(storage) - KeySet(SelectedUrls(old(editableImages), old(selected))) &&
        outbox == old(outbox) + [Saved(SavedAlbum(album, title, description, album.cover,
                                                 editableImages, albumDate, today))]
      ensures view == old(view) && title == old(title) && description == old(description)
      ensures coverKey == old(coverKey) && albumDate == old(albumDate) && coverFile == old(coverFile)
      ensures viewedAlbumId == old(viewedAlbumId) && showDeleteConfirm == old(showDeleteConfirm)
    {
      if |selected| == 0 {
        return;
      }
      if !confirmed {
        return;
      }
      var imagesToKeep, urlsToDelete := PartitionSelection(editableImages, selected);
      var remaining := RemoveKeys(storage, urlsToDelete);
      storage := remaining;
      editableImages := imagesToKeep;
      selected := {};
      outbox := outbox + [Saved(SavedAlbum(album, title, description, album.cover, imagesToKeep, albumDate, today))];
    }

    /** Stores the converted files and collects their items, in order. */
    method StoreUploads(files: seq<UploadedFile>) returns (resolved: seq<ImageItem>)
      modifies this
      ensures resolved == ResolvedItems(files)
      ensures storage == StoreFiles(old(storage), files)
      ensures view == old(view) && title == old(title) && description == old(description)
      ensures coverKey == old(coverKey) && albumDate == old(albumDate) && coverFile == old(coverFile)
      ensures editableImages == old(editableImages) && selected == old(selected)
      ensures viewedAlbumId == old(viewedAlbumId) && showDeleteConfirm == old(showDeleteConfirm)
      ensures outbox == old(outbox)
    {
      var stored := storage;
      resolved := [];
      for i := 0 to |files|
        invariant resolved == ResolvedItems(files[..i])
        invariant stored == StoreFiles(storage, files[..i])
      {
        assert files[..i + 1][..i] == files[..i];
        var file := files[i];
        if file.data.Some? {
          var key := InternalStorageKey(file.generatedId, file.name);
          stored := stored[key := file.data.value];
          resolved := resolved + [ImageItem(file.generatedId, key)];
        }
      }
      assert files[..|files|] == files;
      storage := stored;
    }

    /** handleAddInternalImages as written: the panel appends the uploads to
      its images, but onSave receives the uploads alone. */
    method AddInternalImagesAsWritten(album: Album, files: seq<UploadedFile>, today: string)
      modifies this
      ensures files == [] ==> storage == old(storage) && editableImages == old(editableImages) && outbox == old(outbox)
      ensures files != [] ==>
        storage == StoreFiles(old(storage), files) &&
        editableImages == old(editableImages) + ResolvedItems(files) &&
        outbox == old(outbox) + [Saved(SavedAfterAddAsWritten(album, title, description, old(editableImages),
                                                              ResolvedItems(files), albumDate, today))]
      ensures view == old(view) && title == old(title) && description == old(description)
      ensures coverKey == old(coverKey) && albumDate == old(albumDate) && coverFile == old(coverFile)
      ensures selected == old(selected) && viewedAlbumId == old(viewedAlbumId)
      ensures showDeleteConfirm == old(showDeleteConfirm)
    {
      if |files| == 0 {
        return;
      }
      var resolved := StoreUploads(files);
      editableImages := editableImages + resolved;
      outbox := outbox + [Saved(SavedAlbum(album, title, description, album.cover, resolved, albumDate, today))];
    }

    /** handleAddInternalImages as evidently intended: onSave receives the
      panel's images with the uploads appended. */
    method AddInternalImages(album: Album, files: seq<UploadedFile>, today: string)
      modifies this
      ensures files == [] ==> storage == old(storage) && editableImages == old(editableImages) && outbox == old(outbox)
      ensures files != [] ==>
        storage == StoreFiles(old(storage), files) &&
        editableImages == old(editableImages) + ResolvedItems(files) &&
        outbox == old(outbox) + [Saved(SavedAfterAdd(album, title, description, old(editableImages),
                                                     ResolvedItems(files), albumDate, today))]
      ensures view == old(view) && title == old(title) && description == old(description)
      ensures coverKey == old(coverKey) && albumDate == old(albumDate) && coverFile == old(coverFile)
      ensures selected == old(selected) && viewedAlbumId == old(viewedAlbumId)
      ensures showDeleteConfirm == old(showDeleteConfirm)
    {
      if |files| == 0 {
        return;
      }
      var resolved := StoreUploads(files);
      editableImages := editableImages + resolved;
      outbox := outbox + [Saved(SavedAlbum(album, title, description, album.cover, editableImages, albumDate, today))];
    }

    /** handleSubmitAlbumDetails: decides the cover step by step; a rejected
      decision changes nothing, an accepted one stores the cover's storage,
      sends the album with the form's fields, the cover and the panel's
      images to onSave, and forgets the chosen file. */
    method SubmitAlbumDetails(album: Album, generatedId: string, today: string)
      modifies this
      ensures var o := DecideCover(album.cover, old(coverFile), coverKey, generatedId, old(storage));
        (o.Rejected? ==> storage == old(storage) && outbox == old(outbox) && coverFile == old(coverFile)) &&
        (o.Accepted? ==>
          storage == o.storage && coverFile.None? &&
          outbox == old(outbox) + [Saved(SavedAlbum(album, title, description, o.cover, editableImages, albumDate, today))])
      ensures view == old(view) && title == old(title) && description == old(description)
      ensures coverKey == old(coverKey) && albumDate == old(albumDate) && editableImages == old(editableImages)
      ensures selected == old(selected) && viewedAlbumId == old(viewedAlbumId)
      ensures showDeleteConfirm == old(showDeleteConfirm)
    {
      var finalCover: ImageItem;
      if coverFile.Some? {
        var file := coverFile.value;
        if file.data.None? {
          return;
        }
        var key := CoverStorageKey(file.generatedId, file.name);
        storage := storage[key := file.data.value];
        finalCover := ImageItem(file.generatedId, key);
        if album.cover.url != "" && album.cover.url != key && album.cover.url != coverKey {
          storage := storage - {album.cover.url};
        }
      } else if coverKey != "" {
        if coverKey != album.cover.url {
          finalCover := ImageItem(generatedId, coverKey);
          if album.cover.url != "" {
            storage := storage - {album.cover.url};
          }
        } else {
          finalCover := album.cover;
        }
      } else {
        return;
      }
      outbox := outbox + [Saved(SavedAlbum(album, title, description, finalCover, editableImages, albumDate, today))];
      coverFile := None;
    }

    /** handlePickLocationFromMapClick: the form goes to onStartPickLocation. */
    method PickLocationFromMap()
      modifies this
      ensures outbox == old(outbox) + [PickRequested(PanelForm(title, description, coverKey, albumDate))]
      ensures view == old(view) && title == old(title) && description == old(description)
      ensures coverKey == old(coverKey) && albumDate == old(albumDate) && coverFile == old(coverFile)
      ensures editableImages == old(editableImages) && selected == old(selected)
      ensures viewedAlbumId == old(viewedAlbumId) && showDeleteConfirm == old(showDeleteConfirm)
      ensures storage == old(storage)
    {
      outbox := outbox + [PickRequested(PanelForm(title, description, coverKey, albumDate))];
    }

    /** handleConfirmDelete: onDelete with the album's id, then onClose. */
    method ConfirmDelete(album: Album)
      modifies this
      ensures outbox == old(outbox) + [Deleted(album.id), Closed] && !showDeleteConfirm
      ensures view == old(view) && title == old(title) && description == old(description)
      ensures coverKey == old(coverKey) && albumDate == old(albumDate) && coverFile == old(coverFile)
      ensures editableImages == old(editableImages) && selected == old(selected)
      ensures viewedAlbumId == old(viewedAlbumId) && storage == old(storage)
    {
      outbox := outbox + [Deleted(album.id)];
      showDeleteConfirm := false;
      outbox := outbox + [Closed];
    }
  }
}
