/** The records the map gallery works on (src/interfaces/interface.ts).
    Optional strings are modelled as strings, with "" standing for both the
    empty string and `undefined`: every use in the gallery tests them for
    truthiness, which treats the two alike. ISO timestamps that the source
    fills from the clock (`dateAdded`, `lastUpdated`) are not modelled. */
module Interfaces {

  /** The id a not-yet-saved album carries while it is being drafted. */
  const Sentinel: string := "NEW_IMAGE_TEMP_ID"

  /** One picture: `url` is the storage key of its image data. */
  datatype ImageItem = ImageItem(id: string, url: string)

  /** An album pin on the map. */
  datatype Album = Album(
    id: string,
    title: string,
    description: string,
    cover: ImageItem,
    images: seq<ImageItem>,
    lat: real,
    lng: real,
    country: string,
    dateCreated: string)

  /** What the edit panel hands over when the user asks to pick a location. */
  datatype PanelForm = PanelForm(
    title: string,
    description: string,
    albumCoverUrl: string,
    albumDate: string)

  /** Browser storage: key to stored image data. */
  type Storage = map<string, string>
}
