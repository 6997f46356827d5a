/**
 * What the asset-container library yields for one bundle file, reduced to what
 * the exporter reads. Loading and decoding are not modelled: a text asset
 * arrives as its already-split lines, an audio clip as its name and samples.
 */
module Assets {
  import opened Wrappers

  type Bytes = seq<bv8>

  /** One entry of an audio clip's `samples` dictionary: file name and payload. */
  datatype Sample = Sample(fileName: string, audio: Bytes)

  /** The two object types the exporter asks the library to read. */
  datatype ObjectKind = TextAssetKind | AudioClipKind

  /**
   * An object of a bundle, as `obj.read()` would see it. `samples` is `None`
   * when the clip's `samples` attribute is not a dictionary. `Unreadable` is an
   * object of the given type whose `read()` raises.
   */
  datatype AssetObject =
    | TextAsset(name: string, lines: seq<string>)
    | AudioClip(name: string, samples: Option<seq<Sample>>)
    | OtherObject
    | Unreadable(kind: ObjectKind)

  /** A `*.bundle` file: its file name and, unless the container fails to load, its objects. */
  datatype Bundle = Bundle(name: string, contents: Option<seq<AssetObject>>)
}
