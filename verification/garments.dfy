/**
 * The garment catalogue and the pure helpers over the two pieces of selection state:
 * the selected catalogue index and the custom (uploaded or dropped) garment.
 */
module Garments {
  import opened Wrappers
  import opened Strings

  /** A browser `File`, reduced to what the core looks at. */
  datatype File = File(name: string, mimeType: string)

  /** A user-supplied image: the file and the object URL created for its preview. */
  datatype Upload = Upload(url: string, file: File)

  datatype Garment = Garment(id: nat, image: Option<string>, name: string)

  /** The bundled catalogue: two jackets with images, three placeholders without. */
  const Catalog: seq<Garment> := [
    Garment(0, Some("assets/bddfcd46dbf62dc5c5cd88c84ada367e2fd843b0.png"), "Floral Jacket"),
    Garment(1, Some("assets/fdf2a845d078f4104ac8213fc61e021f3917da5c.png"), "Puffer Jacket"),
    Garment(2, None, "Coming Soon"),
    Garment(3, None, "Coming Soon"),
    Garment(4, None, "Coming Soon")
  ]

  /** Each card's id is its position in the catalogue. */
  lemma CatalogIdsAreIndices()
    ensures forall i :: 0 <= i < |Catalog| ==> Catalog[i].id == i
  {
  }

  /** JavaScript `GARMENTS[i]?.image`: undefined off the end, null for a placeholder card. */
  datatype Lookup = Undefined | NullImage | ImageUrl(url: string)

  function CatalogImage(i: int): (r: Lookup)
    ensures r.ImageUrl? <==> 0 <= i < |Catalog| && Catalog[i].image.Some?
    ensures r.Undefined? <==> !(0 <= i < |Catalog|)
    ensures r.ImageUrl? ==> r.url == Catalog[i].image.value
  {
    if 0 <= i < |Catalog| then
      match Catalog[i].image
      case Some(u) => ImageUrl(u)
      case None => NullImage
    else Undefined
  }

  /** A file the upload and drop handlers accept: its type starts with "image/". */
  predicate IsImageFile(f: File): (b: bool)
    ensures b <==> |f.mimeType| >= 6 && f.mimeType == "image/" + f.mimeType[6..]
  {
    StartsWith(f.mimeType, "image/")
  }

  /**
   * `hasGarment`: a custom garment is set, or the selected entry's image is not `null`.
   * (An index off the end reads `undefined`, which is not `null`, so it would count.)
   */
  predicate HasGarment(custom: Option<Upload>, selected: Option<int>): (b: bool)
    ensures b <==> custom.Some? || (selected.Some? &&
                     !(0 <= selected.value < |Catalog| && Catalog[selected.value].image.None?))
  {
    custom.Some? || (selected.Some? && !CatalogImage(selected.value).NullImage?)
  }

  /** What `getGarmentFile` fetches or returns: the custom file, else the selected card's asset. */
  datatype GarmentRef = CustomFile(file: File) | CatalogAsset(url: string)

  function GarmentChoice(custom: Option<Upload>, selected: Option<int>): (r: Option<GarmentRef>)
    ensures custom.Some? ==> r == Some(CustomFile(custom.value.file))
    ensures custom.None? ==> (r.Some? <==> selected.Some? && CatalogImage(selected.value).ImageUrl?)
    ensures custom.None? && r.Some? ==> r.value == CatalogAsset(Catalog[selected.value].image.value)
  {
    if custom.Some? then Some(CustomFile(custom.value.file))
    else if selected.Some? && CatalogImage(selected.value).ImageUrl? then
      Some(CatalogAsset(CatalogImage(selected.value).url))
    else None
  }

  /**
   * The selection states the handlers can reach: never both a custom garment and a
   * catalogue card, and a selected card is one that has an image.
   */
  predicate SelectionValid(custom: Option<Upload>, selected: Option<int>) {
    && !(custom.Some? && selected.Some?)
    && (selected.Some? ==> CatalogImage(selected.value).ImageUrl?)
  }

  /**
   * In every reachable selection state the "Image Mode" badge (`hasGarment`) is shown
   * exactly when `getGarmentFile` yields a file.
   */
  lemma HasGarmentIffFile(custom: Option<Upload>, selected: Option<int>)
    requires SelectionValid(custom, selected)
    ensures HasGarment(custom, selected) <==> GarmentChoice(custom, selected).Some?
  {
  }

  /** Outside the reachable states the two disagree: an index off the end counts as a garment. */
  lemma OffTheEndIndexDisagrees()
    ensures HasGarment(None, Some(|Catalog|)) && GarmentChoice(None, Some(|Catalog|)).None?
  {
  }
}
