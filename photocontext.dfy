/**
 * The photo context of src/utils/photo.context.js: a list of temporary images
 * that its provider replaces on `addPhoto` and `clearPhotos`.
 */
module PhotoContext {

  class Provider<Photo> {
    var tempImages: seq<Photo>

    constructor ()
      ensures tempImages == []
    {
      tempImages := [];
    }

    /** One more image at the end, the others as they were. */
    method AddPhoto(photo: Photo)
      modifies this
      ensures |tempImages| == |old(tempImages)| + 1
      ensures tempImages[..|old(tempImages)|] == old(tempImages)
      ensures tempImages[|old(tempImages)|] == photo
    {
      tempImages := tempImages + [photo];
    }

    /** Back to the empty list, whatever it held (so a second call changes nothing). */
    method ClearPhotos()
      modifies this
      ensures tempImages == []
    {
      tempImages := [];
    }
  }
}
