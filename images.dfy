/** The browser store that keeps the uploaded proof images, keyed by image id. */
module ImageStorage {
  import opened Wrappers
  import opened Models

  class ImageStore {
    var images: map<Id, ImageFile>

    constructor()
      ensures images == map[]
    {
      images := map[];
    }

    /** `saveImage(id, blob)`: stores the file under `id`, replacing any file there. */
    method SaveImage(id: Id, file: ImageFile)
      modifies this
      ensures images == old(images)[id := file]
    {
      images := images[id := file];
    }

    /** `deleteImage(id)`: no file is kept under `id` afterwards. */
    method DeleteImage(id: Id)
      modifies this
      ensures images == old(images) - {id}
    {
      images := images - {id};
    }

    /** `getImage(id)`. */
    function GetImage(id: Id): (r: Option<ImageFile>)
      reads this
      ensures r.Some? <==> id in images
      ensures r.Some? ==> r.value == images[id]
    {
      if id in images then Some(images[id]) else None
    }
  }
}
