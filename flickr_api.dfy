/** The parts of the Flickr REST API that the two Flickr tools send and read.
    Responses are untyped JSON in the source, so each photo field is a `JsValue`. */
module FlickrApi {
  import opened JsText

  /** A photo record as returned by `flickr.photos.search` and `flickr.photos.getInfo`. */
  datatype Photo = Photo(farm: JsValue, server: JsValue, id: JsValue, secret: JsValue)

  /** Arguments of `flickr.photos.search`: `text`, and `per_page` (absent when `undefined`). */
  datatype SearchParams = SearchParams(text: string, perPage: Option<string>)

  /** `res.photos.photo` of a search answer, with `json` standing for
      `JSON.stringify(res, null, 2)` of the whole answer. */
  datatype SearchResponse = SearchResponse(photos: Option<PhotoPage>, json: string)

  datatype PhotoPage = PhotoPage(photo: seq<Photo>)

  /** Arguments of `flickr.photos.getInfo`. */
  datatype InfoParams = InfoParams(photoId: string)

  /** `res.photo` of a `getInfo` answer. */
  datatype InfoResponse = InfoResponse(photo: Option<Photo>)

  /** No field of the photo interpolates to a text holding a line break. */
  predicate NoNewlineFields(p: Photo) {
    (p.farm.Str? ==> '\n' !in p.farm.s) && (p.server.Str? ==> '\n' !in p.server.s)
    && (p.id.Str? ==> '\n' !in p.id.s) && (p.secret.Str? ==> '\n' !in p.secret.s)
  }
}
