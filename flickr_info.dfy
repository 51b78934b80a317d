/** The Flickr photo-info tool: looks a photo up by id and answers with its static
    image URL. Unlike the search tool it has no `try`/`catch`: what the client throws
    reaches the caller unchanged. */
module FlickrInfo {
  import opened JsText
  import opened ToolCore
  import opened FlickrApi
  import FlickrSearch

  datatype InfoInput = InfoInput(id: string)

  /** The lookup arguments: the input `id` as `photo_id`. */
  function Request(input: InfoInput): InfoParams {
    InfoParams(input.id)
  }

  /** The URL template, written out again in this tool. */
  function PhotoUrl(p: Photo): string {
    "https://farm" + Interpolate(p.farm) + ".staticflickr.com/" + Interpolate(p.server)
      + "/" + Interpolate(p.id) + "_" + Interpolate(p.secret) + ".jpg"
  }

  /** Reading `photoInfo.farm` when the answer has no `photo`. */
  const MissingPhotoError := Failure(TypeError, "Cannot read properties of undefined (reading 'farm')")

  function NoSuchPhotoMessage(url: string): string {
    "Riddle with such index (" + url + ") does not exist!"
  }

  /** `_run`, with the Flickr client given as `getInfo`. */
  function Run(input: InfoInput, getInfo: InfoParams -> Outcome<InfoResponse>): (r: ToolResult)
    ensures var answer := getInfo(InfoParams(input.id));
      r.Ok? <==> answer.Ok? && answer.value.photo.Some?
    ensures var answer := getInfo(InfoParams(input.id));
      r.Ok? ==> r.value == PhotoUrl(answer.value.photo.value)
    ensures var answer := getInfo(InfoParams(input.id));
      r.Threw? ==> r.error == (if answer.Threw? then answer.error else MissingPhotoError)
  {
    match getInfo(Request(input))
    case Threw(e) => Threw(e)
    case Ok(res) =>
      if res.photo.None? then Threw(MissingPhotoError)
      else
        var imageUrl := PhotoUrl(res.photo.value);
        if imageUrl == "" then Threw(Failure(ToolInputValidationError, NoSuchPhotoMessage(imageUrl)))
        else Ok(imageUrl)
  }

  /** Every URL the template builds starts with "https://farm" and ends with ".jpg",
      so it is never empty. */
  lemma PhotoUrlShape(p: Photo)
    ensures StartsWith(PhotoUrl(p), "https://farm") && EndsWith(PhotoUrl(p), ".jpg")
    ensures |PhotoUrl(p)| >= |"https://farm.staticflickr.com/_.jpg"|
  {
  }

  /** The "does not exist" branch never fires: once the client has answered, the tool
      never throws the `ToolInputValidationError` that branch would throw, whatever
      URL it would name. */
  lemma NoSuchPhotoUnreachable(input: InfoInput, getInfo: InfoParams -> Outcome<InfoResponse>)
    requires getInfo(InfoParams(input.id)).Ok?
    ensures forall url :: Run(input, getInfo) != Threw(Failure(ToolInputValidationError, NoSuchPhotoMessage(url)))
  {
  }

  /** For the same photo record this tool builds the same URL as the search tool. */
  lemma SameUrlAsSearch(p: Photo)
    ensures PhotoUrl(p) == FlickrSearch.PhotoUrl(p)
  {
  }
}
