/** The Flickr search tool: searches photos by text and answers with one static image
    URL per photo found, one per line. */
module FlickrSearch {
  import opened JsText
  import opened ToolCore
  import opened FlickrApi

  datatype SearchInput = SearchInput(query: string, count: Option<int>)

  /** The tool's input schema: a non-empty `query`, and `count`, when given, an
      integer of at least 1. */
  predicate InputSchema(input: SearchInput) {
    |input.query| >= 1 && (input.count.Some? ==> input.count.value >= 1)
  }

  /** The search arguments: the query as `text`, and `count?.toString()` as `per_page`. */
  function Request(input: SearchInput): SearchParams {
    SearchParams(input.query, match input.count
      case None => None
      case Some(c) => Some(IntToString(c)))
  }

  /** The static image URL template `https://farm{farm}.staticflickr.com/{server}/{id}_{secret}.jpg`. */
  function PhotoUrl(p: Photo): string {
    "https://farm" + Interpolate(p.farm) + ".staticflickr.com/" + Interpolate(p.server)
      + "/" + Interpolate(p.id) + "_" + Interpolate(p.secret) + ".jpg"
  }

  function PhotoUrls(photos: seq<Photo>): (r: seq<string>)
    ensures |r| == |photos|
  {
    seq(|photos|, i requires 0 <= i < |photos| => PhotoUrl(photos[i]))
  }

  const ErrorContext := "Error searching Flickr: "

  function NoImagesMessage(query: string, json: string): string {
    "No images found for query: \"" + query + "\". Response object was: (" + json + ")"
  }

  /** The answer has a `photos` field whose `photo` list is not empty. */
  predicate HasPhotos(res: SearchResponse) {
    res.photos.Some? && |res.photos.value.photo| > 0
  }

  /** The `try` block once the search call has answered or thrown. */
  function Search(query: string, answer: Outcome<SearchResponse>): Outcome<string> {
    match answer
    case Threw(e) => Threw(e)
    case Ok(res) =>
      if !HasPhotos(res) then Threw(Failure(ToolInputValidationError, NoImagesMessage(query, res.json)))
      else Ok(Join(PhotoUrls(res.photos.value.photo), "\n"))
  }

  /** `_run`, with the Flickr client given as `search`: the newline-joined URLs of the
      photos found, or, for any failure, a `ToolInputValidationError` whose message
      starts "Error searching Flickr: (". */
  function Run(input: SearchInput, search: SearchParams -> Outcome<SearchResponse>): (r: ToolResult)
    ensures var answer := search(Request(input));
      r.Ok? <==> answer.Ok? && HasPhotos(answer.value)
    ensures var answer := search(Request(input));
      r.Ok? ==> r.value == Join(PhotoUrls(answer.value.photos.value.photo), "\n")
    ensures r.Threw? ==>
      r.error.kind == ToolInputValidationError && StartsWith(r.error.message, "Error searching Flickr: (")
  {
    match Search(input.query, search(Request(input)))
    case Ok(text) => Ok(text)
    case Threw(e) => Threw(Rewrap(ErrorContext, e))
  }

  /** A missing `photos` field or an empty photo list is reported, after rewrapping,
      as "No images found for query" with the query and the answer's JSON. */
  lemma NoResultsError(input: SearchInput, search: SearchParams -> Outcome<SearchResponse>)
    requires search(Request(input)).Ok? && !HasPhotos(search(Request(input)).value)
    ensures Run(input, search) == Threw(Failure(ToolInputValidationError,
      "Error searching Flickr: (" + NoImagesMessage(input.query, search(Request(input)).value.json) + ")"))
  {
  }

  /** An error thrown by the client keeps its message inside the rewrapped one. */
  lemma ClientErrorKept(input: SearchInput, search: SearchParams -> Outcome<SearchResponse>)
    requires search(Request(input)).Threw?
    ensures Run(input, search) ==
      Threw(Failure(ToolInputValidationError, "Error searching Flickr: (" + Describe(search(Request(input)).error) + ")"))
  {
  }

  lemma PhotoUrlNoNewline(p: Photo)
    requires NoNewlineFields(p)
    ensures '\n' !in PhotoUrl(p)
  {
  }

  /** Splitting the answer on line breaks gives back one URL per photo, in the order
      of the response, when no photo field holds a line break. The number of lines
      is the number of photos returned, whatever `count` asked for. */
  lemma OneLinePerPhoto(input: SearchInput, search: SearchParams -> Outcome<SearchResponse>)
    requires search(Request(input)).Ok? && HasPhotos(search(Request(input)).value)
    requires forall p :: p in search(Request(input)).value.photos.value.photo ==> NoNewlineFields(p)
    ensures var photos := search(Request(input)).value.photos.value.photo;
      Run(input, search).Ok? && Split(Run(input, search).value, '\n') == PhotoUrls(photos)
      && |Split(Run(input, search).value, '\n')| == |photos|
  {
    var photos := search(Request(input)).value.photos.value.photo;
    var urls := PhotoUrls(photos);
    forall k | 0 <= k < |urls| ensures '\n' !in urls[k] {
      assert photos[k] in photos;
      PhotoUrlNoNewline(photos[k]);
    }
    SplitJoin(urls, '\n');
    assert "\n" == ['\n'];
  }

  /** The query is sent as it is; `count` is only forwarded as the `per_page` text,
      absent when `count` is, and that text reads back as `count`. */
  lemma RequestForwardsCount(input: SearchInput)
    ensures Request(input).text == input.query
    ensures Request(input).perPage.None? <==> input.count.None?
    ensures input.count.Some? ==> ParseInt(Request(input).perPage.value) == Some(input.count.value)
  {
    if input.count.Some? {
      IntToStringRoundTrip(input.count.value);
    }
  }

  /** Under the input schema, `per_page` is a plain positive decimal number. */
  lemma SchemaPerPageIsPositive(input: SearchInput)
    requires InputSchema(input) && input.count.Some?
    ensures var pp := Request(input).perPage.value;
      AllDigits(pp) && pp[0] != '0'
  {
  }

  /** The tool never truncates or checks the answer against `count`: two calls that
      differ only in `count` and get the same answer give the same result. */
  lemma CountOnlyForwarded(query: string, c1: Option<int>, c2: Option<int>,
                           search: SearchParams -> Outcome<SearchResponse>)
    requires search(Request(SearchInput(query, c1))) == search(Request(SearchInput(query, c2)))
    ensures Run(SearchInput(query, c1), search) == Run(SearchInput(query, c2), search)
  {
  }

  lemma ScenarioFirstUrl()
    ensures PhotoUrl(Photo(Num(1), Num(2), Str("111"), Str("abc"))) == "https://farm1.staticflickr.com/2/111_abc.jpg"
  {
  }

  lemma ScenarioSecondUrl()
    ensures PhotoUrl(Photo(Num(3), Num(4), Str("222"), Str("def"))) == "https://farm3.staticflickr.com/4/222_def.jpg"
  {
  }

  /** The query "sunset" with count 2, answered with two photos, gives their two URLs
      on two lines. */
  lemma SunsetScenario(search: SearchParams -> Outcome<SearchResponse>, json: string)
    requires search(SearchParams("sunset", Some("2"))) == Ok(SearchResponse(Some(PhotoPage(
      [Photo(Num(1), Num(2), Str("111"), Str("abc")), Photo(Num(3), Num(4), Str("222"), Str("def"))])), json))
    ensures Run(SearchInput("sunset", Some(2)), search)
      == Ok("https://farm1.staticflickr.com/2/111_abc.jpg" + "\n" + "https://farm3.staticflickr.com/4/222_def.jpg")
  {
    assert IntToString(2) == "2";
    ScenarioFirstUrl();
    ScenarioSecondUrl();
    var u1 := "https://farm1.staticflickr.com/2/111_abc.jpg";
    var u2 := "https://farm3.staticflickr.com/4/222_def.jpg";
    var input := SearchInput("sunset", Some(2));
    assert Request(input) == SearchParams("sunset", Some("2"));
    var photos := [Photo(Num(1), Num(2), Str("111"), Str("abc")), Photo(Num(3), Num(4), Str("222"), Str("def"))];
    assert PhotoUrls(photos) == [u1, u2];
    assert [u1, u2][1..] == [u2];
    assert Join([u1, u2], "\n") == u1 + "\n" + u2;
    assert Run(input, search) == Ok(u1 + "\n" + u2);
  }
}
