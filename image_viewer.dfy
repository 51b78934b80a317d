/** The image viewer tool: given image URLs and a summary of the query, it serves a
    gallery page on a local port and answers with the address. The model gives the
    page the route would send and the tool's answer; the HTTP listener and the
    browser it opens are represented only by the `Listener` value. */
module ImageViewer {
  import opened JsText
  import opened ToolCore

  datatype ViewerInput = ViewerInput(urls: Option<seq<string>>, querySummary: string)

  /** The listener the tool starts: its port and the page its `/` route sends. */
  datatype Listener = Listener(port: nat, page: string)

  datatype ViewerOutcome = ViewerOutcome(result: ToolResult, listener: Option<Listener>)

  const NoUrlsMessage := "No image URLs provided to the Image Viewer Tool."
  const Port: nat := 3000

  // ---------------------------------------------------------------------------
  // title-casing the summary (ASCII letters only)

  function Upper(c: char): char {
    if 'a' <= c <= 'z' then (c as int - 32) as char else c
  }

  function Lower(c: char): char {
    if 'A' <= c <= 'Z' then (c as int + 32) as char else c
  }

  function LowerAll(s: string): (r: string)
    ensures |r| == |s|
  {
    seq(|s|, i requires 0 <= i < |s| => Lower(s[i]))
  }

  /** `word.charAt(0).toUpperCase() + word.slice(1).toLowerCase()`. */
  function CapitalizeWord(w: string): (r: string)
    ensures |r| == |w|
    ensures w == "" ==> r == ""
    ensures w != "" ==> r[0] == Upper(w[0])
    ensures forall i :: 0 < i < |w| ==> r[i] == Lower(w[i])
  {
    if w == "" then "" else [Upper(w[0])] + LowerAll(w[1..])
  }

  function CapitalizeAll(ws: seq<string>): (r: seq<string>)
    ensures |r| == |ws|
  {
    seq(|ws|, i requires 0 <= i < |ws| => CapitalizeWord(ws[i]))
  }

  /** `querySummary.split(" ").map(CapitalizeWord).join(" ")`. */
  function TitleCase(s: string): string {
    Join(CapitalizeAll(Split(s, ' ')), " ")
  }

  /** Case changes never create or remove a space. */
  lemma CapitalizeWordLayout(w: string)
    ensures SameLayout(CapitalizeWord(w), w, ' ')
  {
  }

  /** A capitalised word is left as it is by capitalising it again. */
  lemma CapitalizeWordIdempotent(w: string)
    ensures CapitalizeWord(CapitalizeWord(w)) == CapitalizeWord(w)
  {
  }

  /** Title-casing keeps the words: splitting its result on spaces gives the same
      number of words as the input, each one capitalised, in the same order. */
  lemma TitleCaseWords(s: string)
    ensures Split(TitleCase(s), ' ') == CapitalizeAll(Split(s, ' '))
  {
    var caps := CapitalizeAll(Split(s, ' '));
    forall k | 0 <= k < |caps| ensures ' ' !in caps[k] {
      CapitalizeWordLayout(Split(s, ' ')[k]);
      assert ' ' !in Split(s, ' ')[k];
    }
    SplitJoin(caps, ' ');
  }

  /** Title-casing keeps the length of the summary and the position of every space. */
  lemma TitleCaseLayout(s: string)
    ensures |TitleCase(s)| == |s|
    ensures forall i :: 0 <= i < |s| ==> (TitleCase(s)[i] == ' ' <==> s[i] == ' ')
  {
    var words := Split(s, ' ');
    var caps := CapitalizeAll(words);
    forall k | 0 <= k < |caps| ensures SameLayout(caps[k], words[k], ' ') {
      CapitalizeWordLayout(words[k]);
    }
    JoinSameLayout(caps, words, ' ');
    JoinSplit(s, ' ');
  }

  /** Title-casing an already title-cased summary changes nothing. */
  lemma TitleCaseIdempotent(s: string)
    ensures TitleCase(TitleCase(s)) == TitleCase(s)
  {
    var caps := CapitalizeAll(Split(s, ' '));
    TitleCaseWords(s);
    forall k | 0 <= k < |caps| ensures CapitalizeWord(caps[k]) == caps[k] {
      CapitalizeWordIdempotent(Split(s, ' ')[k]);
    }
    assert CapitalizeAll(caps) == caps;
  }

  // ---------------------------------------------------------------------------
  // the gallery page

  /** The text of one grid item before and after the URL it shows. */
  const ItemHead := "\n                <div class=\"grid-item\">\n                  <img src=\""
  const ItemTail := "\" alt=\"Image\">\n                </div>\n              "

  /** One `grid-item` block; the URL is inserted as it is, without escaping. */
  function GridItem(url: string): string {
    ItemHead + url + ItemTail
  }

  function GridItems(urls: seq<string>): (r: seq<string>)
    ensures |r| == |urls|
  {
    seq(|urls|, i requires 0 <= i < |urls| => GridItem(urls[i]))
  }

  /** `urls.map(GridItem).join("")`. */
  function Grid(urls: seq<string>): string {
    Join(GridItems(urls), "")
  }

  function TotalLength(urls: seq<string>): nat
    decreases |urls|
  {
    if urls == [] then 0 else |urls[0]| + TotalLength(urls[1..])
  }

  /** The k-th URL's grid item sits between the items of the URLs before it and those
      after it: one item per URL, in input order, each URL verbatim. */
  lemma GridItemAt(urls: seq<string>, k: nat)
    requires k < |urls|
    ensures Grid(urls) == Grid(urls[..k]) + GridItem(urls[k]) + Grid(urls[k + 1..])
  {
    var items := GridItems(urls);
    JoinConcatAt(items, k);
    assert items[..k] == GridItems(urls[..k]);
    assert items[k + 1..] == GridItems(urls[k + 1..]);
  }

  /** The grid is the URLs' own text plus one fixed frame per URL, nothing more. */
  lemma {:induction false} GridLength(urls: seq<string>)
    ensures |Grid(urls)| == |urls| * (|ItemHead| + |ItemTail|) + TotalLength(urls)
    decreases |urls|
  {
    if urls != [] {
      GridItemAt(urls, 0);
      assert urls[..0] == [];
      GridLength(urls[1..]);
    }
  }

  const PageOpen := "\n        <!DOCTYPE html>\n        <html lang=\"en\">\n          <head>\n            <meta charset=\"UTF-8\">\n            <meta name=\"viewport\" content=\"width=device-width, initial-scale=1.0\">\n            "
  /** The page text from the end of the title to the heading; the stylesheet's rules
      are abbreviated to an empty `style` element. */
  const HeadClose := "\n            <style></style>\n          </head>\n          <body>\n            "
  const GridOpen := "\n            <div class=\"grid-container\">\n              "
  const PageClose := "\n            </div>\n          </body>\n        </html>\n      "

  function TitleElement(title: string): string {
    "<title>" + title + "</title>"
  }

  function HeadingElement(title: string): string {
    "<h1>" + title + "</h1>"
  }

  /** The HTML the `/` route sends. */
  function Page(title: string, urls: seq<string>): string {
    PageOpen + TitleElement(title) + HeadClose + HeadingElement(title) + GridOpen + Grid(urls) + PageClose
  }

  predicate Occurs(needle: string, hay: string, at: nat) {
    at + |needle| <= |hay| && hay[at..at + |needle|] == needle
  }

  /** The page shows the title as its `<title>` and as its `<h1>`, then the grid, in
      that order. */
  lemma PageShows(title: string, urls: seq<string>)
    ensures var p := Page(title, urls);
      var t := |PageOpen|;
      var h := t + |TitleElement(title)| + |HeadClose|;
      var g := h + |HeadingElement(title)| + |GridOpen|;
      Occurs(TitleElement(title), p, t) && Occurs(HeadingElement(title), p, h) && Occurs(Grid(urls), p, g)
  {
  }

  // ---------------------------------------------------------------------------
  // the tool

  function Address(port: nat): string {
    "http://localhost:" + NatToDecimal(port)
  }

  /** The template `${PORT}` renders the port number 3000 as "3000". */
  lemma PortAddress()
    ensures Address(Port) == "http://localhost:3000"
  {
  }

  /** `_run`: refuses a missing or empty URL list before anything is started;
      otherwise starts the listener on port 3000 with the page for the title-cased
      summary and the URLs, and answers with the address. */
  function Run(input: ViewerInput): (o: ViewerOutcome)
    ensures o.result.Threw? <==> input.urls.None? || input.urls.value == []
    ensures o.result.Threw? ==> o.result.error == Failure(Error, NoUrlsMessage) && o.listener.None?
    ensures o.result.Ok? ==>
      o.listener == Some(Listener(3000, Page(TitleCase(input.querySummary), input.urls.value)))
    ensures o.result.Ok? ==> o.result.value == "Server started at http://localhost:3000"
  {
    if input.urls.None? || |input.urls.value| == 0 then
      ViewerOutcome(Threw(Failure(Error, NoUrlsMessage)), None)
    else
      var page := Page(TitleCase(input.querySummary), input.urls.value);
      PortAddress();
      ViewerOutcome(Ok("Server started at " + Address(Port)), Some(Listener(Port, page)))
  }

  /** The answer names the address the listener is bound to, and the listener serves
      the page for the title-cased summary and the input URLs (which holds one grid
      item per URL, by GridItemAt and GridLength). */
  lemma RunAnswersWithListenerAddress(input: ViewerInput)
    requires input.urls.Some? && input.urls.value != []
    ensures var o := Run(input);
      o.result.Ok? && o.listener.Some? &&
      o.result.value == "Server started at " + Address(o.listener.value.port)
    ensures var o := Run(input);
      o.listener.Some? && o.listener.value.page == Page(TitleCase(input.querySummary), input.urls.value)
  {
  }
}
