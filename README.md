# Image tool adapters of bee-image-agent, in Dafny

bee-image-agent connects a conversational agent to tools. This project models the
four image tools it defines. Each tool's `_run` becomes a pure function. Its inputs
are the tool's validated input and the upstream clients, which are passed in as
function values. Its result is a `ToolResult`: the output string, or the error the
tool throws, as a kind plus a message.

- `ImageViewer` (`src/tools/imageViewerTool.ts`): refuses an empty URL list. It
  title-cases the query summary by splitting on spaces, capitalising each word and
  joining again. It builds the gallery page with one grid item per URL. It answers
  with the address of the local listener.
- `FlickrSearch` (`src/tools/searchImageFlickr.ts`): builds the search arguments
  from the query and the optional count. It turns every photo into its static URL
  and joins the URLs with line breaks. Every failure is rewrapped as a
  `ToolInputValidationError`.
- `FlickrInfo` (`src/tools/getImageInfoFlickr.ts`): looks one photo up by id and
  builds the same URL template. Its "does not exist" guard is proved unreachable.
- `ImageDescription` (`src/tools/getImageDescription.ts`): picks the question
  (`??` default) and builds the two-part chat message. It checks the shape of the
  chat answer and returns the first choice's content. Every failure is rewrapped.

Shared pieces:
- `JsText` holds JavaScript's `split`/`join`, the template-literal text of a JSON
  value, and integer `toString` with an inverse reader.
- `ToolCore` holds the error and result types and the `catch` rewrapping.
- `FlickrApi` holds the Flickr request and response shapes.

Error handling, as the code has it:
- The image viewer throws a plain `Error` for an empty URL list, not an
  input-validation error.
- The search tool turns every failure into `ToolInputValidationError`, upstream
  ones included. No distinct upstream-error kind exists in the code.
- The info tool has no `catch`, so client errors reach the caller unchanged. Its
  only "no URL" check can never fire.

## Model

| member | source | states |
|---|---|---|
| JsText.Split | src/tools/imageViewerTool.ts:36 | `split(" ")` always gives at least one piece, and no piece contains the separator |
| JsText.JoinSplit | src/tools/imageViewerTool.ts:35-38 | joining the pieces of a split on the same separator gives back the original text |
| JsText.SplitJoin | src/tools/searchImageFlickr.ts:63 | splitting a join gives back the pieces when no piece contains the separator |
| JsText.JoinConcatAt | src/tools/imageViewerTool.ts:98-106 | in `join("")` each piece appears once, verbatim, after all earlier pieces and before all later ones |
| JsText.NatToDecimal | src/tools/searchImageFlickr.ts:48 | the decimal text of a number is non-empty, all digits, and starts with '0' exactly when the number is 0 |
| JsText.DecimalRoundTrip | src/tools/searchImageFlickr.ts:48 | reading back the decimal text of a natural number gives the number |
| JsText.IntToStringRoundTrip | src/tools/searchImageFlickr.ts:48 | `toString` of an integer reads back as the same integer, negative ones included |
| JsText.InterpolateNoNewline | src/tools/searchImageFlickr.ts:59 | numbers, `undefined` and `null` never interpolate to text holding a line break |
| ToolCore.Rewrap | src/tools/searchImageFlickr.ts:64-67 | a rewrapped error is a `ToolInputValidationError` whose message is the context, "(", the original message and ")" |
| ImageViewer.CapitalizeWord | src/tools/imageViewerTool.ts:37 | a word keeps its length; its first character is upper-cased and the rest lower-cased; an empty word stays empty |
| ImageViewer.CapitalizeWordIdempotent | src/tools/imageViewerTool.ts:37 | capitalising a capitalised word changes nothing |
| ImageViewer.CapitalizeWordLayout | src/tools/imageViewerTool.ts:37 | capitalising neither creates nor removes a space |
| ImageViewer.TitleCaseWords | src/tools/imageViewerTool.ts:35-38 | the title-cased summary has the same number of words as the summary, each one capitalised, in order |
| ImageViewer.TitleCaseLayout | src/tools/imageViewerTool.ts:35-38 | title-casing keeps the length and the position of every space |
| ImageViewer.TitleCaseIdempotent | src/tools/imageViewerTool.ts:35-38 | title-casing a title-cased summary changes nothing |
| ImageViewer.GridItemAt | src/tools/imageViewerTool.ts:98-106 | the grid holds each URL's item, URL unescaped, after the items of earlier URLs and before those of later ones |
| ImageViewer.GridLength | src/tools/imageViewerTool.ts:98-106 | the grid is exactly one fixed item frame per URL plus the URLs' own text |
| ImageViewer.PageShows | src/tools/imageViewerTool.ts:43-110 | the page carries the title as `<title>` and as `<h1>`, then the grid, at known offsets |
| ImageViewer.PortAddress | src/tools/imageViewerTool.ts:114-120 | port 3000 gives the address "http://localhost:3000" |
| ImageViewer.Run | src/tools/imageViewerTool.ts:27-121 | a missing or empty URL list, and only that, fails with the fixed "No image URLs" Error before a listener exists; otherwise the listener serves the page for the title-cased summary on port 3000 and the answer is "Server started at http://localhost:3000" |
| ImageViewer.RunAnswersWithListenerAddress | src/tools/imageViewerTool.ts:114-120 | on success the answer names the address of the port the listener is bound to, and the listener serves the page for the title-cased summary and the input URLs |
| FlickrSearch.Run | src/tools/searchImageFlickr.ts:41-68 | success exactly when the answer has a non-empty photo list; the output is the photos' URLs joined by line breaks; every failure is a `ToolInputValidationError` starting "Error searching Flickr: (" |
| FlickrSearch.NoResultsError | src/tools/searchImageFlickr.ts:51-55 | a missing `photos` or an empty photo list gives the rewrapped "No images found for query" message with the query and the answer's JSON |
| FlickrSearch.ClientErrorKept | src/tools/searchImageFlickr.ts:64-67 | a client error is rewrapped around its own message |
| FlickrSearch.PhotoUrlNoNewline | src/tools/searchImageFlickr.ts:59 | a photo URL holds no line break when no photo field holds one |
| FlickrSearch.OneLinePerPhoto | src/tools/searchImageFlickr.ts:58-63 | splitting the output on line breaks gives one URL per returned photo, in response order |
| FlickrSearch.RequestForwardsCount | src/tools/searchImageFlickr.ts:43-49 | the query is sent as `text`; `per_page` is absent exactly when `count` is, and otherwise reads back as `count` |
| FlickrSearch.SchemaPerPageIsPositive | src/tools/searchImageFlickr.ts:30-34 | under the input schema, `per_page` is a positive decimal number without leading zeros |
| FlickrSearch.CountOnlyForwarded | src/tools/searchImageFlickr.ts:46-63 | the result does not depend on `count` beyond what the client answers |
| FlickrSearch.SunsetScenario | src/tools/searchImageFlickr.ts:58-63 | two photos (farm 1, server 2, id 111, secret abc; farm 3, server 4, id 222, secret def) give their two URLs on two lines |
| FlickrInfo.Run | src/tools/getImageInfoFlickr.ts:40-53 | the client gets the input id as `photo_id`; success exactly when it answers with a photo, giving that photo's URL; otherwise the client's own error, or a TypeError for a missing `photo` |
| FlickrInfo.PhotoUrlShape | src/tools/getImageInfoFlickr.ts:46 | every URL starts with "https://farm" and ends with ".jpg", so it is never empty |
| FlickrInfo.NoSuchPhotoUnreachable | src/tools/getImageInfoFlickr.ts:48-50 | once the client has answered, the "does not exist" error is never thrown |
| FlickrInfo.SameUrlAsSearch | src/tools/getImageInfoFlickr.ts:46 | for the same photo record the URL is the one the search tool builds |
| ImageDescription.BuildRequest | src/tools/getImageDescription.ts:60-78 | one user turn with two parts: the image as "data:image/jpeg;base64," plus the encoded bytes, then the question; the default question only when none is given, so an empty question is sent as is |
| ImageDescription.ReadAnswer | src/tools/getImageDescription.ts:89-98 | the content is returned exactly when the answer has result, choices, and non-empty content in the first choice; otherwise the structure, first-choice or no-content error |
| ImageDescription.Run | src/tools/getImageDescription.ts:45-105 | success exactly when the fetch, the chat call and the answer checks succeed, with the first choice's content unchanged; every failure is a `ToolInputValidationError` starting "Error processing image with WatsonXAI: (" |
| ImageDescription.FetchFailureReported | src/tools/getImageDescription.ts:57-104 | a failed fetch is reported with its own message, and the result does not depend on the chat client |
| ImageDescription.ChatFailureReported | src/tools/getImageDescription.ts:81-104 | an error thrown by the chat call is rewrapped around its own description (`error.message || error`) |
| ImageDescription.AnswerFailureReported | src/tools/getImageDescription.ts:89-104 | each failed answer check is reported with its own message inside the rewrapped one |

## Left out

- Express and the browser: the `/` route, `app.listen` and `open` are represented only by the `Listener` value (port and page). Repeated calls binding the same port are not modelled.
- The page's stylesheet: its rules are abbreviated to an empty `style` element, because no stated behaviour depends on them. The markup around the title, heading and grid keeps the source's text.
- Upstream clients are given as function parameters and are not modelled: the Flickr SDK calls, the axios fetch, base64 encoding of the fetched bytes, and the WatsonX chat client. `JSON.stringify(res, null, 2)` is a field of the search answer.
- Input validation is not modelled beyond the search tool's schema predicate. This covers zod, the `url()` check on viewer URLs, and rejecting input before `_run`.
- ImageViewer.CapitalizeWord: case mapping covers ASCII letters only. Full Unicode `toUpperCase`/`toLowerCase`, which can change a word's length, is not modelled.
- JSON values that `JsValue` cannot hold are not modelled: booleans (`${true}` gives "true"), objects ("[object Object]") and arrays. Numbers are integers only, and their text is plain decimal, so non-integers and JavaScript's exponent form from 1e21 up are not modelled, both for the photo fields and for `count?.toString()` at `src/tools/searchImageFlickr.ts:48`.
- A `null` answer field is modelled only where the code tests for it. `InfoResponse.photo` = `None` stands for an absent `photo`; a `null` one would throw "Cannot read properties of null (reading 'farm')" instead. Likewise a `null` first choice of the chat answer would throw a TypeError that names `null`, which is not modelled.
- Building the WatsonX client (`WatsonXAI.newInstance`, inside the `try` before the fetch) is assumed to succeed, or is folded into `chat`. If it threw, for example for missing credentials, the code would report that error without fetching, and `FetchFailureReported`'s independence from the chat client would not hold.
- Thrown values are `Error` objects. A thrown non-`Error` value, whose text would replace the empty message, is not modelled.
- FlickrSearch.Run: a `photo` list that is not an array, and photo entries that are not objects, are not modelled. In the code, a missing or `null` `photo` list, or a `null`/`undefined` entry, throws a TypeError, which is rewrapped like any other error. Another non-array `photo` value (a number, or an object without `length`) gives the rewrapped "No images found" error or a TypeError. A number, string or boolean entry does not throw: every field reads as `undefined`, so its line is "https://farmundefined.staticflickr.com/undefined/undefined_undefined.jpg".
- Process configuration is not modelled: environment-variable checks at module load, WatsonX project and space ids, the service version and URL.
- Framework plumbing is not modelled: emitters, `register()`, `console` logging, and the wrapping of tool errors by the agent framework.
- The interactive session loop in `src/agent.ts` has no logic of its own and is not modelled.
