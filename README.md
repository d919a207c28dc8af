# BlindShutter, modelled in Dafny

BlindShutter is a camera app. The user takes a photo, and the server asks a vision model to
describe it. The server then asks an image model to paint a picture from that description,
stores one record holding the photo, the description and the picture's URL, and returns the
record. The client checks and formats the photo before sending it, and it turns failures into
toasts. A gallery asks the list handler for the stored records, newest first. As the repository
is wired, that handler reads a store of its own that no handler writes (see "## Findings").

This project models that core:

- **`Storage`** (`storage.dfy`): the in-memory image store, `MemStorage`. It is a class whose
  counter and map are updated in place by `CreateImage`, and `GetAllImages` is specified by a
  stable sort. The repository has seven textual copies of this class:
  - `api/storage.ts:14-49`
  - `api/storage.js:6-33`
  - `server/storage.ts:13-43`, which has no `getAllImages`
  - `api/images.ts:25-60`
  - `api/images.js:24-51`
  - `api/process-image.ts:126-161`
  - `api/process-image.js:111-138`

  They are identical apart from type annotations, so one class models all of them.
- **`ProcessImage`** (`process_image.dfy`): the process-image handler. `Decide` is its
  specification function and `HandleProcessImage` is the step-by-step method proved against
  it. The three copies of the handler differ in:
  - the models they call;
  - the instruction text;
  - the prompt template;
  - the catch block.

  `Config` captures those differences, and the constants `ApiTs`, `ApiJs` and `ServerRoutes`
  instantiate it.
- **`ErrorClassifier`** (`error_classifier.dfy`): the catch blocks. These are the five-condition
  chain of the `api/` handlers and the two-condition chain of `server/routes.ts`. Both are proved
  equal to a first-match reading of a rule table (`Priority`, `priority.dfy`).
- **`ImagesApi`** (`images_api.dfy`): the two list handlers.
- **`ClientOpenAI`** (`client_openai.dfy`): the client helpers `validateImageData`,
  `formatImageData`, `formatOpenAIError` and the URL of `formatOpenAIResponse`.
- **`HomePage`** (`home_page.dfy`): the capture page. It covers:
  - the mutation gate;
  - the success and error callbacks, with the error-to-toast chain;
  - `handleCapture` and `handleReset`, over a `Home` class holding the page state.
- **`Interop`** (`interop.dfy`): the photo URL the server builds, related to the client's own
  check and formatter.
- **`JsValues`** and **`Schema`** hold the JavaScript notions the code relies on:
  - missing/`null`/present properties;
  - truthiness, `??` and `||`;
  - `startsWith` and `includes`;
  - the record and response shapes of `shared/schema.ts`.

How outside effects are handled:

- The OpenAI calls become inputs: what each call answered, or the error it threw.
- The requests the handler sends are returned as a trace.
- The clock reading is a parameter.

## Model

| member | source | states |
|---|---|---|
| JsValues.OrNull | api/storage.ts:33-35 | definition of `?? null`: a missing or null property becomes null, a present one is kept, `""` included |
| JsValues.OrElse | client/src/lib/openai.ts:19-25 | definition of `\|\|` on a string: a falsy value, `""` included, gives way to the default |
| JsValues.StartsWith | client/src/lib/openai.ts:74 | definition of `startsWith`: the string begins with the prefix |
| JsValues.Contains | client/src/pages/home.tsx:52-62 | definition of `includes`: the phrase occurs at some position |
| JsValues.CoalesceKeepsEmptyString | api/storage.ts:33-35 | among present values, `\|\|` replaces exactly the empty string, which `?? null` keeps |
| Priority.FirstMatchPicksEarliest | api/process-image.ts:76-105 | in a rule table, the first rule that matches decides, whatever later rules say |
| Priority.FirstMatchFallsThrough | api/process-image.ts:107-109 | when no rule matches, the fallback is the result |
| Storage.InsertNewestFirst | api/storage.ts:46-47 | inserting one record yields a permutation of the input plus that record |
| Storage.InsertKeepsOrder | api/storage.ts:46-47 | inserting into a list sorted by descending id keeps it sorted |
| Storage.InsertKeepsStrictOrder | api/storage.ts:46-47 | inserting a record with a fresh id into a strictly descending list keeps it strictly descending |
| Storage.SortNewestFirst | api/storage.ts:46-47 | the sort is a permutation of its input (same multiset, same length) |
| Storage.SortIsOrdered | api/storage.ts:46-47 | the sort's output is ordered by descending id |
| Storage.SortIsStrict | api/storage.ts:46-47 | with distinct ids, the sort's output is strictly descending |
| Storage.MemStorage.Valid | api/storage.ts:14-39 | definition of the store invariant: the keys are exactly the ids 1 .. counter-1, each record stored under its own id |
| Storage.NumberedSize | api/storage.ts:29-37 | a store whose keys are exactly the ids 1 .. n-1 holds n - 1 records |
| Storage.InsertionOrder | api/storage.ts:46 | `Array.from(images.values())`: one entry per stored record, and a record is listed exactly when it is one of the map's values (the order is an assumption, see below) |
| Storage.SortedListingIsStored | api/storage.ts:45-48 | every listed record is the one stored under its own id |
| Storage.StoreIsListed | api/storage.ts:45-48 | every stored record appears in the listing |
| Storage.NewestIsFirst | api/storage.ts:45-48 | in a non-empty listing, the head is the most recently created record |
| Storage.NewestFirst | api/storage.ts:45-48 | the listing has one entry per create, holds each stored record exactly once, is strictly newest first, and starts with the newest |
| Storage.MemStorage.constructor | api/storage.ts:18-21 | a fresh store is empty, with the counter at 1 |
| Storage.MemStorage.CreateImage | api/storage.ts:23-39 | returns the old counter as id and bumps the counter by one; the id was unused; the record is stored under it and every other entry is unchanged; the photo is copied; each missing or null optional field becomes null and a present one is kept; the store invariant is preserved |
| Storage.MemStorage.GetImage | api/storage.ts:41-43 | finds a record exactly for the ids handed out so far; the record found carries the id asked for |
| Storage.MemStorage.GetAllImages | api/storage.ts:45-48 | every stored record exactly once, strictly newest first, one per create, the latest at the head |
| ErrorClassifier.Classify | api/process-image.ts:72-110 | the status is always 402, 429 or 500; the generic 500 comes exactly when none of the five conditions holds; 429 exactly for a rate limit that is not a quota error |
| ErrorClassifier.ClassifyReduced | server/routes.ts:69-88 | only the quota, rate-limit and generic responses occur; a 402 quota response exactly for a quota error |
| ErrorClassifier.ClassifyIsFirstMatch | api/process-image.js:65-103 | the five-condition chain is the first-match reading of its rule table |
| ErrorClassifier.ClassifyReducedIsFirstMatch | server/routes.ts:73-87 | the two-condition chain is the first-match reading of the first two rules |
| ErrorClassifier.ReducedAgreesOnSharedRules | server/routes.ts:73-87 | the reduced chain agrees with the full one on quota and rate-limit errors; every other error, billing and missing model included, becomes the generic 500 |
| ErrorClassifier.RateLimitOutranksBilling | api/process-image.ts:82-92 | a 429 error whose code is the billing limit is reported as a rate limit |
| ErrorClassifier.PlainErrorIsUnknown | api/process-image.ts:43-45 | an error the handler throws itself is reported as the generic failure by both chains |
| ProcessImage.GenerationPrompt | api/process-image.ts:52 | definition: the variant's prompt prefix, the description, then the suffix |
| ProcessImage.DataUrl | api/process-image.ts:35 | the vision URL starts with the JPEG data-URL prefix and the photo follows it unchanged |
| ProcessImage.VisionRequest | api/process-image.ts:22-40 | definition: the vision call with the variant's model and instruction, the data URL and at most 1000 tokens |
| ProcessImage.GenerationRequest | api/process-image.ts:50-56 | definition: the generation call with the variant's model and prompt, one 1024x1024 picture of standard quality |
| ProcessImage.ClassifyFor | server/routes.ts:72-87 | the response is the first matching row of the variant's table: the two-row table for the reduced chain of the route, the five-row table of the `api/` handlers (api/process-image.ts:75-109) otherwise |
| ProcessImage.QuotaErrorAndEmptyDescription | api/process-image.ts:43-109 | with the `api/process-image.ts` handler, a quota error from the vision call answers 402 "OpenAI API quota exceeded"; an empty description answers the generic 500 after the vision call alone |
| ProcessImage.DescriptionIn | api/process-image.ts:52 | reading the description back out of a prompt gives one that rebuilds exactly that prompt |
| ProcessImage.PromptCarriesDescription | api/process-image.ts:52 | the prompt carries the description verbatim between the fixed prefix and suffix |
| ProcessImage.PromptIsInjective | server/routes.ts:51 | different descriptions give different prompts |
| ProcessImage.Decide | api/process-image.ts:12-110 | a falsy image yields exactly the 400 "Image is required"; a record is stored exactly when the image, the description and the URL are all truthy, and it holds that description and URL. Otherwise the catch block answers: an error thrown by the vision or the generation call gives the chain's response for that error, and an empty description or a missing URL gives the chain's response for an error with no fields |
| ProcessImage.CallsMade | api/process-image.js:7-49 | no model call for a falsy image; otherwise the vision call goes first with the photo as a JPEG data URL; the generation call follows exactly when a non-empty description came back, and it carries that description |
| ProcessImage.PersistFollowsBothCalls | api/process-image.ts:42-69 | a record is stored only after both calls, and the stored description is the one in the generation prompt |
| ProcessImage.ReducedReportsOnlyQuotaAs402 | server/routes.ts:69-88 | with the reduced chain, the only 402 response is the quota response |
| ProcessImage.HandleProcessImage | api/process-image.ts:12-111 | the calls made and the response are those of `Decide`; a rejected request leaves the store untouched; a stored record gets the next id and holds the photo, description, URL and timestamp, and it is the response |
| ProcessImage.FirstRequestOnFreshStore | api/process-image.ts:64-71 | on a fresh store a successful request returns record 1 holding its inputs, and the listing is then exactly that record |
| ImagesApi.RespondWithListing | api/images.js:9-15 | status 200 with the list exactly when listing succeeded; a thrown listing gives 500 "Failed to fetch images" |
| ImagesApi.HandleGetImages | api/images.ts:3-11 | responds with every stored record exactly once, strictly newest first |
| ImagesApi.ListingOfOwnStore | api/images.ts:3-62 | the list handler over the store its own file creates, which nothing writes, answers 200 with the empty list |
| ImagesApi.ImagesHandler | api/images.js:3-16 | any method other than GET gives 405 "Method not allowed", independent of the store; GET gives the listing |
| ClientOpenAI.WordRun | client/src/lib/openai.ts:52 | the greedy `\w+` of the prefix pattern: every character of the run is a word character, and the one after it is not |
| ClientOpenAI.IsDataUrlPrefix | client/src/lib/openai.ts:52 | definition of what the pattern removes: "data:image/", one or more word characters, ";base64," |
| ClientOpenAI.IsPayload | client/src/lib/openai.ts:55-63 | definition of what the character and size checks accept: non-empty, base64 characters only, estimated size at most 20 MiB |
| ClientOpenAI.WordRunStopsAt | client/src/lib/openai.ts:52 | a run of word characters followed by a non-word character is consumed exactly |
| ClientOpenAI.StripDataUrlPrefix | client/src/lib/openai.ts:52 | the result is a suffix of the input, and anything removed is one complete data-URL prefix |
| ClientOpenAI.StripRemovesPrefix | client/src/lib/openai.ts:52 | a data-URL prefix is removed whatever follows it, and nothing more |
| ClientOpenAI.StripKeepsUnprefixed | client/src/lib/openai.ts:52 | input without a data-URL prefix is left unchanged |
| ClientOpenAI.ValidateImageData | client/src/lib/openai.ts:46-47 | an accepted image is never the empty string |
| ClientOpenAI.ValidateWithPrefix | client/src/lib/openai.ts:46-66 | after a data-URL prefix, the check accepts exactly a non-empty base64 payload of at most 20 MiB estimated size |
| ClientOpenAI.ValidateWithoutPrefix | client/src/lib/openai.ts:46-66 | without a prefix, the check accepts exactly a non-empty base64 payload of at most 20 MiB estimated size; in particular `""` is rejected |
| ClientOpenAI.NonBase64Rejected | client/src/lib/openai.ts:55-57 | one character outside the base64 alphabet after the prefix fails the check |
| ClientOpenAI.DoublePrefixRejected | client/src/lib/openai.ts:52-57 | only one prefix is removed, so a doubly prefixed photo is rejected |
| ClientOpenAI.AcceptedPayloadLength | client/src/lib/openai.ts:39 | a payload within the 20 MiB estimate is at most 27962026 characters long |
| ClientOpenAI.FormatImageData | client/src/lib/openai.ts:72-78 | the result always starts like a data URL; input that already does is returned unchanged; otherwise the JPEG prefix is put in front |
| ClientOpenAI.FormatIsIdempotent | client/src/lib/openai.ts:72-78 | formatting twice is formatting once |
| ClientOpenAI.JpegPrefixIsDataUrlPrefix | client/src/lib/openai.ts:75 | the JPEG prefix the formatter adds is a complete data-URL prefix |
| ClientOpenAI.ValidateIgnoresFormatting | client/src/lib/openai.ts:46-78 | formatting a photo never changes the check's verdict on it |
| ClientOpenAI.FormatOpenAIError | client/src/lib/openai.ts:16-28 | the message is never empty. With a reply: the reply's message (or the API default when falsy), and the reply's code and status. Without one: the error's own message (or the unexpected default), no code, status 500 |
| ClientOpenAI.ResponseUrl | client/src/lib/openai.ts:83 | the stored generated image when truthy, the reply's URL otherwise; the URL shown is truthy exactly when one of the two is |
| HomePage.Mentions | client/src/pages/home.tsx:52 | definition of `error.message?.includes(phrase)`: false when there is no message |
| HomePage.UserMessage | client/src/pages/home.tsx:50-64 | the toast is never empty; the default toast comes exactly when the message mentions none of the six phrases, and always when there is no message |
| HomePage.UserMessageIsFirstMatch | client/src/pages/home.tsx:52-64 | the error chain is the first-match reading of its phrase table, in source order |
| HomePage.InvalidImageDataPhrases | client/src/pages/home.tsx:31 | the gate's error mentions its own phrase and none of the three phrases checked before it |
| HomePage.InvalidImageDataToast | client/src/pages/home.tsx:30-32 | the gate's own error is shown as the invalid-format toast |
| HomePage.NoImageGeneratedLacksQuotaPhrases | client/src/pages/home.tsx:43 | the missing-image error mentions none of the billing, quota and rate-limit phrases |
| HomePage.NoImageGeneratedLacksServicePhrases | client/src/pages/home.tsx:43 | the missing-image error mentions none of the invalid-image, configuration and analysis phrases |
| HomePage.NoImageGeneratedToast | client/src/pages/home.tsx:42-44 | a missing generated image ends in the default toast |
| HomePage.MutationRequest | client/src/pages/home.tsx:27-36 | the photo is sent exactly when it passes the image check, and unchanged; otherwise the mutation fails with "Invalid image data" |
| HomePage.Home.constructor | client/src/pages/home.tsx:14-19 | the page starts idle, with no result, the refresh flag off and no toasts |
| HomePage.Home.Showing | client/src/pages/home.tsx:93-130 | the camera button exactly when idle with no result; the spinner exactly while processing; the result image exactly when there is a result, and never empty |
| HomePage.Home.OnError | client/src/pages/home.tsx:48-72 | appends the recognised toast and stops processing; the result and refresh flag are unchanged |
| HomePage.Home.OnSuccess | client/src/pages/home.tsx:40-47 | a falsy generated image throws "No image was generated" and changes nothing; otherwise that image becomes the result and processing stops |
| HomePage.Home.Settle | client/src/pages/home.tsx:40-72 | a settled mutation always ends with processing stopped. A truthy image becomes the result with no toast; a falsy one gives the default toast; an error gives its recognised toast |
| HomePage.Home.HandleCapture | client/src/pages/home.tsx:75-80 | clears the result and starts processing. A valid photo becomes the request; an invalid one fails at once with the invalid-format toast and processing stops |
| HomePage.Home.HandleReset | client/src/pages/home.tsx:82-86 | clears the result, stops processing and flips the refresh flag; the page invariant is kept |
| HomePage.CaptureRound | client/src/pages/home.tsx:26-86 | on a fresh page, an invalid photo ends on the camera with the invalid-format toast, and a valid one ends on the generated image or on the toast for its failure |
| HomePage.ResetTwice | client/src/pages/home.tsx:82-86 | two resets restore the refresh flag and leave the camera showing |
| Interop.VisionUrlStripsToImage | api/process-image.ts:35 | stripping the client's prefix from the server's vision URL gives back the photo |
| Interop.VisionUrlValidIffPayload | server/routes.ts:34 | the server's vision URL passes the client's check exactly when the photo is an acceptable base64 payload |
| Interop.ShownUrlIsGenerated | client/src/lib/openai.ts:83 | for a record the handler stored, the client shows exactly the URL the generation call returned, whatever the reply's own `url` |
| Interop.FormatMatchesVisionUrl | api/process-image.js:28 | for a photo not already a data URL, the client's formatter builds the same URL as the server |

## Left out

- The OpenAI SDK calls are not modelled. Their answers are inputs: the description or the
  URL (either may be missing), or the error thrown with its optional type, code, status and
  message.
  - A vision reply whose `choices` array is empty throws a TypeError, which the model does not
    represent. That error carries none of the fields the catch block looks at, so the outcome is
    the generic 500. The model yields the same outcome for an error with no fields.
- Module-load checks of the API key, dotenv, Express and `createServer` wiring, and console
  logging: plumbing with no effect on responses or state.
- The clock: `new Date()` is a parameter `now`, and `metadata` is modelled as that timestamp
  only. `processedAt` in `formatOpenAIResponse` is left out for the same reason.
- The request body is not modelled; the model takes the `image` field directly, as missing,
  `null` or a string. A primitive body such as a string has no `image` property, so it gets the
  400 "Image is required", as a missing field does in the model. Only a `null` or missing body
  makes the destructuring throw, and the catch then answers with the generic 500; that case is
  not represented. Truthy non-string values of `image` are not represented either.
- Ids are unbounded integers. The JavaScript numbers past 2^53 are not modelled, since the
  counter starts at 1 and grows by one per request.
- Asynchrony: each handler and callback runs to completion as one step.
- The query library: `Settle` routes an error thrown by the success callback to the error
  callback, as the query library does. The library itself, `apiRequest` and the toast
  transport are not part of this model.
  - Toasts are recorded as the list of their descriptions.
  - The error message is the raw message text, without the status prefix `apiRequest` may add.
- `isPending` in the page's spinner condition is library state. `Showing` models the spinner by
  `processing` only.
- UI components, styling, the gallery component and the Capacitor configuration: presentation
  only.
- The database table definition in `shared/schema.ts` is used only for its field shape.
  `insertImageSchema` is not part of this model.
- ImagesApi.HandleGetImages: the listing of the in-memory store cannot throw, so its catch
  branch is modelled separately by `RespondWithListing` over an explicit `ListingThrew`
  outcome.
- ImagesApi.ImagesHandler: "the store is not read" for a non-GET method is stated as a
  response independent of the store's contents.
- One shared store: every handler takes its store as a parameter, and the model lets the
  process-image handler and the list handler share one (`FirstRequestOnFreshStore`). That
  sharing is an assumption of the model, not how the source is wired. Each of api/images.ts:62,
  api/images.js:53, api/process-image.ts:163 and api/process-image.js:140 creates its own
  module-level store. The route in server/routes.ts writes to the store of server/storage.ts:45,
  which has no `getAllImages`, and registers no list route.
- Storage.InsertionOrder: iteration order is taken as ascending id. A JavaScript `Map` iterates
  in insertion order, and this store inserts under ids 1, 2, 3, ... (api/storage.ts:29, 37) and
  never removes. The contract states only which records are listed, once each; the strict sort
  that follows makes the order immaterial to `GetAllImages`.
- Aliasing of records: `createImage` returns the very object it stores (api/storage.ts:37-38),
  and `getImage` and `getAllImages` hand out those same objects (api/storage.ts:42, 46). The
  model's `Image` is a value, so a caller mutating a returned record, which would change the
  store, is not represented.
- Storage.MemStorage.GetImage: ids are integers. A non-integer key, which always misses in
  the JavaScript map, is not represented.

## Findings

| source | as written | input that shows it | evidently intended | confidence | as-written member | corrected member |
|---|---|---|---|---|---|---|
| api/images.ts:62 | the list handler reads a module-level store created in its own file, and the process-image handlers write to stores created in theirs | one successful `POST /api/process-image`, then `GET /api/images` | the gallery lists the record just stored | medium; not executed | ImagesApi.ListingOfOwnStore | ProcessImage.FirstRequestOnFreshStore |
