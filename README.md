# A verified model of an AI content app's controllers and two of its pages

The application lets signed-in users generate articles, blog titles, images
and resume reviews, remove backgrounds and objects from images, and
browse and like each other's published images. Every generated item is a row
of one `creations` table. This project models:

- **the user controller** (`Store`, `Likes`): the owner listing and the
  published feed, both newest first, and the like toggle. The toggle checks
  the id and the user, reads one row, removes every occurrence of the user
  from its likes or appends the user, overwrites that row and returns the
  published feed;
- **the AI controller** (`AiHandlers`): the guard ladder of each of the six
  handlers (plan, uploaded file, size, MIME type, required fields), the
  provider request it makes, the reply it sends and the at most one row it
  inserts on success (the blog-title handler inserts none), plus the
  page-numbering loop of the PDF text helper;
- **the community page** (`Community`): its optimistic like update, the like
  count and heart it displays, and its state (`creations`, `isLoading`,
  toasts) around the two requests;
- **the object-removal page** (`RemoveObject`): the one-word and image-type
  checks, the form it sends, and its state (`content`, `isLoading`, toasts);
- **the JavaScript primitives these depend on** (`Js`): `trim`, `split(" ")`,
  `startsWith` and the decimal rendering of a serial id.

The table is a `class` (`Store.CreationTable`) whose methods change its rows in
place; the two pages are classes whose methods update their state fields.
Pure logic (toggle rule, listings, prompts, checks) is written as functions,
with lemmas relating them. The external services (text model, image model,
image CDN) appear as `ProviderOutcome` parameters. The database's failures
are left out, except the toggle's UPDATE, which is the `updateFails`
parameter. The clock is the `now` parameter. `NODE_ENV` is the `development`
parameter.

The model makes two assumptions about the database schema. A row inserted
without `publish` gets `false`, written as the constant
`AiHandlers.ColumnDefaultPublish`. Every insert starts with an empty likes
array, written as the value `Some([])` in `Store.CreationTable.Insert`. The
schema itself is not part of this model.

## Model

| member | source | states |
|---|---|---|
| `Js.Trim` | client/src/pages/RemoveObject.jsx:24 | neither end of `trim`'s result is white space or a line terminator, and the result is empty exactly when the whole string is |
| `Js.TrimIgnoresPadding` | client/src/pages/RemoveObject.jsx:24 | white space added on either side never changes what `trim` returns |
| `Js.TrimKeepsCleanString` | server/controllers/aiController.js:161 | a string with clean ends is its own trim |
| `Js.SplitSpaces` | client/src/pages/RemoveObject.jsx:24 | `split(" ")` yields one more piece than there are spaces, and no piece contains a space |
| `Js.JoinSplitSpaces` | client/src/pages/RemoveObject.jsx:24 | joining the pieces with " " gives back the original string |
| `Js.SplitSpacesMany` | client/src/pages/RemoveObject.jsx:24 | there is more than one piece exactly when the string contains a space |
| `Js.NatToString` | client/src/pages/Community.jsx:41 | `String(id)` of a serial id is a non-empty string of decimal digits, one digit exactly for ids below 10, with a leading `0` only for the id 0 |
| `Js.NatToStringValue` | client/src/pages/Community.jsx:41 | the digits of `String(id)`, read as a decimal number, are the id itself |
| `Js.NatToStringInjective` | server/controllers/userController.js:71 | different ids have different decimal renderings, so the id text selects at most one row |
| `Likes.RemoveAll` | server/controllers/userController.js:93 | the filter keeps exactly the entries other than the user and never lengthens the list |
| `Likes.RemoveAllKeepsOthers` | server/controllers/userController.js:93 | the filter drops every occurrence of the user, keeps every other entry as often as before and in order |
| `Likes.Toggle` | server/controllers/userController.js:91-94 | after the toggle the user is present exactly when they were absent before; every other user's membership is unchanged |
| `Likes.ToggleMessage` | server/controllers/userController.js:96-98 | "Creation Unliked" exactly when the user was among the likes as read, "Creation Liked" exactly when not |
| `Likes.ToggleKeepsDistinct` | server/controllers/userController.js:92-94 | a toggle never introduces a duplicate into duplicate-free likes |
| `Likes.ToggleTwiceRestores` | server/controllers/userController.js:92-94 | liking and then unliking restores the original likes exactly |
| `Likes.ToggleTwiceSameLikes` | server/controllers/userController.js:92-94 | unliking and then liking restores the same set of likes, duplicate-free input assumed |
| `Likes.ToggleTwiceReorders` | server/controllers/userController.js:92-94 | unliking and then liking does not restore the order: the user moves to the end |
| `Likes.ToggleCountStep` | server/controllers/userController.js:92-94 | with duplicate-free likes the count falls by one on an unlike and rises by one on a like |
| `Store.SortByNewest` | server/controllers/userController.js:33 | `ORDER BY created_at DESC` returns the same rows, as a multiset, newest first |
| `Store.Where` | server/controllers/userController.js:32 | a `WHERE` filter keeps every matching row as often as it occurs and nothing else |
| `Store.PublishedListing` | server/controllers/userController.js:30-34 | the feed holds exactly the published rows, each as often as in the table, newest first |
| `Store.OwnerListing` | server/controllers/userController.js:10-11 | a user's listing holds exactly that user's rows, each as often as in the table, newest first |
| `Store.FindRow` | server/controllers/userController.js:68-72 | the lookup returns the first row whose id renders as the request's id text, or none when no row does |
| `Store.SetLikes` | server/controllers/userController.js:102-107 | the UPDATE keeps the row count, changes nothing but `likes`, sets the new likes on the rows whose id renders as the id text and leaves every other row as it was |
| `Store.SetLikesOverwrites` | server/controllers/userController.js:102-107 | a second UPDATE of the same row replaces the first one completely |
| `Store.LostUpdate` | server/controllers/userController.js:68-107 | two toggles of one row that both read before either writes leave the table as if only the second had run, so the first user's like is lost; run one after the other, both likes are kept |
| `Store.OnlyFoundRowChanges` | server/controllers/userController.js:102-107 | with unique ids the UPDATE changes exactly the row the SELECT found, and only its likes |
| `Store.FeedAfterLikeUpdate` | server/controllers/userController.js:102-114 | after one row's likes are overwritten, the feed has the same rows in the same order, with only that row's likes changed |
| `Store.CreationTable.Insert` | server/controllers/aiController.js:87-90 | an insert appends exactly one row with a fresh serial id and empty likes, keeping ids increasing and likes duplicate-free |
| `Store.CreationTable.GetUserCreations` | server/controllers/userController.js:5-21 | the reply is a success carrying the user's listing; every row in it is the user's |
| `Store.CreationTable.GetPublishedCreations` | server/controllers/userController.js:26-44 | the reply is a success carrying the feed; every row in it is published |
| `Store.CreationTable.ToggleLikeCreation` | server/controllers/userController.js:47-153 | 400 unless the id is a non-empty string; then 401 unless the user id is; the table is read exactly when both pass; then 404 when no row matches, 500 when its likes are not an array, 500 when the UPDATE throws; otherwise only that row's likes become the toggled list and the reply carries the message and the new feed; the rows are unchanged on every error |
| `AiHandlers.LengthBucket` | server/controllers/aiController.js:43-56 | numeric lengths (fractions included) up to 800 are short, up to 1200 medium, longer ones and an absent length long |
| `AiHandlers.PageLengthOptionsBuckets` | client/src/pages/WriteArticle.jsx:7-11 | the page's three length options, 800, 1200 and 1600, land in the short, medium and long buckets respectively, and 800.5 is medium |
| `AiHandlers.ArticlePrompt` | server/controllers/aiController.js:58-77 | the article template carries the topic verbatim and the word count and size word of the length's bucket |
| `AiHandlers.PublishOrDefault` | server/controllers/aiController.js:238 | `publish ?? false` over an absent or boolean `publish` is true exactly when `publish` is true |
| `AiHandlers.RemovalPrompt` | server/controllers/aiController.js:336 | the recorded prompt is the object name, verbatim, between "Remove " and " from image" |
| `AiHandlers.RemovalEffect` | server/controllers/aiController.js:329 | the CDN effect is "gen_remove:" followed by the object name |
| `AiHandlers.RemovalEffectRoundTrip` | server/controllers/aiController.js:328-331 | reading the object name back out of the effect gives the name that was put in |
| `AiHandlers.RemovalPromptMatchesEffect` | server/controllers/aiController.js:328-336 | the recorded prompt and the CDN effect name the same object |
| `AiHandlers.PremiumRejection` | server/controllers/aiController.js:198-204 | every plan but "premium" is refused with 403 and the premium-only message; "premium" passes |
| `AiHandlers.ResumeRejection` | server/controllers/aiController.js:391-418 | plan, then file present, then size at most 5 MiB, then type `application/pdf`, each failure with its own reply; a resume passes exactly when all four hold |
| `AiHandlers.PagesText` | server/controllers/aiController.js:372-377 | the text is empty exactly for zero pages, and each page adds a line of at least 15 characters |
| `AiHandlers.PagesTextPrefix` | server/controllers/aiController.js:372-377 | the text for fewer pages is a prefix of the text for more pages |
| `AiHandlers.PagesTextLineAt` | server/controllers/aiController.js:373-377 | the i-th line of the text is "Page i content" |
| `AiHandlers.ExtractTextFromPdf` | server/controllers/aiController.js:363-383 | a loaded document gives one line per page in page order; a load failure gives "Failed to process PDF: " and the error |
| `AiHandlers.GenerateArticle` | server/controllers/aiController.js:29-112 | 400 without a topic and no model call; otherwise the model gets the template for the topic and length bucket; a model failure is a 500 with nothing stored; success stores exactly one unpublished article row and replies with the text; the serial-id counter advances by one on success and stays put otherwise |
| `AiHandlers.CategoryError` | server/controllers/aiController.js:146 | `category.toLowerCase()` throws exactly when the category is not a string, with the runtime's message for `undefined`, for `null` and for any other value |
| `AiHandlers.GenerateBlogTitle` | server/controllers/aiController.js:115-184 | 400 without a keyword; a category that is not a string fails with 500 before the model is called, carrying the runtime's message in development; a model failure is a 500 whose message depends on the development flag; success replies with the trimmed title and stores nothing |
| `AiHandlers.GenerateImage` | server/controllers/aiController.js:190-254 | 403 for non-premium plans and no provider call; a provider failure is a 500 with its message; success stores one image row, published exactly when `publish` is true; the serial-id counter advances by one on success and stays put otherwise |
| `AiHandlers.RemoveImageBackground` | server/controllers/aiController.js:257-302 | 403, then 400 without a file, and no upload in either case; an upload failure is a 500; success stores one unpublished image row with the fixed prompt; the serial-id counter advances by one on success and stays put otherwise |
| `AiHandlers.RemoveImageObject` | server/controllers/aiController.js:308-352 | 403 for non-premium plans; a missing file is not checked and fails with 500 when its path is read; success stores one row whose content is the URL built from the upload and the removal effect; the serial-id counter advances by one on success and stays put otherwise |
| `AiHandlers.ReviewResume` | server/controllers/aiController.js:385-500 | the resume ladder decides every refusal, with no model call; a model failure is a 500; success stores one resume row and replies with the feedback; the serial-id counter advances by one on success and stays put otherwise |
| `Community.UserIdText` | client/src/pages/Community.jsx:53 | the id string is empty exactly when there is no user (or an empty id), and is the user's id otherwise |
| `Community.LikeCount` | client/src/pages/Community.jsx:118 | the count shown is the length of the list the heart is tested against, 0 when the likes are absent |
| `Community.IsLiked` | client/src/pages/Community.jsx:126 | the heart is filled exactly when the likes include the user's id string; a filled heart always comes with a count of at least 1 |
| `Community.ToggleEntry` | client/src/pages/Community.jsx:61-66 | the toggled entry differs from the old one only in `likes`, which becomes an array in which the user's membership is flipped and every other user's is kept |
| `Community.LikeErrorText` | client/src/pages/Community.jsx:77-79 | the error toast is never empty: the reply's message if there is one, else the error's message, else the fixed fallback |
| `Community.ToggleInList` | client/src/pages/Community.jsx:50-69 | the local update toggles the entries with the clicked id and leaves every other entry exactly as it was |
| `Community.ToggleFlipsHeart` | client/src/pages/Community.jsx:120-129 | the heart is filled after a toggle exactly when it was not before |
| `Community.ToggleNonArrayLikes` | client/src/pages/Community.jsx:52 | likes that are not an array count as none, and the toggle leaves just the user with a count of one |
| `Community.ToggleMovesCountByOne` | client/src/pages/Community.jsx:118 | with duplicate-free likes the count shown moves by exactly one, down when the heart was filled |
| `Community.OptimisticUpdateMatchesServer` | client/src/pages/Community.jsx:50-70 | when the page shows the published feed and the server's toggle succeeded for the same user, the locally updated list equals the feed the server returned |
| `Community.CommunityPage.constructor` | client/src/pages/Community.jsx:12-15 | an empty feed, not loading, no toasts |
| `Community.CommunityPage.FetchCreations` | client/src/pages/Community.jsx:18-35 | loading ends false; the feed is replaced only on success, with an absent list read as empty; otherwise an error toast and the feed unchanged |
| `Community.CommunityPage.ImageLikeToggle` | client/src/pages/Community.jsx:37-83 | on success a success toast and the local toggle; on any failure the feed unchanged and an error toast with the fallback message chain |
| `RemoveObject.NamesSeveralObjects` | client/src/pages/RemoveObject.jsx:24 | the one-word check refuses a name only when its trimmed form has at least three characters, a space among them |
| `RemoveObject.IsImageFile` | client/src/pages/RemoveObject.jsx:28 | a file passes exactly when it is present and its type is "image/" followed by anything |
| `RemoveObject.SeveralObjectsIffInnerSpace` | client/src/pages/RemoveObject.jsx:24 | a name is refused exactly when a space is left inside it after trimming |
| `RemoveObject.PaddingIgnored` | client/src/pages/RemoveObject.jsx:24 | leading and trailing white space never makes a name pass or fail |
| `RemoveObject.BlankNamePasses` | client/src/pages/RemoveObject.jsx:24 | an empty or all-blank name passes the one-word check |
| `RemoveObject.CleanNameRefusedIffSpace` | client/src/pages/RemoveObject.jsx:24 | a name with clean ends is refused exactly when it contains a space |
| `RemoveObject.WordsAroundSpaceRefused` | client/src/pages/RemoveObject.jsx:24-26 | two words around a space, such as "cup spoon", are refused |
| `RemoveObject.WordsAroundTabPass` | client/src/pages/RemoveObject.jsx:24 | two words around a tab pass, because only the space character separates pieces |
| `RemoveObject.SubmitRejection` | client/src/pages/RemoveObject.jsx:24-30 | the name check runs first; a missing file or a type not starting with "image/" is refused next; a submission passes exactly when both checks do |
| `RemoveObject.FailureText` | client/src/pages/RemoveObject.jsx:48-58 | the error toast is never empty, falling back to "Something went wrong" or "Error occurred" |
| `RemoveObject.RemoveObjectPage.constructor` | client/src/pages/RemoveObject.jsx:13-16 | no content, not loading, no toasts |
| `RemoveObject.RemoveObjectPage.Send` | client/src/pages/RemoveObject.jsx:36-61 | loading ends false; content is set only on a successful reply; otherwise an error toast and content unchanged |
| `RemoveObject.RemoveObjectPage.OnSubmitAsWritten` | client/src/pages/RemoveObject.jsx:19-65 | a refused submission sends nothing, toasts the refusal message and leaves the page loading; an accepted one sends the file and the trimmed name |
| `RemoveObject.RemoveObjectPage.OnSubmit` | client/src/pages/RemoveObject.jsx:19-65 | as the handler as written, except that the page stops loading on every path |
| `RemoveObject.SpinnerAfterRejectedName` | client/src/pages/RemoveObject.jsx:21-64 | with a valid image and a several-word name the page as written stays loading, and the corrected page does not |

## Left out

- The text model, the image model and the image CDN upload are opaque `ProviderOutcome` parameters. The CDN's URL builder is the function parameter `urlFor` of `AiHandlers.RemoveImageObject`. Their request bodies, keys and base64 handling are not modelled.
- Storage failures of the listings and inserts are not modelled. Only the toggle's UPDATE failure is, as `updateFails`.
- Store.CreationTable.GetUserCreations: the error reply (`success: error`) of a failed query is not modelled, because storage failures are not.
- Store.FindRow: PostgreSQL casts the id text to an integer, so "007" or " 7" would find row 7. The model matches only the canonical decimal rendering.
- Store.FindRow: an id text that is not an integer, such as "abc", makes the SELECT throw in PostgreSQL, and the outer handler answers 500 "Internal server error". In the model no row matches, and the toggle answers 404.
- Store.SortByNewest: SQL leaves the order of rows with equal `created_at` unspecified. The model fixes one order, and its contract promises only newest-first and the same multiset.
- Store.CreationTable.ToggleLikeCreation: the outer `catch`'s "Internal server error" reply is not modelled, because the only throwing statement modelled is the UPDATE.
- Store.CreationTable.ToggleLikeCreation: a feed query that fails after a successful UPDATE is not modelled. In the source the row has then already changed and the reply is 500 "Failed to update creation likes"; the model's `updateFails` is tested before any write, so every modelled 500 leaves the rows unchanged.
- Store.CreationTable.ToggleLikeCreation: the reply's `error` and `details` fields are not modelled.
- Store.LostUpdate: concurrent requests are modelled only by this interleaving lemma. The handlers themselves are sequential.
- AiHandlers.GenerateArticle: the reply's `metadata` object is not modelled.
- AiHandlers.GenerateArticle: the stored `prompt` is the template's prose in the source. The model stores `ArticleTemplate(topic, wordCount, targetWords)`, the parameters the prose is built from, and not the prose itself. AiHandlers.ReviewResume stores `ResumeTemplate` for its fixed prose prompt in the same way.
- AiHandlers.LengthBucket: a non-numeric or `null` length is not modelled; a length is absent or a number (a `real`, so fractions are covered). In JavaScript `null <= 800` holds, and a numeric string compares by its value, so such requests would get the bucket of the number they convert to.
- AiHandlers.GenerateBlogTitle: the keyword is absent or a string. A truthy keyword of another type (a number, say) would pass the check and be interpolated; that case is not modelled.
- AiHandlers.GenerateImage: the prompt is not validated by the source and is not validated here.
- AiHandlers.PublishOrDefault: `publish` is modelled as absent or a boolean. In the source it is any JSON value, and `publish ?? false` passes every non-nullish value to the boolean column unchanged. PostgreSQL then reads texts such as "yes", "on" or "1" as true, and any other text makes the INSERT throw, so the reply is a 500 after the image was generated. Those non-boolean values are not modelled.
- AiHandlers.ReviewResume: file cleanup (`fs.unlinkSync`) and reading the PDF bytes are left out as file-system I/O. The PDF text helper is modelled separately because the handler never calls it.
- Logging (`console.log`, `console.error`) is left out as output only.
- The authentication and plan middleware, the router, the upload middleware and the server start-up are not part of this model. `userId` and `plan` are parameters.
- The pages' rendering (JSX), the `useEffect` that fetches once a user is known, and the token request (`getToken`) are not modelled.
- Community.CommunityPage.ImageLikeToggle: React's stale-closure reads of `creations` are not modelled. The method reads the current field.
- Community.CommunityPage.ImageLikeToggle: the unreachable `typeof userIdStr !== 'string'` branch is omitted.
- Community.IsLiked: a truthy non-array `likes` value (a string, say) would make the page test substrings and count characters. The model treats every non-array value as absent.
- RemoveObject.RemoveObjectPage.Send: an axios error without a `response` throws again inside the handler. That path is not modelled.

## Findings

| source | as written | input that shows it | evidently intended | confidence | as-written member | corrected member |
|---|---|---|---|---|---|---|
| client/src/pages/RemoveObject.jsx:21-64 | the validation errors are thrown before the inner `try`, so only the outer `catch` runs and `setIsLoading(false)` in the inner `finally` is skipped | object name "cup spoon" with a valid PNG file | every submission ends with `isLoading` false so the button is usable again | high; not executed | `RemoveObject.RemoveObjectPage.OnSubmitAsWritten`, `RemoveObject.SpinnerAfterRejectedName` | `RemoveObject.RemoveObjectPage.OnSubmit` |
