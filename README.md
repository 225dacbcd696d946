# partusch-cms in Dafny

partusch-cms is a small mobile content manager for a family blog that is
hosted on Contentful. The user logs in through Auth0, and the app swaps the
identity token for Contentful credentials. The user can then write a post,
attach images, tag it "Milo" and/or "Oliver", and publish it. A second
screen lists the posts, refreshes the list and deletes a post after asking
for confirmation.

This project models the logic of that app and proves properties of the
model:

- `contentful.dfy` (module `Contentful`) builds the requests of the
  Contentful client. For each call it gives the method, the URL, the headers
  and the body.
- `home_screen.dfy` (module `HomeScreen`) holds the draft screen. It is a
  class `Draft` with the screen's state slots.
  - The class keeps a trace of the calls made so far and a queue of image
    publishes waiting on their timers.
  - `pickImage` is modelled step by step, and so is `onSubmit`.
  - The editing handlers are modelled too.
- `list_screen.dfy` (module `ListScreen`) holds the post list. It is a
  class `PostList` with a status machine and the removal of a post built
  from findIndex and splice.
- `app.dfy` (module `App`) covers login and screen choice:
  - the Auth0 authorization URL;
  - how a login response is classified;
  - a class `AppState` for the root component's slots, with the login
    timer and the token fetch as deferred events;
  - the if/else chain that picks the screen.
- `query_string.dfy` (module `QueryString`) models `toQueryString` and
  `encodeURIComponent`, following section 18.2.6.5 of ECMA-262, 2015
  edition. It also defines their inverses: `decodeURIComponent`
  (section 18.2.6.3) and a parser for the query strings `toQueryString`
  writes. The partner lemma states that the round trip loses nothing.
- The supporting modules are:
  - `strings.dfy`: JavaScript's `split`/`join` for one separator, with
    their round trips;
  - `json.dfy`: JSON values, where an object is a map from member names;
  - `wrappers.dfy`: `Option`.

The app's effects are handled as follows:

- Network answers are parameters. `Option` stands for a call that resolves
  (`Some`) or throws (`None`).
- The current time and formatted dates are passed in as strings.
- The two timers are events: `publishImage`'s 1000 ms timer and
  `onLoginPress`'s 250 ms timer. The model calls a method when such a timer
  fires.

## Model

| member | source | states |
|---|---|---|
| Contentful.Tags | components/util/contentful.util.js:108-110 | the index filter over [miloTag, oliverTag]; TagsByFlags and TagCombinations state its result |
| Contentful.CoverImages | components/util/contentful.util.js:113-121 | the map from images to Asset links; CoverImagesLinkEachImage states its result |
| Contentful.AssetRequestBody | components/util/contentful.util.js:55-74 | the asset record; AssetBodyFields states its fields |
| Contentful.EntryRequestBody | components/util/contentful.util.js:111-135 | the entry record; EntryBodyText, EntryBodyLinks and EntryBodyIgnoresPublishDate state its fields |
| Contentful.UploadImageRequest | components/util/contentful.util.js:7-20 | the upload request; RequestMethodsAndHeaders, RequestsCarryAccessToken, UploadUrlSegments, UploadUrlIsTemplate and RequestsSendNothingElse state its method (POST), headers, body and URL |
| Contentful.ProcessImageRequest | components/util/contentful.util.js:24-33 | the process request; RequestMethodsAndHeaders, RequestsCarryAccessToken, ApiRequestUrlSegments, ProcessUrlIsTemplate and RequestsSendNothingElse state its method (PUT), header, empty body and URL |
| Contentful.PublishImageRequest | components/util/contentful.util.js:37-47 | the asset publish request; RequestMethodsAndHeaders, PublishVersionsAreFixed, RequestsCarryAccessToken, PublishImageUrlIsTemplate and RequestsSendNothingElse state its method (PUT), headers, empty body and URL |
| Contentful.LinkUploadToAssetRequest | components/util/contentful.util.js:54-86 | the asset creation request; RequestBodies, RequestMethodsAndHeaders, RequestsCarryAccessToken, LinkUrlIsTemplate and RequestsSendNothingElse state its method (POST), body, headers and URL |
| Contentful.CreateEntryRequest | components/util/contentful.util.js:90-146 | the entry creation request; RequestBodies, RequestsCarryAccessToken, CreateEntryUrlIsTemplate and RequestsSendNothingElse state its body, headers and URL |
| Contentful.PublishEntryRequest | components/util/contentful.util.js:150-160 | the entry publish request; RequestMethodsAndHeaders, PublishVersionsAreFixed, RequestsCarryAccessToken, PublishEntryUrlIsTemplate and RequestsSendNothingElse state its method (PUT), headers, empty body and URL |
| Contentful.TagsByFlags | components/util/contentful.util.js:108-110 | the tag list holds the Milo tag exactly when isMilo is set and the Oliver tag exactly when isOliver is set, Milo first |
| Contentful.TagCombinations | components/util/contentful.util.js:94-110 | the four flag combinations give [milo, oliver], [milo], [oliver] and [], with the two fixed tag ids |
| Contentful.CoverImagesLinkEachImage | components/util/contentful.util.js:113-121 | one cover image per input image, in the same order, each an Asset Link carrying that image's sys.id |
| Contentful.EntryBodyText | components/util/contentful.util.js:122-130 | shortDescription is the title, body is the body, and publishDate is the time of the call |
| Contentful.EntryBodyLinks | components/util/contentful.util.js:111-135 | the entry's tags field is the filtered tag list and its coverImages field is the list of image links |
| Contentful.EntryBodyIgnoresPublishDate | components/util/contentful.util.js:90-93 | the entry body does not depend on the draft's own publishDate, because createEntry never destructures it |
| Contentful.LinkFields | components/util/contentful.util.js:64-70 | a link object has sys.type "Link", the given linkType and the given id |
| Contentful.AssetBodyFields | components/util/contentful.util.js:55-74 | in the asset record, title and file.fileName are both the file name, contentType is passed through, and uploadFrom is a Link of type Upload to the given upload id |
| Contentful.RequestsCarryAccessToken | components/util/contentful.util.js:7-161 | all six requests carry `Bearer <accessToken>`; the upload posts the blob itself as application/octet-stream |
| Contentful.RequestBodies | components/util/contentful.util.js:75-86 | linkUploadToAsset posts the asset record; createEntry posts the entry record with content type `post` (lines 136-146) |
| Contentful.RequestMethodsAndHeaders | components/util/contentful.util.js:7-161 | the upload (line 9) and the asset creation (line 78) post; process (line 28), asset publish (line 41) and entry publish (line 154) put; the upload and the asset creation send `Accept: application/json` (lines 11, 80), and the asset creation sends `Content-Type: application/json` (line 81) |
| Contentful.RequestsSendNothingElse | components/util/contentful.util.js:7-161 | each request's header names are exactly those of its literal (three for the upload and the asset creation, one for process, two for the other three), and process, asset publish and entry publish send no body (lines 25-32, 38-46, 151-159) |
| Contentful.UploadUrlIsTemplate | components/util/contentful.util.js:17-20 | the upload URL is exactly `https://upload.contentful.com/spaces/` + spaceId + `/uploads`, for every space id |
| Contentful.ApiRootIsTemplate | components/util/contentful.util.js:26 | the root segments join to exactly `${root}` = `https://api.contentful.com/spaces/${spaceId}/environments/master` (ApiRoot), for every space id |
| Contentful.ApiUrlIsTemplate | components/util/contentful.util.js:26 | a management URL is `${root}`, "/" and its joined path |
| Contentful.LinkUrlIsTemplate | components/util/contentful.util.js:76 | linkUploadToAsset posts to exactly `${root}/assets`, for every space id |
| Contentful.ProcessUrlIsTemplate | components/util/contentful.util.js:26 | processImage puts to exactly `${root}/assets/${assetId}/files/en-US/process`, for every space id and asset id |
| Contentful.PublishImageUrlIsTemplate | components/util/contentful.util.js:39 | publishImage puts to exactly `${root}/assets/${assetId}/published`, for every space id and asset id |
| Contentful.CreateEntryUrlIsTemplate | components/util/contentful.util.js:137 | createEntry posts to exactly `${root}/entries`, for every space id |
| Contentful.PublishEntryUrlIsTemplate | components/util/contentful.util.js:152 | publishEntry puts to exactly `${root}/entries/${id}/published`, for every space id and entry id |
| Contentful.UploadUrlSegments | components/util/contentful.util.js:17-20 | the upload URL is https://upload.contentful.com/spaces/{spaceId}/uploads, with the space id as one segment |
| Contentful.ApiUrlSegments | components/util/contentful.util.js:26 | a management URL splits on "/" into the segments of the space's master-environment root, followed by its path |
| Contentful.ApiRequestUrlSegments | components/util/contentful.util.js:24-161 | the link, process, publish-image, create and publish-entry URLs lie under the API root, each with its own fixed path, and every id fills exactly one segment |
| Contentful.PublishVersionsAreFixed | components/util/contentful.util.js:36-52 | asset publish sends X-Contentful-Version 2 and entry publish sends 1 (line 157), whatever the input |
| Contentful.AppendPublished | components/util/contentful.util.js:49-50 | the new image list is the list passed in, unchanged, with the published image appended at the end |
| Strings.Split | screens/HomeScreen.js:49 | `split` on one separator: never an empty list, the empty string giving [""]; SplitJoin, JoinSplit and SplitLastPiece state its contents |
| Strings.Join | App.js:35 | `join` with one separator between neighbours; SplitJoin, JoinSplit and JoinAppend relate it to Split |
| Strings.JoinAppend | App.js:35 | joining two non-empty lists is joining each with one separator between the results |
| Strings.SplitJoin | App.js:35 | splitting a joined list of pieces that contain no separator gives the pieces back |
| Strings.JoinSplit | screens/HomeScreen.js:49 | joining the pieces of a split with the separator gives the string back |
| Strings.SplitLastPiece | screens/HomeScreen.js:49-50 | the last piece of a split is a suffix of the string, holds no separator, directly follows a separator unless it is the whole string, and is the whole string when there is no separator |
| HomeScreen.FileName | screens/HomeScreen.js:49-50 | the last piece of the URI split on "/"; FileNameIsLastSegment states what it is |
| HomeScreen.FileNameIsLastSegment | screens/HomeScreen.js:49-50 | the file name contains no "/", the URI ends with it, a "/" stands just before it, and a URI with no "/" is its own file name |
| HomeScreen.PickCalls | screens/HomeScreen.js:46-57 | the calls of a pick, each step only after the previous one resolved; NoPickNoCalls, PickCallsInOrder and PickStopsAtFirstFailure state them |
| HomeScreen.NoPickNoCalls | screens/HomeScreen.js:46 | a cancelled or failed pick makes no call and publishes nothing |
| HomeScreen.PickCallsInOrder | screens/HomeScreen.js:47-59 | a successful pick makes the calls uriToBlob, upload, link and process, in that order; the link gets the upload's id, the file name and the blob type, and process gets the asset's id |
| HomeScreen.PickStopsAtFirstFailure | screens/HomeScreen.js:47-62 | when a step throws, the calls made are exactly the steps up to and including the failing one, with their arguments, and nothing is published |
| HomeScreen.SubmitCalls | screens/HomeScreen.js:65-76 | onSubmit creates the entry first and publishes it, with the id the server returned, only if creation succeeded |
| HomeScreen.Draft.constructor | screens/HomeScreen.js:27-34 | the screen mounts with an empty title and body, no images, both flags false, no success message and no calls made |
| HomeScreen.Draft.PickImage | screens/HomeScreen.js:37-63 | the trace grows by exactly the pick's calls; only a pick that gets past processing queues a publish of the asset, over the image list as it was when the pick began |
| HomeScreen.Draft.PublishTimerFires | components/util/contentful.util.js:36-51 | the oldest queued publish is sent; if it succeeds, the image list becomes that publish's saved list plus the published image |
| HomeScreen.Draft.Submit | screens/HomeScreen.js:65-80 | the trace grows by the submit calls for the current draft, and showSuccess becomes true only when creation and publication both succeed |
| HomeScreen.Draft.SetTitle | screens/HomeScreen.js:122 | the title becomes the typed value, and nothing else changes |
| HomeScreen.Draft.SetBody | screens/HomeScreen.js:128 | the body becomes the typed value, and nothing else changes |
| HomeScreen.Draft.SetPublishDate | screens/HomeScreen.js:143 | the publish date becomes the typed value |
| HomeScreen.Draft.OpenDatePicker | screens/HomeScreen.js:152 | the date picker opens |
| HomeScreen.Draft.HandlePublishedDateChange | screens/HomeScreen.js:82-86 | the publish date changes only when the picker returns a date |
| HomeScreen.Draft.OnDatePickerChange | screens/HomeScreen.js:160-163 | the picker closes and its date is handled as above |
| HomeScreen.Draft.ToggleMilo | screens/HomeScreen.js:170 | isMilo is negated, and nothing else changes |
| HomeScreen.Draft.ToggleOliver | screens/HomeScreen.js:177 | isOliver is negated, and nothing else changes |
| HomeScreen.Draft.DismissSuccess | screens/HomeScreen.js:189-191 | the success message is hidden |
| HomeScreen.Draft.StartNewPost | screens/HomeScreen.js:194-202 | the draft goes back to the blank state it mounted in |
| HomeScreen.OverlappingUploadsKeepLast | components/util/contentful.util.js:49-50 | when two uploads start before either publish fires and the publishes land in the order their timers fired, only the second image stays attached, because each timer appends to the list it captured |
| HomeScreen.SequentialUploadsKeepBoth | components/util/contentful.util.js:49-50 | when each upload starts after the previous publish has landed, both images stay attached, in upload order |
| ListScreen.SpliceOne | screens/ListScreen.js:39 | `splice(start, 1)` with JavaScript's clamping of a negative or too-large start; RemoveFound and RemoveMissing state its effect for findIndex's results |
| ListScreen.RemoveById | screens/ListScreen.js:37-40 | the splice at the index findIndex gives; RemoveFound and RemoveMissing state the result in both cases |
| ListScreen.FindIndex | screens/ListScreen.js:38 | findIndex gives the first position whose post has the id, and -1 exactly when no post has it |
| ListScreen.RemoveFound | screens/ListScreen.js:37-40 | when the id occurs, exactly its first occurrence is removed; the list is one shorter, and the other posts keep their order and multiplicity |
| ListScreen.RemoveMissing | screens/ListScreen.js:38-39 | when the id does not occur, splice(-1, 1) removes the last post, and an empty list stays empty |
| ListScreen.Title | screens/ListScreen.js:73-75 | a post without a short description is titled "No Title"; otherwise its en-US text is used, even when empty |
| ListScreen.Titles | screens/ListScreen.js:69-76 | one title per post, in list order |
| ListScreen.PostList.constructor | screens/ListScreen.js:16-18 | the screen starts LOADING, with no posts and no selected post |
| ListScreen.PostList.FetchAllPosts | screens/ListScreen.js:22-27 | the fetched items replace the list and the status becomes POSTS_LOADED; a failed fetch changes nothing |
| ListScreen.PostList.OnRefresh | screens/ListScreen.js:30-35 | a refresh goes through LOADING to POSTS_LOADED and replaces the posts with the fetched ones; a failed fetch leaves it LOADING |
| ListScreen.PostList.PressDelete | screens/ListScreen.js:81-84 | the post becomes the selected one and the status becomes DELETE_PENDING |
| ListScreen.PostList.CancelDelete | screens/ListScreen.js:114 | Cancel returns the status to POSTS_LOADED |
| ListScreen.PostList.DismissDialog | screens/ListScreen.js:103 | dismissing the dialog returns the status to POSTS_LOADED |
| ListScreen.PostList.DismissSnackbar | screens/ListScreen.js:95 | dismissing the snackbar sets POSTS_LOADED |
| ListScreen.PostList.RemovePostFromList | screens/ListScreen.js:37-41 | the posts are replaced by the result of the findIndex/splice removal |
| ListScreen.PostList.HandleDelete | screens/ListScreen.js:43-51 | a successful delete removes the post and then sets DELETED; a failing delete leaves the posts and the status unchanged |
| ListScreen.PostList.ConfirmDelete | screens/ListScreen.js:118-121 | the dialog's Delete button deletes the selected post |
| ListScreen.PostList.VisibleTitles | screens/ListScreen.js:68-76 | nothing is listed while LOADING; otherwise there is one title per post, in order |
| ListScreen.DeleteScenario | screens/ListScreen.js:43-51 | select, confirm and dismiss passes through DELETE_PENDING, DELETED and POSTS_LOADED, and the list loses one post |
| QueryString.EncodeURIComponent | App.js:33 | the encoding holds only unreserved characters and "%", so it never contains "&", "=", "?" or "/"; an unreserved string is left unchanged |
| QueryString.DecodeEncode | App.js:33 | decoding the encoding of any string gives back that string |
| QueryString.DecodeUtf8OfUtf8 | App.js:33 | UTF-8 decoding undoes the UTF-8 encoding of every character |
| QueryString.EncodePairs | App.js:30-34 | one `key=value` pair per entry, in entry order |
| QueryString.ToQueryString | App.js:27-36 | the query always begins with "?", and it is exactly "?" when there are no entries |
| QueryString.PairSplitsOnEquals | App.js:32-33 | an encoded pair splits on "=" into exactly its encoded key and its encoded value, and contains no "&" |
| QueryString.QuerySplitsIntoEncodedPairs | App.js:27-36 | after the "?", splitting on "&" and then on "=" recovers the encoded key and value of every entry, in order |
| QueryString.QueryRoundTrip | App.js:27-36 | parsing the query gives back exactly the entries it was built from |
| App.AuthorizeParams | App.js:42-48 | the five authorization parameters in the literal's order; AuthUrl states that the query reads back as them |
| App.AuthUrl | App.js:42-49 | the URL is the domain and "/authorize", followed by a query that reads back as client_id, redirect_uri, response_type=id_token, scope and nonce, in that order |
| App.Login | App.js:53-65 | success without an error returns id_token; success with an error rejects (the undeclared `Alert` throws), returns nothing and keeps the loading flag; any other result returns nothing and clears the flag |
| App.AppState.constructor | App.js:69-73 | the root starts not loaded, with no jwt or tokens, not authenticated and not loading user data |
| App.AppState.OnLoginPress | App.js:75-81 | the spinner flag is set and one login timer is started |
| App.AppState.OnMount | App.js:83-87 | the mount effect presses login only when the user is not yet authenticated |
| App.AppState.LoginTimerFires | App.js:77-80 | the jwt slot receives login's result unless login rejects, in which case `setJwt` never runs and the jwt is kept; the loading flag is cleared only when login clears it, and a token fetch starts exactly when the jwt changes to a truthy value (lines 104-107) |
| App.AppState.TokenFetchCompletes | App.js:99-102 | the tokens are set, the user is authenticated and loadingUserData becomes false |
| App.AppState.TokenFetchFails | App.js:90-99 | a failing token fetch changes no slot |
| App.AppState.FinishLoading | App.js:170-172 | the loading screen is marked complete |
| App.AppState.CurrentScreen | App.js:109-159 | AppLoading when not loaded and not skipped; otherwise the spinner while loading user data; otherwise Login when not authenticated; otherwise Home with the stored tokens |
| App.HomeScreenHasTokens | App.js:149-158 | whenever the home screen shows, it receives credentials |
| App.LoginThenHome | App.js:75-159 | on first start, a successful Auth0 login and token fetch lead to the home screen with the fetched credentials |
| App.ErrorRedirectKeepsSpinner | App.js:53-60 | a success response that carries an error leaves the spinner up, with no fetch started and no event left to remove it |
| App.ErrorRedirectKeepsToken | App.js:53-60 | a later login whose redirect carries an error rejects before `setJwt` (line 79), so the token of an earlier login stays stored; this is a property of `login` and the timer callback, not a screen sequence the UI can reach, since a stored token keeps the loading screen up until Home shows (lines 117-148) |

## Left out

- Sending requests and reading responses (`fetch`, `uriToBlob`,
  `.json()`) are not modelled. Each call is a request value in a trace, and
  its outcome is a parameter. HTTP status codes are never checked by the
  app, so a failure is only a thrown exception.
- `JSON.stringify` of the request bodies is not modelled. Bodies are JSON
  values whose objects are maps, so the order of members is not modelled.
  The numeric header values `2` and `1` appear as the strings fetch sends.
- URLs are built by joining their "/"-separated segments. The lemmas
  `Contentful.UploadUrlIsTemplate`, `Contentful.ApiRootIsTemplate` and the
  five `…UrlIsTemplate` lemmas of the management calls prove that this
  gives the strings of the template literals, for every space id and every
  asset or entry id.
- `Object.entries` is given as a sequence of pairs in the order of the
  object literal. JavaScript's reordering of integer-like keys is not
  modelled; the keys of `login` are not integer-like.
- `fetchEntries` and `deleteEntry` are not part of this model. Only their
  outcome is passed in: the items fetched, or whether the delete succeeded.
- Timers are events that the caller fires. Their 1000 ms and 250 ms delays
  and any interleaving of awaited steps with other handlers are not
  modelled. `pickImage` and `onSubmit` run as one step each, with every
  server answer given up front.
- HomeScreen.Draft.PickImage: the image list captured for the publish is
  the list when the pick starts. The model cannot express a render that
  happens while the pick is awaiting.
- The Alert at App.js:55 is not declared in the file, so calling it throws
  a ReferenceError and `login` rejects. The model records only that
  rejection: no token is returned and `setJwt` at App.js:79 does not run.
  The error message and the unhandled rejection are not modelled.
- `api/partusch-cms/handler.js` is not part of this model. It returns two
  environment variables and does no computation.
- Rendering, styles, navigation, the image picker, the date picker's
  formatting (dayjs) and `new Date().toISOString()` are not modelled.
  Picked dates and the current time arrive as parameters.
- The dialog's paragraph at screens/ListScreen.js:108 reads
  `selectedPost.fields.shortDescription["en-US"]`. It would throw for a post
  without a short description. This is rendering and is not modelled.
- React's re-render rules are not modelled, for example `setPosts(posts)`
  passing the same array at screens/ListScreen.js:40. Only the resulting
  data is modelled.
- `console.log` and `console.error` on failures are not modelled.
- QueryString.EncodeURIComponent: a Dafny `char` is a Unicode scalar value,
  while a JavaScript string is a sequence of UTF-16 code units. A lone
  surrogate, for which `encodeURIComponent` throws a URIError, therefore
  cannot occur in the model, and that error path is not modelled.
