# SMH social-media manager: a Dafny model of its core rules

SMH lets a user connect Facebook, X (Twitter), LinkedIn and Instagram accounts. The user writes one post with a text per platform, publishes it now or schedules it, moves scheduled posts on a calendar, and reads analytics about the best times to post. This project models the rules at the heart of that system and proves properties about them:

- **`PostService`** (back end): publishing.
  - Which platforms a post is sent to, and in what order.
  - Each platform's request sequence: Facebook, X with media upload, LinkedIn's register/upload/post sequence, and Instagram's create/publish.
  - How the outcomes combine, and the lookup of the character limits.
- **`CreatePost`** (front end, the composer).
  - The per-platform texts and the shared "Initial content".
  - Hashtag and emoji insertion at the cursor, and the selected platforms.
  - The checks a submission must pass, and the request it sends.
- **`Planner`** (front end, the calendar).
  - Scheduled posts expanded into one event per platform, and title truncation.
  - The month/year toolbar.
  - The confirm/cancel dialog after dragging an event.
- **`CredSlice`** (front end store): the `auth` slice and its three reducers.
- **`Analytics`** (back end): the best posting times.
  - The ranking and the top-three cut per platform.
  - Day names and the 12-hour clock.
- **`Connect`** and **`ProfileDetails`** (front end): connecting accounts and the profile panel.
  - The already-connected check, the Next gate and the routing after it.
  - The Facebook page picker.
  - Saving the name and removing an account.
  - Account labels and icons.
- **`TextUtil`**, **`Accounts`** and **`Wrappers`**: shared string helpers, the account shapes, and `Option`/`Result`.

Code that changes state step by step is written as a class whose fields are the component's state hooks or the store's state:

- `CreatePost.Composer`, `Planner.Calendar`, `CredSlice.AuthStore`, `Connect.ConnectPage` and `ProfileDetails.ProfilePanel`.
- Each handler is a method whose postcondition ties the new state to a function of the old one. The lemmas are proved about that function.
- The publishing adapters are methods that return their outcome and the list of requests they sent.

The following are parameters of the model:

- Every remote endpoint, given as a function from request to response.
- The files on disk.
- The current time, and date parsing.
- What the server answers.

## Model

| member | source | states |
|---|---|---|
| PostService.PostToFacebook | backend/src/postProviders/post.service.ts:52-74 | no image path: fails before any request; a URL is sent as `url`, a path as `source`, with message and token; the outcome is the endpoint's answer |
| PostService.PostToTwitter | backend/src/postProviders/post.service.ts:77-173 | without an image only the tweet is sent; a file not on disk fails before any request; with a file the media upload runs first and a failed or id-less upload stops; the tweet carries the text, and the media id when one was obtained, and is always the last request |
| PostService.PostToLinkedIn | backend/src/postProviders/post.service.ts:178-247 | the register-upload request comes first; a failed or upload-URL-less registration stops; otherwise the upload then the UGC post follow, 1 to 3 requests in that order |
| PostService.PostToInstagram | backend/src/postProviders/post.service.ts:249-257 | media creation first; publishing uses the returned creation id; a failure stops the sequence |
| PostService.Combine | backend/src/postProviders/post.service.ts:278 | `Promise.all`: success iff every outcome succeeded, with the results in order; otherwise the error of one failed outcome |
| PostService.Invoke | backend/src/postProviders/post.service.ts:262-276 | the outcome and requests are those of the platform's adapter run on the call (`Run`); Facebook without an image fails with no request |
| PostService.DispatchTo | backend/src/postProviders/post.service.ts:262-276 | one `if (content.x)` block: raises exactly for LinkedIn/Instagram with text and no image of either kind; the call made equals `CallFor`, and its outcome and requests are those of its adapter |
| PostService.PublishToAllPlatforms | backend/src/postProviders/post.service.ts:259-279 | the calls made are `Dispatched`; the outcomes are each call's adapter outcome in dispatch order and the requests are each call's requests, call after call (`RunAll`); the result is the library-image error when dispatch raises, else the combination of the outcomes |
| PostService.RunAll | backend/src/postProviders/post.service.ts:262-278 | one outcome per call, in order, each that of the call's adapter; running two batches one after the other equals running them joined |
| PostService.CallsForWanted | backend/src/postProviders/post.service.ts:262-276 | every call made is for a listed platform that is wanted (its text truthy and, for LinkedIn and Instagram, some image there), and carries that text, token and image |
| PostService.CallsForOrdered | backend/src/postProviders/post.service.ts:262-276 | calls follow the platform order, at most one per platform |
| PostService.CallsForComplete | backend/src/postProviders/post.service.ts:262-276 | a listed platform gets a call iff it is wanted: its text is truthy and, for LinkedIn and Instagram, a local or library image is there |
| PostService.DispatchedCalls | backend/src/postProviders/post.service.ts:259-279 | at most four calls, in Facebook, Twitter, LinkedIn, Instagram order; each carries `content[platform]` and that platform's token; a platform is called iff its text is truthy and, for LinkedIn and Instagram, a local or library image is there |
| PostService.FetchCharacterLimits | backend/src/postProviders/post.service.ts:27-37 | the limits of the stored configuration; a missing document or a database error gives an error message with the fixed prefix |
| CreatePost.Broadcast | src/pages/user/CreatePost.tsx:82-87 | exactly the four platform keys, all mapped to the same text |
| CreatePost.Written | src/pages/user/CreatePost.tsx:249-262 | the shown text becomes the new text; in initial mode all four texts and the initial content, on a platform tab only that entry |
| CreatePost.TextChanged | src/pages/user/CreatePost.tsx:245-263 | the shown text is the new value and the cursor is the selection start; the tab is kept; in initial mode all four texts become the new value; on a platform tab the initial content and the other entries are kept |
| CreatePost.HashtagSelected | src/pages/user/CreatePost.tsx:222-242 | `#tag ` is inserted at the clamped cursor of the shown text; the cursor advances by the tag length plus 2; in initial mode all four texts become the new initial content; on a platform tab the initial content and the other entries are kept |
| CreatePost.HashtagCursor | src/pages/user/CreatePost.tsx:225-226 | after a hashtag the text up to the new cursor ends with `#tag ` when the cursor was within the text |
| CreatePost.Overwritten | src/pages/user/CreatePost.tsx:360-370 | `{...text, facebook: t, ...}`: the four keys get the text, any other key keeps its value |
| CreatePost.EmojiClicked | src/pages/user/CreatePost.tsx:353-379 | no emoji, or an empty one, changes nothing; otherwise it is inserted at the clamped cursor, which advances by its length; in initial mode the four texts are overwritten with the new initial content; on a platform tab the initial content and the other entries are kept |
| CreatePost.EmojiTwice | src/pages/user/CreatePost.tsx:353-379 | two emoji in a row appear one after the other at the original cursor |
| CreatePost.InitialEditsBroadcast | src/pages/user/CreatePost.tsx:228-235 | in initial mode every edit leaves all four platform texts equal to the initial content |
| CreatePost.RemoveAll | src/pages/user/CreatePost.tsx:393-395 | the removed value no longer occurs; every other value keeps its number of occurrences |
| CreatePost.RemoveAllAppend | src/pages/user/CreatePost.tsx:393-395 | filtering distributes over concatenation, so order is kept |
| CreatePost.RemoveAllAbsent | src/pages/user/CreatePost.tsx:393-395 | removing an absent value leaves the list unchanged |
| CreatePost.Toggled | src/pages/user/CreatePost.tsx:527-529 | a selected provider is removed, an unselected one appended |
| CreatePost.ToggleTwice | src/pages/user/CreatePost.tsx:527-529 | ticking a box twice restores the selection |
| CreatePost.Validate | src/pages/user/CreatePost.tsx:161-185 | each rejection holds iff its check fails and every earlier check passed: blank content, then Instagram without an image, then a schedule not in the future |
| CreatePost.FilterContent | src/pages/user/CreatePost.tsx:189-194 | keys are the text keys that are selected; values are unchanged |
| CreatePost.ImageFor | src/pages/user/CreatePost.tsx:201-206 | the local file wins, else the library image, else nothing is uploaded |
| CreatePost.EndpointFor | src/pages/user/CreatePost.tsx:208-214 | the schedule endpoint iff a scheduled time is set, carrying that time |
| CreatePost.AcceptedSubmission | src/pages/user/CreatePost.tsx:159-214 | an accepted submission has some non-blank text, an image when Instagram is selected, and a schedule that, when it parses, is after `now` |
| CreatePost.FilteredDispatch | src/pages/user/CreatePost.tsx:189-194 | in the content sent, a platform's entry is truthy, so the back end publishes to it, iff it was selected and its text is non-empty |
| CreatePost.Submitted | src/pages/user/CreatePost.tsx:159-219 | a rejection only sets its message and sends nothing; otherwise the filtered content, image and endpoint are sent and the success modal opens iff the server accepts |
| CreatePost.Composer.constructor | src/pages/user/CreatePost.tsx:63-98 | initial state: nothing selected, "Initial content" shown, four empty texts |
| CreatePost.Composer.HandleTextChange | src/pages/user/CreatePost.tsx:245-263 | the new state is `TextChanged` of the old |
| CreatePost.Composer.HandleHashtagSelect | src/pages/user/CreatePost.tsx:222-242 | the new state is `HashtagSelected` of the old |
| CreatePost.Composer.HandleEmojiClick | src/pages/user/CreatePost.tsx:353-379 | the new state is `EmojiClicked` of the old |
| CreatePost.Composer.HandleToggleChange | src/pages/user/CreatePost.tsx:572-576 | a null toggle is ignored; otherwise only the tab changes |
| CreatePost.Composer.HandleCheckbox | src/pages/user/CreatePost.tsx:527-529 | the selection becomes `Toggled` of the old one |
| CreatePost.Composer.HandleRemoveOption | src/pages/user/CreatePost.tsx:393-395 | the selection becomes `RemoveAll` of the old one |
| CreatePost.Composer.HandleSchedule | src/pages/user/CreatePost.tsx:128-130 | only the scheduled time changes |
| CreatePost.Composer.HandleFileInputChange | src/pages/user/CreatePost.tsx:295-301 | a chosen file replaces the library image; no file changes nothing |
| CreatePost.Composer.HandleLibraryImageSelect | src/pages/user/CreatePost.tsx:289-293 | a library image replaces the local file |
| CreatePost.Composer.HandleSubmit | src/pages/user/CreatePost.tsx:159-219 | the new state and the request sent are `Submitted` of the old state |
| Planner.Lookup | src/pages/user/Planner.tsx:177 | `post.content[platform]`: found iff the key is present, with its value |
| Planner.Title | src/pages/user/Planner.tsx:177 | the platform's text when non-empty, else the first content value, undefined only for empty content without the key |
| Planner.EventFor | src/pages/user/Planner.tsx:175-186 | id `postId-platform`; start, image, user, status and job copied; title from `Title` |
| Planner.ExpandCount | src/pages/user/Planner.tsx:174-187 | `flatMap`: one event per (post, platform) pair |
| Planner.ExpandIndex | src/pages/user/Planner.tsx:174-187 | the event of post i, platform j sits at the number of earlier pairs plus j |
| Planner.ExpandSound | src/pages/user/Planner.tsx:174-187 | every event is the event of some post and one of its platforms |
| Planner.TruncateText | src/pages/user/Planner.tsx:317-319 | short text unchanged; longer text cut to the limit with `...` appended |
| Planner.TruncateIdempotent | src/pages/user/Planner.tsx:317-319 | truncating twice is truncating once |
| Planner.FirstOfMonth | src/pages/user/Planner.tsx:277 | `new Date(y, m, 1)`: day 1, month normalised into 0..11, years 0..99 read as 1900+y |
| Planner.FirstOfMonthCarries | src/pages/user/Planner.tsx:277 | month overflow carries into the year: year*12+month is preserved |
| Planner.MonthChanged | src/pages/user/Planner.tsx:275-279 | keeps the year, sets the month, first day |
| Planner.YearChanged | src/pages/user/Planner.tsx:281-285 | keeps the month, sets the year, first day |
| Planner.NavigateTo | src/pages/user/Planner.tsx:31 | choosing a month then a year of the toolbar's range lands on the first of that month and year |
| Planner.DragStarted | src/pages/user/Planner.tsx:208-210 | remembers the dragged event; starts, readiness, pending reschedule and dialog are kept |
| Planner.Dropped | src/pages/user/Planner.tsx:212-218 | the event moves to its new start, the others stay; the pending reschedule records job, time and the dragged event; the dialog opens; the store's ids are the old ones plus the dropped id; readiness and the dragged event are kept |
| Planner.Reverted | src/pages/user/Planner.tsx:234-236 | only the original event goes back to its original start |
| Planner.Confirmed | src/pages/user/Planner.tsx:221-242 | the dialog closes; the reschedule request is sent iff one is pending; a rejected one reverts the event when it can; readiness and the dragged event are kept |
| Planner.Cancelled | src/pages/user/Planner.tsx:244-251 | reverts and closes the dialog; raises, changing nothing, when the original event cannot be found; readiness and the dragged event are kept |
| Planner.DragThenCancelRestores | src/pages/user/Planner.tsx:208-251 | drag, drop, cancel restores every start |
| Planner.DragThenConfirm | src/pages/user/Planner.tsx:208-242 | drag, drop, confirm sends the job and new time; a rejection restores every start |
| Planner.Calendar.constructor | src/pages/user/Planner.tsx:156-164 | no events, today selected, no dialog |
| Planner.Calendar.LoadPosts | src/pages/user/Planner.tsx:172-191 | with data the events become `ExpandPosts` and the calendar's store holds their starts (`StartsOf`); without, nothing changes |
| Planner.Calendar.AttachCalendar | src/pages/user/Planner.tsx:597-599 | the ref callback hands over the calendar API: the board becomes ready, the toolbar date follows the calendar, events are kept |
| Planner.StartsOf | src/pages/user/Planner.tsx:560 | `events={events}`: every event's id is in the store, and every stored id maps to the start of an event with that id |
| Planner.LoadedDragThenCancel | src/pages/user/Planner.tsx:172-251 | on a ready calendar loaded from posts, dragging any event, dropping it and cancelling does not raise and restores every start |
| Planner.Calendar.HandleMonthChange | src/pages/user/Planner.tsx:275-279 | the selected date becomes `MonthChanged` |
| Planner.Calendar.HandleYearChange | src/pages/user/Planner.tsx:281-285 | the selected date becomes `YearChanged` |
| Planner.Calendar.HandleEventDragStart | src/pages/user/Planner.tsx:208-210 | the board becomes `DragStarted` |
| Planner.Calendar.HandleEventDrop | src/pages/user/Planner.tsx:212-218 | the board becomes `Dropped` |
| Planner.Calendar.HandleConfirmReschedule | src/pages/user/Planner.tsx:221-242 | board and request are `Confirmed` |
| Planner.Calendar.HandleCancelReschedule | src/pages/user/Planner.tsx:244-251 | board and raise flag are `Cancelled` |
| CredSlice.WithAccount | src/features/auth/CredSlice.ts:26-30 | the provider's entry becomes exactly name and picture; other entries, name and email kept |
| CredSlice.Reduce | src/features/auth/CredSlice.ts:16-41 | setCredentials stores the payload; updateUser keeps the tokens, is a no-op when signed out and, when signed in, gives `WithAccount` of the user; logout clears all three |
| CredSlice.UpdateUserAccountCount | src/features/auth/CredSlice.ts:24-33 | after updateUser the provider is connected, and the count grows by one iff it was new |
| CredSlice.UpdateUserIdempotent | src/features/auth/CredSlice.ts:24-33 | dispatching the same updateUser twice equals once |
| CredSlice.LogoutIdempotent | src/features/auth/CredSlice.ts:34-41 | logging out twice equals once |
| CredSlice.AuthStore.constructor | src/features/auth/CredSlice.ts:12-14 | the store starts in the given initial state |
| CredSlice.AuthStore.SetCredentials | src/features/auth/CredSlice.ts:16-23 | the new state is `Reduce` of the old by setCredentials |
| CredSlice.AuthStore.UpdateUser | src/features/auth/CredSlice.ts:24-33 | the new state is `Reduce` of the old by updateUser |
| CredSlice.AuthStore.Logout | src/features/auth/CredSlice.ts:34-41 | the new state is `Reduce` of the old by logout |
| Analytics.Rem12 | backend/src/analytics/analytics.service.ts:129 | JavaScript `%` by 12: the usual remainder for non-negative hours, a non-positive one otherwise |
| Analytics.ClockHour | backend/src/analytics/analytics.service.ts:129 | the remainder by 12, with 12 in place of 0: never 0; for non-negative hours in 1..12 and congruent to the hour |
| Analytics.Period | backend/src/analytics/analytics.service.ts:128 | AM iff the hour is below 12, PM otherwise |
| Analytics.FormatHour | backend/src/analytics/analytics.service.ts:127-131 | the clock hour, a space, and the period |
| Analytics.FormatHourRoundTrip | backend/src/analytics/analytics.service.ts:127-131 | every hour 0..23 is read back from its formatted text |
| Analytics.GetDayName | backend/src/analytics/analytics.service.ts:122-125 | defined iff the day is 1..7, then `days[day - 1]` |
| Analytics.DayNameRoundTrip | backend/src/analytics/analytics.service.ts:122-125 | the day number is read back from its name |
| Analytics.Insert | backend/src/analytics/analytics.service.ts:94 | inserting keeps every slot and adds one |
| Analytics.InsertRanked | backend/src/analytics/analytics.service.ts:94 | inserting into a ranked list keeps it ranked |
| Analytics.SortSlots | backend/src/analytics/analytics.service.ts:94 | the sort is a permutation |
| Analytics.SortRanked | backend/src/analytics/analytics.service.ts:94 | the sort ranks by engagement, then post count, descending |
| Analytics.OfPlatform | backend/src/analytics/analytics.service.ts:96-99 | the group holds exactly the platform's slots, with their multiplicities |
| Analytics.OfPlatformRanked | backend/src/analytics/analytics.service.ts:94-99 | grouping a ranked list keeps the group ranked |
| Analytics.OfPlatformPermutation | backend/src/analytics/analytics.service.ts:94-99 | permuted inputs give permuted groups |
| Analytics.TopThree | backend/src/analytics/analytics.service.ts:94-104 | the kept slots: min(3, n) of the platform's slots, ranked, of that platform, and ranked at least as high as every slot left out |
| Analytics.BestPostingTimes | backend/src/analytics/analytics.service.ts:96-104 | one group for each platform that has slots, holding `BestTimesFor` that platform |
| Analytics.BestPostingTimesKeepBest | backend/src/analytics/analytics.service.ts:94-104 | each platform's group is its top three slots: ranked, of that platform, and ranked at least as high as every slot left out |
| Analytics.FormatBestTimes | backend/src/analytics/analytics.service.ts:109-117 | one entry per group, in order, each slot formatted in place |
| Analytics.FormatTimeRecoverable | backend/src/analytics/analytics.service.ts:109-131 | day and hour are read back from the formatted slot; counts are copied |
| Connect.SocialLogin | frontend/src/pages/user/Connect.tsx:30-39 | a connected provider only gets "Already connected"; any other is redirected to its login on the back end; nothing else changes |
| Connect.SocialLoginTarget | frontend/src/pages/user/Connect.tsx:32-36 | the redirect names exactly the provider; a connected provider is never redirected |
| Connect.ReadUserParam | frontend/src/pages/user/Connect.tsx:42-68 | a Facebook profile opens the picker on the returned pages, `[]` when absent; otherwise updateUser is dispatched and the route reloaded; a missing or malformed parameter changes nothing; each branch changes only what it names |
| Connect.ReturnedAccountConnected | frontend/src/pages/user/Connect.tsx:54-60 | for a signed-in user the returned provider ends up connected |
| Connect.ProjectPages | frontend/src/pages/user/Connect.tsx:77-80 | same count and order; each page keeps its name and image |
| Connect.ProjectReturned | frontend/src/pages/user/Connect.tsx:77-80 | projection loses nothing that is stored |
| Connect.ModalConfirm | frontend/src/pages/user/Connect.tsx:75-92 | with a Facebook profile: dispatches the projected pages for its provider, closes the picker, reloads, nothing else changes; without: nothing |
| Connect.PickerStoresReturnedPages | frontend/src/pages/user/Connect.tsx:50-92 | confirming the returned pages stores exactly those pages for the profile's provider |
| Connect.Next | frontend/src/pages/user/Connect.tsx:94-102 | disabled: nothing; enabled: one navigation, to /success after sign-up, else /dashboard |
| Connect.TwoConnectionsEnableNext | frontend/src/pages/user/Connect.tsx:134 | connecting two different providers enables Next |
| Connect.LogoutDisablesNext | frontend/src/pages/user/Connect.tsx:134 | with no user Next is disabled |
| Connect.ConnectPage.constructor | frontend/src/pages/user/Connect.tsx:20-28 | initial state: no message, picker closed, nothing navigated |
| Connect.ConnectPage.HandleSocialLogin | frontend/src/pages/user/Connect.tsx:30-39 | the new state is `SocialLogin` of the old |
| Connect.ConnectPage.ReadUser | frontend/src/pages/user/Connect.tsx:42-68 | the page and store states are `ReadUserParam` of the old ones |
| Connect.ConnectPage.HandleModalConfirm | frontend/src/pages/user/Connect.tsx:75-92 | the new state is `ModalConfirm` of the old |
| Connect.ConnectPage.HandleNext | frontend/src/pages/user/Connect.tsx:94-102 | the new state is `Next` of the old |
| ProfileDetails.InitialView | frontend/src/components/ProfileDetails.tsx:32-48 | the user's name, or empty when there is none; not editing, no dialog, nothing selected |
| ProfileDetails.SaveClicked | frontend/src/components/ProfileDetails.tsx:62-83 | an empty name sends nothing; success dispatches the returned name, ends editing, shows success; failure keeps editing as it was, shows an error |
| ProfileDetails.EditClicked | frontend/src/components/ProfileDetails.tsx:58-60 | turns editing on, nothing else |
| ProfileDetails.EditThenSave | frontend/src/components/ProfileDetails.tsx:58-83 | after edit and save editing stays on iff the server fails; the store hears only the server's name |
| ProfileDetails.RemoveClicked | frontend/src/components/ProfileDetails.tsx:85-88 | selects the provider and opens the dialog |
| ProfileDetails.ConfirmRemoved | frontend/src/components/ProfileDetails.tsx:90-113 | nothing selected: returns at once; otherwise sends the removal, dispatches it only on success, reports by provider, and always closes the dialog and clears the selection |
| ProfileDetails.RemoveThenConfirm | frontend/src/components/ProfileDetails.tsx:85-113 | removal is dispatched and reported as success iff the server accepts; the dialog ends closed, nothing selected |
| ProfileDetails.RemovalMessageNamesProvider | frontend/src/components/ProfileDetails.tsx:97-108 | both messages name the provider they concern |
| ProfileDetails.DisplayName | frontend/src/components/ProfileDetails.tsx:221-223 | a Facebook account with pages shows its first page's name, any other its profile name |
| ProfileDetails.Label | frontend/src/components/ProfileDetails.tsx:243 | the display name, or the capitalised provider when that is empty |
| ProfileDetails.LabelNonEmpty | frontend/src/components/ProfileDetails.tsx:243 | a label is empty only when name and provider are; the fallback is the provider with its first letter upper-cased |
| ProfileDetails.GetIcon | frontend/src/components/ProfileDetails.tsx:135-154 | an icon iff the provider is linkedin, facebook, twitter or instagram |
| ProfileDetails.IconRoundTrip | frontend/src/components/ProfileDetails.tsx:142-153 | icons and the four providers correspond one to one |
| ProfileDetails.ProfilePanel.constructor | frontend/src/components/ProfileDetails.tsx:32-48 | the panel starts in `InitialView` |
| ProfileDetails.ProfilePanel.HandleEditClick | frontend/src/components/ProfileDetails.tsx:58-60 | the new state is `EditClicked` of the old |
| ProfileDetails.ProfilePanel.HandleSaveClick | frontend/src/components/ProfileDetails.tsx:62-83 | the new state is `SaveClicked` of the old |
| ProfileDetails.ProfilePanel.HandleRemoveClick | frontend/src/components/ProfileDetails.tsx:85-88 | the new state is `RemoveClicked` of the old |
| ProfileDetails.ProfilePanel.HandleConfirmRemove | frontend/src/components/ProfileDetails.tsx:90-113 | the new state is `ConfirmRemoved` of the old |
| TextUtil.TrimStart | src/pages/user/CreatePost.tsx:161 | drops exactly the leading whitespace |
| TextUtil.TrimEnd | src/pages/user/CreatePost.tsx:161 | drops exactly the trailing whitespace |
| TextUtil.TrimEmptyIffBlank | src/pages/user/CreatePost.tsx:161 | `trim() === ''` iff the text is all whitespace |
| TextUtil.Capitalize | frontend/src/components/ProfileDetails.tsx:243 | same length, first character upper-cased, rest unchanged |
| TextUtil.CapitalizeIdempotent | frontend/src/components/ProfileDetails.tsx:243 | capitalising twice is capitalising once |
| TextUtil.Clamp | src/pages/user/CreatePost.tsx:225 | `slice` clamps the cursor to the text length |
| TextUtil.InsertAt | src/pages/user/CreatePost.tsx:225 | the text before the cursor, the insertion, then the rest; removing the insertion gives the text back |
| TextUtil.InsertNothing | src/pages/user/CreatePost.tsx:225 | inserting nothing changes nothing |
| TextUtil.DecimalRoundTrip | backend/src/analytics/analytics.service.ts:130 | a number's decimal text reads back as that number |

## Left out

- JSX, styling, rendering, snackbar closing and every MUI or FullCalendar setting: these are UI, not logic.
- HTTP, FormData, file streams and the database. Each remote call is an abstract step: a function from request to response, or a boolean or `Option` that says whether the server accepted. The files on disk are a set of paths.
- OAuth 1.0a request signing for X and the OAuth 2.0 login flows: these are foreign library code and network flows.
- `Promise.all` concurrency: the calls are modelled one after another. The combined error is that of the first failure in dispatch order, because which failure wins in the code depends on timing.
- The hashtag API, the link shortener, image cropping and the blob fetch of a library image: these are external helpers the model cannot see.
- Floating point and locale formatting: `toLocaleString`, `toISOString` and the engagement percentages. Average engagement is a `real`, and date parsing is passed in as `parse`.
- localStorage, sessionStorage, timers, console output, and the parsing of `window.location`: the decoding of the `user` parameter is reduced to missing, malformed or decoded.
- The reducers `updatePages`, `removeSocialAccount` and `updateUserName`: their slice is not part of this model. The actions are recorded in order but not applied.
- `handleModalClose`, `handleAddAccountClick`, `handleLogout` and the Instagram token effect on the Connect page: these are UI toggles or timers with no rule to state.
- The other analytics aggregations, and the grouping of posts into slots: the database does both, so the slots are the model's input.
- Analytics.TopThree: MongoDB's `$sort` does not fix the order of slots that tie on both keys. The contract therefore states only the ranking and the top-three cut, not which of several equal slots comes first.
- PostService.PostToLinkedIn: the registration answer is flattened to a map holding `uploadUrl` and `asset` instead of the nested JSON path.
- CreatePost.Composer.HandleSubmit: a failure of the library image download (`urlToFile`) before the request is not modelled. `uploading` is never reset, as in the code.
- Planner.Calendar.HandleConfirmReschedule: the server answer arrives later in the code. The model applies it at once.
- Planner: the FullCalendar event store is a map from event id to start time, and an event API object is a snapshot of its id and start when the drag began.
- TextUtil.Capitalize: `toUpperCase` is modelled for ASCII letters only.
- CreatePost.TextChanged: strings are sequences of Unicode scalar values, not UTF-16 code units, so `selectionStart` and lengths differ from JavaScript for text holding characters outside the Basic Multilingual Plane (most emoji); they agree on other text.
- CreatePost.HashtagSelected: the cursor advance `hashtag.length + 2` counts scalar values, not UTF-16 code units; same limit as above.
- CreatePost.EmojiClicked: an emoji outside the Basic Multilingual Plane counts as one character here but two UTF-16 code units in JavaScript, so the cursor advance differs for it.
- Planner.TruncateText: the 20-character cut counts scalar values, not UTF-16 code units, so it can differ from `substring` on text with characters outside the Basic Multilingual Plane (JavaScript may split a surrogate pair).
- Planner.StartsOf: the store keeps one start per id; when two events share an id the later one wins.
