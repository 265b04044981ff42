# K-Merge front end, modelled in Dafny

K-Merge is a portfolio site for university students. Its React front end browses published works, creates new posts, edits the signed-in user's profile and drives the sign-up and e-mail confirmation flows. Every durable operation sits behind `fetch`. This project models the logic the pages run around those requests and proves properties of it:

- **Browse page** (`src/App.tsx`):
  - the mapping from listed works to cards;
  - the sorted, duplicate-free tag pool;
  - the search, tag and sort pipeline;
  - the tag selection.
- **Post draft** (`src/pages/CreateWork.tsx`):
  - tags, de-duplicated case-insensitively, with suggestion preference;
  - the image list;
  - the submitted body, which splits tags into existing ids and new names;
  - the title guard and the outcome of the request.
- **Profile form** (`src/pages/Editprofile.tsx`):
  - the email, length and Thai-mobile validators, written as string predicates;
  - the PATCH payload;
  - the save gate and the save outcome.
- **Session state**:
  - the auth provider's `user`/`loading` pair, `fetchUser`, `logout` and `useAuth`;
  - the navigation bar's own loader, its menu and the display name;
  - the protected-route gate.
- **Forms and views**:
  - the sign-up outcome;
  - the verify/resend status machine;
  - the work page's hero image and its cancellable load.

A network reply is an input value of `Http.Reply<T>`:

- a response with a status code and a body, whose text is always readable and whose JSON either parses to a `T` or fails with an error message;
- or a rejected request, carrying the thrown error's message.

An async handler is split at its first `await` into two methods:

- `Begin…`/`Start…` runs up to the request and returns what it would send;
- `Finish…`/`Complete…`/`Settle…` takes the reply and runs the rest, `finally` included.

The state in between, such as `loading` being true, is therefore observable. A JavaScript field that is absent, `null` or `""` is written as `""` wherever the source only tests it for truthiness. `Http.OrElse` is the `a || b` fallback.

Modules:

| file | module | models |
|---|---|---|
| wrappers.dfy | Wrappers | `Option`, `Result` |
| seqs.dfy | Seqs | `filter`, `reverse`, `slice`, index removal, subsequences |
| text.dfy | Text | `trim` and its whitespace set, case folding, `includes`, the default string order |
| http.dfy | Http | replies, `res.ok`, `a \|\| b`, decimal rendering of a status |
| browse.dfy | Browse | src/App.tsx |
| create_work.dfy | CreateWork | src/pages/CreateWork.tsx |
| edit_profile.dfy | EditProfile | src/pages/Editprofile.tsx |
| auth_context.dfy | AuthContext | src/contexts/AuthContext.tsx |
| navbar.dfy | Navbar | src/components/Navbar.tsx |
| protected_route.dfy | ProtectedRoute | src/components/ProtectedRoute.tsx |
| register.dfy | Register | src/pages/Register.tsx |
| verify_email.dfy | VerifyEmail | src/pages/VerifyEmail.tsx |
| work_view.dfy | WorkView | src/pages/WorkView.tsx |

## Model

| member | source | states |
|---|---|---|
| Browse.TagNames | src/App.tsx:30 | one name per tag object of the work, in order |
| Browse.CardOf | src/App.tsx:26-32 | the card's id is `workId`, or `id` when `workId` is empty; its title is the work's title and its body the description; its tags are the tag names; it has a thumbnail iff the work's thumbnail is non-empty, and then it is that thumbnail |
| Browse.CardsOf | src/App.tsx:26-32 | one card per listed work, in the same order |
| Browse.TagPool | src/App.tsx:40-44 | the pool is strictly ascending, so it has no duplicates, and a tag is in it iff it appears on some loaded card |
| Browse.SortedFromSet | src/App.tsx:43 | `Array.from(set).sort()` lists exactly the set's elements, strictly ascending |
| Browse.SortedUnique | src/App.tsx:43 | two strictly sorted lists of the same strings are equal, so the pool is determined by its tag set |
| Browse.PoolIndependentOfOrder | src/App.tsx:40-44 | reordering the loaded cards cannot change the tag pool |
| Browse.PoolTagsComeFromWorks | src/App.tsx:26-44 | a tag is on some card iff some listed work has a tag object of that name |
| Browse.Toggle | src/App.tsx:52-58 | toggling flips membership of that one tag and leaves every other tag's membership unchanged |
| Browse.ToggleTwice | src/App.tsx:52-58 | toggling the same tag twice restores the selection |
| Browse.SearchMembers | src/App.tsx:64-75 | with a non-empty normalized query, a card survives the search iff it is loaded and the query occurs in its lowered title, lowered body or one of its lowered tags; an empty query keeps every card |
| Browse.ByTagsMembers | src/App.tsx:78-82 | a card survives the tag filter iff it carries every selected tag, compared exactly |
| Browse.ArrangeMembers | src/App.tsx:85-86 | `newest` keeps the same cards and `featured` only drops cards |
| Browse.VisibleMembers | src/App.tsx:63-88 | under `popular` and `newest` a card is shown iff it is loaded and passes search and tag filter; under `featured` every shown card passes both |
| Browse.UnfilteredShowsAll | src/App.tsx:63-88 | a whitespace-only query, no tags and `popular` show the loaded list unchanged |
| Browse.SearchIgnoresCase | src/App.tsx:64-73 | two queries with the same lower-case form show the same cards |
| Browse.SearchIsSubseq | src/App.tsx:68-75 | the search keeps an order-preserving subsequence |
| Browse.ByTagsIsSubseq | src/App.tsx:78-82 | the tag filter keeps an order-preserving subsequence |
| Browse.VisibleKeepsOrder | src/App.tsx:63-88 | under `popular`/`featured` the result is a subsequence of the loaded cards; under `newest` it is exactly the reverse of the `popular` result |
| Browse.FeaturedIsPrefix | src/App.tsx:86 | `featured` shows min(6, n) cards, and they are the first cards `popular` shows |
| Browse.MoreTagsFewerCards | src/App.tsx:78-82 | a larger selection never shows more cards, in every sort mode; its cards are a subsequence of the smaller selection's before sorting and under popular and newest, but not necessarily under featured |
| Browse.ExampleSelectWeb | src/App.tsx:78-82 | selecting `Web` over two sample works shows exactly the one tagged `Web` |
| Browse.ExampleSearchRobot | src/App.tsx:64-75 | the query `robot` shows exactly `Robot Arm` |
| Browse.ExampleNoResults | src/App.tsx:63-88 | the query `portfolio` with `Hardware` selected shows nothing |
| Browse.Browser.constructor | src/App.tsx:19-49 | no cards, empty query, empty selection, sort `popular` |
| Browse.Browser.Load | src/App.tsx:20-38 | a 2xx reply whose JSON parses installs the mapped works (`null` gives no cards); every failure leaves the cards as they were |
| Browse.Browser.SetQuery | src/App.tsx:118 | the search text becomes the input, nothing else changes |
| Browse.Browser.SetSort | src/App.tsx:164 | the sort mode becomes the choice, nothing else changes |
| Browse.Browser.ToggleTag | src/App.tsx:52-58 | the new selection is `Toggle` of the old one; nothing else changes |
| Browse.Browser.ClearAll | src/App.tsx:60 | the selection is empty, so the Clear-all button is disabled (src/App.tsx:154) |
| Text.Trim | src/App.tsx:64 | `trim` removes only whitespace, yields "" iff the text is all whitespace, and leaves no whitespace at either end |
| Text.TrimIsSlice | src/App.tsx:64 | `trim` returns the slice of the text between the leading and the trailing white space: everything cut before and after it is white space and nothing else is removed |
| Text.TrimLowerCommute | src/App.tsx:64 | trimming and lowering commute, so `q.trim().toLowerCase()` is determined by the lowered query |
| Text.BeforeIrreflexive | src/App.tsx:43 | the default sort order is irreflexive |
| Text.BeforeTransitive | src/App.tsx:43 | the default sort order is transitive |
| Text.BeforeTotal | src/App.tsx:43 | any two different strings are ordered one way or the other |
| Seqs.WithoutIndexSplice | src/pages/CreateWork.tsx:88-89 | `filter((_, i) => i !== idx)` removes exactly index `idx`, and is the identity when `idx` is out of range |
| CreateWork.TagsPartitioned | src/pages/CreateWork.tsx:117-118 | every tag with an id contributes its id to `tagIds`, every tag without one its name to `newTags`, nothing else appears, and the two lists together have one entry per tag (their order is in `TagIdsInOrder` and `NewTagsInOrder`) |
| CreateWork.TagIdsInOrder | src/pages/CreateWork.tsx:117 | `tagIds` is exactly the ids of the tags that have one, in the order of the selected tags |
| CreateWork.NewTagsInOrder | src/pages/CreateWork.tsx:118 | `newTags` is exactly the names of the tags without an id, in the order of the selected tags |
| CreateWork.IdsOf | src/pages/CreateWork.tsx:117 | `.map(t => t.tagId)`: one id per tag, at the same position |
| CreateWork.NamesOf | src/pages/CreateWork.tsx:118 | `.map(t => t.name)`: one name per tag, at the same position |
| CreateWork.ImagesOf | src/pages/CreateWork.tsx:119 | one image per file in file order, `alttext` taken from the file name |
| CreateWork.FindSuggestion | src/pages/CreateWork.tsx:96 | the result is the first suggestion whose name equals the name ignoring case, and is none iff no suggestion matches |
| CreateWork.ChosenTag | src/pages/CreateWork.tsx:96-97 | the appended tag is the matching suggestion with its id and spelling, or else `{name}` with no id; either way its name equals the name ignoring case |
| CreateWork.AppendKeepsDistinct | src/pages/CreateWork.tsx:95-97 | appending a tag that matches no selected tag ignoring case keeps the names pairwise distinct |
| CreateWork.AddingChosenKeepsDistinct | src/pages/CreateWork.tsx:92-100 | the tag `addTagByName` picks for a name no selected tag has, ignoring case, can be appended without two tags sharing a name ignoring case |
| CreateWork.FilterKeepsDistinct | src/pages/CreateWork.tsx:101 | removing tags keeps the names pairwise distinct |
| CreateWork.RemoveTagEffect | src/pages/CreateWork.tsx:101 | `removeTag` keeps, in order, exactly the tags whose name differs from the argument (case-sensitive) |
| CreateWork.SubmitMessage | src/pages/CreateWork.tsx:127-140 | 401 gives the log-in prompt; another failure status gives the response text; a 2xx reply with a parsed body gives the created message; a 2xx reply whose body does not parse, and a thrown error, give the error's message, or the generic one when that message is empty |
| CreateWork.PostDraft.constructor | src/pages/CreateWork.tsx:14-30 | an empty draft with status `draft`, no message and not submitting, satisfying the distinct-names invariant |
| CreateWork.PostDraft.SetTitle | src/pages/CreateWork.tsx:168 | the title becomes the input; nothing else changes |
| CreateWork.PostDraft.SetQuery | src/pages/CreateWork.tsx:221 | the tag query becomes the input; nothing else changes |
| CreateWork.PostDraft.SuggestTimerFired | src/pages/CreateWork.tsx:33-54 | a blank query clears the suggestions without a request; otherwise the suggestions are replaced only by a 2xx JSON reply of an uncancelled cycle; every field not named here, the description and status included, is unchanged |
| CreateWork.PostDraft.AddTagByName | src/pages/CreateWork.tsx:92-100 | a blank name, or one matching a selected tag ignoring case, changes nothing; otherwise exactly `ChosenTag` is appended at the end and the query and suggestions are cleared; the distinct-names invariant is kept; every field not named here, the description and status included, is unchanged |
| CreateWork.PostDraft.RemoveTag | src/pages/CreateWork.tsx:101 | the tags become the filtered list; the invariant is kept; every other field, the description and status included, is unchanged |
| CreateWork.PostDraft.AddFile | src/pages/CreateWork.tsx:60-62 | a read file is appended at the end of the image list; every field not named here, the description and status included, is unchanged |
| CreateWork.PostDraft.RemoveImage | src/pages/CreateWork.tsx:88-89 | only index `idx` is dropped, the rest keep their order, and an out-of-range index changes nothing; every field not named here, the description and status included, is unchanged |
| CreateWork.PostDraft.BeginSubmit | src/pages/CreateWork.tsx:104-120 | a title that trims to nothing sets the title message and sends nothing; otherwise submitting starts, the message clears and the body has the trimmed title, the partitioned tags and the images; with `canSubmit` a body is always sent |
| CreateWork.PostDraft.FinishSubmit | src/pages/CreateWork.tsx:121-143 | the message is `SubmitMessage`; navigation to `/works/<workId or id>` happens iff the reply is 2xx with a parsed body; submitting ends; every field not named here, the description and status included, is unchanged |
| EditProfile.EmailPatternMeaning | src/pages/Editprofile.tsx:27-30 | the email pattern holds iff there is exactly one `@`, not at the start, no whitespace, and a `.` after the `@` with text on both sides |
| EditProfile.ExampleEmails | src/pages/Editprofile.tsx:27-30 | "" and `a@b.co` are valid; `a@b` and `@b.co` are not |
| EditProfile.LengthRulesIgnorePadding | src/pages/Editprofile.tsx:31-43 | surrounding whitespace never changes the full-name (≥ 2), username (0 or ≥ 2) or about (0 or ≥ 10) verdict; an all-whitespace value fails only the full-name rule |
| EditProfile.StripSeparators | src/pages/Editprofile.tsx:47 | the cleaned phone contains no whitespace and no `-` |
| EditProfile.StripIgnoresSeparator | src/pages/Editprofile.tsx:47 | an inserted whitespace character or dash disappears when the phone is cleaned |
| EditProfile.SeparatorKeepsPhoneValidity | src/pages/Editprofile.tsx:44-48 | inserting a space or dash anywhere into a non-empty phone keeps its verdict |
| EditProfile.BlankPhoneIsNotEmptyPhone | src/pages/Editprofile.tsx:46-47 | "" is valid but a single space is not, because the emptiness test comes before cleaning |
| EditProfile.DigitsAreStripped | src/pages/Editprofile.tsx:47 | a digit string is left unchanged by cleaning |
| EditProfile.LocalMobileValid | src/pages/Editprofile.tsx:44-48 | ten digits starting `06`, `08` or `09` form a valid phone |
| EditProfile.OtherPrefixInvalid | src/pages/Editprofile.tsx:44-48 | ten digits starting `0` and another operator digit are rejected |
| EditProfile.DashedMobileValid | src/pages/Editprofile.tsx:44-48 | the same number written `0XX-XXX-XXXX` is valid |
| EditProfile.DashesAreStripped | src/pages/Editprofile.tsx:47 | dashes inserted after the third and sixth characters of a number do not change what cleaning the phone gives |
| EditProfile.StrippedPhoneIsTrimmed | src/pages/Editprofile.tsx:145 | the trailing `.trim()` on a cleaned phone changes nothing |
| EditProfile.BuildPayload | src/pages/Editprofile.tsx:142-149 | only `displayName`, `bio`, `contact`, `avatar` can appear; each of the first three is present iff its cleaned value is non-empty and then holds it (trimmed name, trimmed about text, phone without whitespace and dashes); `avatar` is present iff one is set |
| EditProfile.PutIfNonEmpty | src/pages/Editprofile.tsx:146-149 | an assignment guarded by its value: a non-empty value is stored under its key, an empty one leaves the payload as it is |
| EditProfile.NameAndAboutDoNotGateSave | src/pages/Editprofile.tsx:264 | an invalid full name or about text still leaves the save button enabled; only prefill, loading, email and phone gate it |
| EditProfile.NameAndAboutNeverGateSave | src/pages/Editprofile.tsx:264 | for any full names and about texts, two forms that agree on the loading flags, the email and the phone agree on whether the save button is disabled |
| EditProfile.SaveResultAsWritten | src/pages/Editprofile.tsx:157-164 | as written, every outcome shows the error alert and never navigates |
| EditProfile.SaveResultOf | src/pages/Editprofile.tsx:157-164 | intended: navigation to `/profile` with the saved alert iff the PATCH reply is 2xx; otherwise the error alert |
| EditProfile.SaveResultDiscrepancy | src/pages/Editprofile.tsx:159 | on a 200 reply the written code shows the error alert while the intended one shows success and navigates |
| EditProfile.ProfileForm.constructor | src/pages/Editprofile.tsx:18-25 | name and email from the signed-in user, empty about and phone, no avatar, not loading, prefill pending |
| EditProfile.ProfileForm.BeginSave | src/pages/Editprofile.tsx:138-156 | loading starts and the payload sent obeys the `BuildPayload` contract for the current fields |
| EditProfile.ProfileForm.FinishSave | src/pages/Editprofile.tsx:157-167 | the corrected handler (see Findings): the outcome is `SaveResultOf` the reply, not the as-written `SaveResultAsWritten`, and loading ends |
| AuthContext.FetchedUser | src/contexts/AuthContext.tsx:25-36 | a user results iff the reply is 2xx, not 401, with a parsed body that has a user, and it is that user |
| AuthContext.FailuresSignOut | src/contexts/AuthContext.tsx:26-36 | a 401, any other failure status and a rejected request all leave no user |
| AuthContext.AuthProvider.constructor | src/contexts/AuthContext.tsx:19-20 | no user and `loading` true |
| AuthContext.AuthProvider.Value | src/contexts/AuthContext.tsx:57 | the context value carries the current user and loading flag |
| AuthContext.AuthProvider.BeginFetchUser | src/contexts/AuthContext.tsx:22-25 | loading starts; the user is untouched |
| AuthContext.AuthProvider.CompleteFetchUser | src/contexts/AuthContext.tsx:25-39 | the user becomes `FetchedUser` of the reply and loading ends, whatever the outcome |
| AuthContext.AuthProvider.Logout | src/contexts/AuthContext.tsx:42-45 | any returned response clears the user whatever its status; a rejected request leaves the user unchanged |
| AuthContext.UseAuth | src/contexts/AuthContext.tsx:63-68 | inside a provider the context value is returned; outside one the error "useAuth must be used within an AuthProvider" results |
| ProtectedRoute.Gate | src/components/ProtectedRoute.tsx:8-12 | loading shows the placeholder whatever the user; not loading with a user shows the child routes; without a user it redirects to `/login`, replacing the history entry; the three cases are exclusive and exhaustive |
| ProtectedRoute.InitialStateWaits | src/components/ProtectedRoute.tsx:8-10 | the gate over a newly constructed `AuthProvider`'s value shows the placeholder, never a redirect |
| ProtectedRoute.GateAfterFetch | src/components/ProtectedRoute.tsx:6-12 | after a completed check the child routes show iff the server answered 2xx with a user; every other reply redirects to `/login` |
| Navbar.LoadedUser | src/components/Navbar.tsx:23-29 | a user results iff the reply is 2xx with a parsed body that has a user; every other status, 401 included, and every error give none |
| Navbar.DisplayName | src/components/Navbar.tsx:71 | the first non-empty of full name, name, email, else "User"; never empty |
| Navbar.Initial | src/components/Navbar.tsx:72 | exactly one character: the display name's first, upper-cased |
| Navbar.ExampleInitials | src/components/Navbar.tsx:71-72 | no user gives `U`; a user with only the email `bee@k.th` gives `B` |
| Navbar.NavbarState.constructor | src/components/Navbar.tsx:14-16 | menu closed, loading, no user |
| Navbar.NavbarState.BeginLoad | src/components/Navbar.tsx:20-23 | loading starts; user and menu untouched |
| Navbar.NavbarState.CompleteLoad | src/components/Navbar.tsx:23-32 | the user becomes `LoadedUser` of the reply and loading ends |
| Navbar.NavbarState.SignOut | src/components/Navbar.tsx:65-69 | once the logout request returns, the user is gone and the menu is closed; a rejected request changes nothing |
| Navbar.NavbarState.ToggleMenu | src/components/Navbar.tsx:103 | the menu flips |
| Navbar.NavbarState.PathnameChanged | src/components/Navbar.tsx:36 | the menu closes |
| Navbar.NavbarState.KeyDown | src/components/Navbar.tsx:43 | Escape closes the menu; other keys leave it |
| Navbar.NavbarState.MouseDown | src/components/Navbar.tsx:39-42 | with the menu mounted (not loading and signed in), a press outside closes it and one inside does not; with no menu mounted nothing changes |
| Register.OutcomeOf | src/pages/Register.tsx:40-50 | exactly one of error and message is set; a redirect to `/login` after 3000 ms is scheduled iff the message is set, which happens iff the reply is 2xx with a parsed body; the message is the body's or the default; a failure status gives the body's message or "Registration failed."; a body that does not parse gives its parse error and a rejected request its error, whatever the status |
| Register.RegisterForm.constructor | src/pages/Register.tsx:10-20 | empty fields, no error or message, not loading |
| Register.RegisterForm.BeginSubmit | src/pages/Register.tsx:22-38 | both notices clear; a mismatched confirmation sets "Passwords do not match.", sends nothing and leaves loading alone; otherwise loading starts and exactly `full_name`, `email`, `password` are sent |
| Register.RegisterForm.FinishSubmit | src/pages/Register.tsx:40-53 | error, message and redirect follow `OutcomeOf`; loading ends |
| VerifyEmail.VerifyOutcome | src/pages/VerifyEmail.tsx:22-33 | success with the fixed confirmation iff the reply is 2xx; otherwise error with the response text or "Verification failed" (the rejection message or "Verification failed." for a rejected request); the message is never empty |
| VerifyEmail.ResendFailure | src/pages/VerifyEmail.tsx:53-55 | the thrown message is the body's `message`, else the serialised body, else `Status <code>`; never empty |
| VerifyEmail.ResendOutcome | src/pages/VerifyEmail.tsx:49-62 | success with the fixed sent message iff the reply is 2xx; otherwise error with `ResendFailure`, or the rejection's message or the fallback |
| VerifyEmail.VerifyPage.constructor | src/pages/VerifyEmail.tsx:9-14 | status `idle`, no message, the email from the URL, not pending |
| VerifyEmail.VerifyPage.StartVerify | src/pages/VerifyEmail.tsx:16-20 | with no token nothing changes and nothing is requested; otherwise status `verifying` and the message clears |
| VerifyEmail.VerifyPage.FinishVerify | src/pages/VerifyEmail.tsx:21-33 | status and message follow `VerifyOutcome` |
| VerifyEmail.VerifyPage.BeginResend | src/pages/VerifyEmail.tsx:37-47 | an empty email gives status `error` with the prompt, sends nothing and leaves pending; otherwise pending, `verifying`, message cleared, email sent |
| VerifyEmail.VerifyPage.FinishResend | src/pages/VerifyEmail.tsx:48-65 | status and message follow `ResendOutcome`; pending ends |
| WorkView.Hero | src/pages/WorkView.tsx:31-34 | the active item's URL when the list is non-empty and the item has one; otherwise the thumbnail; "" without data; always one of these strings |
| WorkView.LoadResult | src/pages/WorkView.tsx:20-23 | success iff 2xx with a parsed body; a failure status gives the response text, a 2xx body that does not parse its parse error, and a rejected request its error, each replaced by "Failed to load" when empty; every failure message is non-empty |
| WorkView.LoadRun.constructor | src/pages/WorkView.tsx:16 | a new run is not cancelled |
| WorkView.LoadRun.Cancel | src/pages/WorkView.tsx:28 | the cleanup sets the run's flag |
| WorkView.WorkPage.constructor | src/pages/WorkView.tsx:10-13 | no data, loading, no error, first media item active |
| WorkView.WorkPage.StartLoad | src/pages/WorkView.tsx:16-20 | a fresh uncancelled run; loading starts |
| WorkView.WorkPage.SettleLoad | src/pages/WorkView.tsx:20-26 | a cancelled run writes nothing; otherwise data (on success) or error (on failure) is set and loading ends |
| WorkView.SwitchWork | src/pages/WorkView.tsx:15-29 | after switching works, the first run's late reply is ignored whatever it was: a successful second reply sets the work and leaves the error as it was, a failed one sets its error and leaves the work as it was; loading ends and the active image is unchanged |

## Left out

- Case folding: `toLowerCase`/`toUpperCase` are modelled as ASCII folds (`Text.LowerChar`, `Text.UpperChar`). Letters outside ASCII, such as Thai or accented Latin, are left as they are. Both sides of every comparison use the same fold.
- String length and order: a `string` is a sequence of Unicode scalar values. JavaScript counts lengths, `slice(0, 1)` and the default `sort()` in UTF-16 code units. The two agree except on characters outside the Basic Multilingual Plane.
- Requests: `fetch`, `src/lib/api.ts` and JSON parsing are not modelled. Replies are inputs. `apiGet`'s rule (a failure status throws the response text) is folded into `WorkView.LoadResult`.
- Body shapes: a non-string `message`, a `null` JSON body where a field is read (a TypeError), and extra fields of bodies are not modelled. Only the fields the logic reads are kept.
- PostDraft.FinishSubmit: a reply with neither `workId` nor `id` navigates to `/works/undefined` in the source but to `/works/` in the model, because an absent id is modelled as "".
- Timers: the 180 ms debounce of the tag suggestions and the 3000 ms redirect after sign-up are not modelled. The debounce is reduced to `SuggestTimerFired` with the `cancelled` flag as an input. The redirect is returned as a `Scheduled` value.
- Concurrency: the interleaving of overlapping async handlers and React's batching of state updates are not modelled. Each handler runs on the state its render saw. For example, two `addTagByName` calls inside one batch would both test the same stale `tags`.
- CreateWork file reading and drag-and-drop (src/pages/CreateWork.tsx:57-86) are not modelled. They are `FileReader` and DOM class-list callbacks; only the `onload` append is modelled, as `AddFile`.
- CreateWork's description and status inputs are not modelled as separate handlers. They only feed the submitted body.
- Editprofile `compressImage`, `onImage` and `clearImage` (src/pages/Editprofile.tsx:74-136) are not modelled. They use canvas, floating-point scaling and lossy JPEG encoding; `ProfileForm.avatar` is taken as given.
- src/pages/Editprofile.tsx:36-39, the `alert`/`return` placed between hooks, is not modelled. It is a hook-order defect, not validation.
- The Editprofile prefill effect (src/pages/Editprofile.tsx:51-71) is not modelled. `prefillLoading` is a field only.
- `refetchUser` is not part of this model. The auth context does not provide it; see Findings. `EditProfile.SaveResultOf` models the intended outcome without the user reload it would trigger.
- The username field's state on the profile form is not modelled, since it feeds neither the payload nor the save gate. Its length rule is modelled, as `EditProfile.UsernameValid`.
- Listener registration (window focus in src/contexts/AuthContext.tsx:47-54; focus and visibility in src/components/Navbar.tsx:52-62) is not modelled. Each event is one more `BeginFetchUser`/`CompleteFetchUser` or `BeginLoad`/`CompleteLoad`.
- `Navbar.signInWithGoogle` (src/components/Navbar.tsx:64) is not modelled. It only assigns `window.location`.
- VerifyEmail does not model the URL encoding of the token or a failure of `res.text()` itself.
- WorkView does not model the `active` index setter or the fields of the work detail beyond `media` and `thumbnail`.
- Presentation files are not part of this model: src/components/Footer.tsx, src/pages/Home.tsx, src/login/login.tsx, src/pages/Profile.tsx, src/main.tsx and src/pages/login.tsx. The browser script test/createpost.spec.js is not part of this model either.

## Findings

| source | as written | input that shows it | evidently intended | confidence | as-written member | corrected member |
|---|---|---|---|---|---|---|
| src/pages/Editprofile.tsx:159 | after an ok PATCH the handler awaits `refetchUser()`, which the auth context (src/contexts/AuthContext.tsx:10-14, 57) does not provide. The call throws a TypeError inside the `try`, so the error alert shows and no navigation happens | a PATCH reply with status 200 | alert "บันทึกสำเร็จ" and navigate to `/profile` | high; not executed | EditProfile.SaveResultAsWritten (discrepancy: EditProfile.SaveResultDiscrepancy) | EditProfile.SaveResultOf |
