# FightCraft page logic in Dafny

FightCraft (the CCRAFT-FIXED React app) teaches martial-arts techniques. Its logic sits on top of rows fetched from a hosted backend. This project models that logic as Dafny values, functions and small classes, and proves what each page promises. Every backend answer becomes a parameter: query results, insert and update outcomes, auth replies, and the rank the server computes after a power-level update.

The model covers:

- **Application shell** (`App`, navigation.dfy):
  - the hand-written navigation history with `navigate` and `goBack`;
  - the invariant that every history entry carries exactly the entries below it;
  - the render guard that decides between the loading view, the sign-in view and the main layout.
- **Category page** (`CategoryPage`):
  - the `discipline-category` slug split and the category-id resolution;
  - `isCompleted`, the unlock rule, the completed count and progress bar;
  - what a technique tile shows and does.
- **Technique page** (`TechniquePage`):
  - the section-read tracker and the loaded read-map;
  - `allSectionsRead` and the next-technique button;
  - the choice of the next technique;
  - the completion step that awards the technique's experience once.
- **Dashboard** (`DashboardPage`):
  - the rank badge and colour maps;
  - the rank ladder and the progress band;
  - overall completion and the next-technique suggestion.
- **Account page** (`AccountPage`):
  - the picture checks and storage path;
  - profile-field normalisation, and the password, e-mail and phone forms;
  - the referral link and the styling of the status message.
- **Sign-in / sign-up form** (`AuthPage`): the ordered agreement checks, the submit-disabled predicate, the routing after the reply, and the mode toggle.
- **Post-verification waiver page** (`PostVerifyPage`): the three-way routing decision and the accept handler.
- **News page** (`NewsPage`): the article filter.

Shared pieces:

- `Common`: `Option` and JavaScript truthiness of optional strings.
- `Text`: `split`/`join` on one character, `includes`, and ASCII `toLowerCase`.
- `Rows`: the row shapes and `.maybeSingle()`.

State that the source updates in place becomes a class. `App.Shell`, `TechniquePage.TechniqueView`, `AccountPage.AccountForm`, `AuthPage.AuthForm` and `PostVerifyPage.PostVerifyView` hold the state cells. Their handlers are tied to the pure decision functions beside them.

## Model

| member | source | states |
|---|---|---|
| `App.PageNamed` | src/App.tsx:27 | The page a string names has that name. A string that names none of the eighteen pages becomes an unrouted page. |
| `App.PageNamedName` | src/App.tsx:27 | Naming a routed page and reading the name back gives the same page. |
| `App.Navigate` | src/App.tsx:44-65 | The target page is set and exactly one history entry is appended: the whole prior state. Discipline sets only its id. Category sets its id and keeps the discipline id. Technique sets its id and keeps both others. Any other page carries no ids. |
| `App.GoBack` | src/App.tsx:67-79 | An empty history resets to Home with no ids. Otherwise the page and ids come from the top entry and the history loses its last entry. |
| `App.GoBackAfterNavigate` | src/App.tsx:46-77 | Going back right after navigating restores the prior state exactly, ids and history included. |
| `App.InitialWellFormed` | src/App.tsx:39-42 | The initial state satisfies the nested-history invariant. |
| `App.NavigateKeepsWellFormed` | src/App.tsx:46-50 | `navigate` preserves the invariant that each entry's own history is the prefix below it. |
| `App.GoBackKeepsWellFormed` | src/App.tsx:69-77 | `goBack` preserves the nested-history invariant. |
| `App.GoBackRestoresTop` | src/App.tsx:73-77 | On a well-formed state with a non-empty history, `goBack` yields the top entry itself. |
| `App.RunKeepsWellFormed` | src/App.tsx:39-79 | Every state reachable by any sequence of navigations and back steps is well formed. |
| `App.Render` | src/App.tsx:81-167 | Loading shows the loading view. Signed out and not on Home shows the sign-in view, whatever the page. Discipline, Category and Technique bodies render only with a non-empty id. Dashboard and Account render only with a user. |
| `App.SignedOutSeesHomeOrAuth` | src/App.tsx:89-103 | A signed-out visitor sees only the Home body or the sign-in view. |
| `App.NavigateToTechniqueShowsIt` | src/App.tsx:135-141 | Navigating to Technique with a non-empty id shows the technique page for that id. |
| `App.Shell.constructor` | src/App.tsx:39-42 | The shell starts on Home with an empty history and satisfies the invariant. |
| `App.Shell.OnNavigate` | src/App.tsx:44-65 | The state cell becomes `Navigate` of its old value and stays well formed. |
| `App.Shell.OnBack` | src/App.tsx:67-79 | The state cell becomes `GoBack` of its old value. With a non-empty history it becomes exactly the old top entry. |
| `Text.Split` | src/pages/CategoryPage.tsx:26 | There is always at least one piece, no piece holds the separator, and the pieces are two or more exactly when the separator occurs. |
| `Text.JoinSplit` | src/pages/CategoryPage.tsx:30 | Joining the pieces of a split gives the original string back. |
| `Text.JoinInitLast` | src/pages/CategoryPage.tsx:30-31 | All pieces but the last, joined, then the separator and the last piece, make the whole join. |
| `Text.Utf16Length` | src/pages/Account.tsx:176 | JavaScript's `length`: between the number of characters and twice that, and equal to it when no character lies above U+FFFF. |
| `Text.ToLower` | src/pages/Dashboard.tsx:31 | Lower-casing keeps the length and lowers each ASCII letter in place. |
| `Text.ContainsInfix` | src/pages/Account.tsx:313 | A string with `w` between a prefix and a suffix includes `w`. |
| `Text.NotContains` | src/pages/Account.tsx:313 | A string with an occurrence of `w` at no index does not include `w`. |
| `Rows.MaybeSingle` | src/pages/PostVerify.tsx:33 | Data comes back exactly when one row matched, and then it is that row. |
| `CategoryPage.ParseSlug` | src/pages/CategoryPage.tsx:26-31 | A slug exists iff the id holds a `-`. Then discipline slug + "-" + category slug is the id, and the category slug has no `-`. |
| `CategoryPage.LastDashUnique` | src/pages/CategoryPage.tsx:29-31 | A string splits at a `-` with a dash-free tail in only one way. |
| `CategoryPage.SlugOfLastDash` | src/pages/CategoryPage.tsx:26-31 | Any split at a last `-` is the one the slug parser finds. |
| `CategoryPage.MuayThaiKicks` | src/pages/CategoryPage.tsx:26-35 | `muay-thai-kicks` gives discipline slug `muay-thai` and category slug `kicks`. |
| `CategoryPage.DisciplinesNamed` | src/pages/CategoryPage.tsx:66-70 | The discipline query returns exactly the rows with the mapped name. |
| `CategoryPage.CategoriesNamed` | src/pages/CategoryPage.tsx:73-78 | The category query returns exactly the rows of that discipline with the mapped name. |
| `CategoryPage.ResolveCategoryId` | src/pages/CategoryPage.tsx:26-99 | When the slug splits, both parts are mapped, exactly one discipline row has the mapped name and exactly one category row of that discipline has the mapped category name, the result is that category row's id. In every other case, including an id without `-`, the id is used as given. |
| `CategoryPage.ResolvesUniqueCategory` | src/pages/CategoryPage.tsx:63-84 | For any tables: when the discipline query for `d` returns one row and the category query of that discipline for `c` returns one row, the slug `d-c` resolves to that category's id. |
| `CategoryPage.IsCompleted` | src/pages/CategoryPage.tsx:117-119 | True iff some progress row has this technique id and is completed. |
| `CategoryPage.FindAtOrder` | src/pages/CategoryPage.tsx:124 | Finds the first technique at the order index, or reports that none has it. |
| `CategoryPage.IsUnlocked` | src/pages/CategoryPage.tsx:121-128 | Order 1 is always unlocked. Otherwise a technique is unlocked iff the first technique at order n-1 is completed. It is locked when no such technique exists. |
| `CategoryPage.UnlockMonotone` | src/pages/CategoryPage.tsx:117-128 | Adding progress rows never locks an unlocked technique. |
| `CategoryPage.CompletedCount` | src/pages/CategoryPage.tsx:130 | The count is at most the number of techniques. It equals that number iff all are completed, and is 0 iff none is. |
| `CategoryPage.CompletedCountAppend` | src/pages/CategoryPage.tsx:130 | Adding one technique raises the count by one exactly when it is completed, so the count is the number of completed techniques. |
| `CategoryPage.ProgressPercentage` | src/pages/CategoryPage.tsx:131 | Defined iff there are techniques. It lies in [0, 100]; it is 100 iff every technique is completed and 0 iff none is. |
| `CategoryPage.TileOf` | src/pages/CategoryPage.tsx:173-209 | A click navigates to the technique iff it is unlocked. A completed technique shows the check even when locked. The lock shows iff it is neither completed nor unlocked. |
| `CategoryPage.ThreeTechniqueScenario` | src/pages/CategoryPage.tsx:121-128 | With only the first of three completed, the second is unlocked and the third locked. |
| `TechniquePage.Flags.Set` | src/pages/TechniquePage.tsx:43 | Updating one section's flag sets it and leaves the other three unchanged. |
| `TechniquePage.LoadedFlags` | src/pages/TechniquePage.tsx:108-114 | A section reads as read iff its key is stored as true. Every missing key, and a missing map, reads as false. |
| `TechniquePage.AvailableSections` | src/pages/TechniquePage.tsx:171-176 | A section is listed iff the technique's text for it is non-empty. |
| `TechniquePage.Every` | src/pages/TechniquePage.tsx:178 | True iff every listed section is read. |
| `TechniquePage.AllSectionsRead` | src/pages/TechniquePage.tsx:170-179 | True iff every section with content is read. It holds when none has content. |
| `TechniquePage.AllSectionsReadMonotone` | src/pages/TechniquePage.tsx:170-179 | Reading more sections never turns `allSectionsRead` false. |
| `TechniquePage.OnlyHowSection` | src/pages/TechniquePage.tsx:170-179 | With only a "how" text, the page is fully read iff "how" is read. |
| `TechniquePage.NextInCategory` | src/pages/TechniquePage.tsx:67-74 | The next technique is in the same category with a greater order index, and no such row has a smaller index. It is absent iff there is no such row. |
| `TechniquePage.CompletionOf` | src/pages/TechniquePage.tsx:124-158 | Completion happens iff there is a user, a technique, no prior completion and a profile. The new power level is the old one plus `xp_reward`. A rank-up is shown iff the returned rank differs from the old rank. |
| `TechniquePage.NextButtonOf` | src/pages/TechniquePage.tsx:345-363 | The button exists iff there is a user and a next technique. It is enabled iff all sections with content are read, and then it targets the next technique. |
| `TechniquePage.NextTechniqueRequestAsWritten` | src/pages/TechniquePage.tsx:181-185 | As written, the request names the page `technique/<id>`, which is not a routed page, and carries no id. |
| `TechniquePage.NextTechniqueAsWrittenShowsNothing` | src/pages/TechniquePage.tsx:181-185 | The next button as written requests an unrouted page with no id. A signed-in user then gets an empty main layout. |
| `TechniquePage.NextTechniqueRequest` | src/pages/TechniquePage.tsx:181-185 | The intended request is the Technique page with the next technique's id. |
| `TechniquePage.NextTechniqueRequestShowsIt` | src/pages/TechniquePage.tsx:181-185 | Following the intended request shows the next technique's page with its id. |
| `TechniquePage.TechniqueView.constructor` | src/pages/TechniquePage.tsx:20-39 | The page starts loading, with every section closed and unread and nothing completed. |
| `TechniquePage.TechniqueView.Load` | src/pages/TechniquePage.tsx:56-119 | The loader stores the technique and the next technique in its category. For a signed-in user it also stores the progress id, the completed flag and the loaded read-map. |
| `TechniquePage.TechniqueView.ToggleSection` | src/pages/TechniquePage.tsx:41-54 | The section's open flag flips. It is marked read, and the map written, only if it was closed, unread and a user is present. No read flag is ever cleared, and nothing else changes. |
| `TechniquePage.TechniqueView.HandleComplete` | src/pages/TechniquePage.tsx:124-168 | The state follows `CompletionOf`. On a completion the progress row keyed by the stored id (or "") is marked completed and the new power level is written. A second call after a completion writes nothing. |
| `TechniquePage.CompleteTwice` | src/pages/TechniquePage.tsx:124-151 | Of two completions run one after the other, at most the first awards experience. |
| `DashboardPage.RankBadgeClass` | src/pages/Dashboard.tsx:30-43 | Each of the four ranks, matched ignoring case, gets its badge class. Any other label gets `rank-badge-amateur`. |
| `DashboardPage.RankColor` | src/pages/Dashboard.tsx:226-234 | Each of the four ranks, matched exactly, gets its colour. Any other label gets `#A0A0A0`. |
| `DashboardPage.BadgeIgnoresCaseColourDoesNot` | src/pages/Dashboard.tsx:30-43 | "CHAMPION" gets the champion badge but the default colour. |
| `DashboardPage.NextRankThreshold` | src/pages/Dashboard.tsx:236-242 | The result is the lowest rung of the 200/500/1000/2000 ladder above the power level. It is absent iff no rung is above it. |
| `DashboardPage.RemainingIsPositive` | src/pages/Dashboard.tsx:441 | The remaining experience shown is positive whenever a next rank exists. |
| `DashboardPage.ProgressToNext` | src/pages/Dashboard.tsx:296-299 | It is 100 past the last rung. Below 2000 it is under 100, and it is non-negative for a non-negative power level. |
| `DashboardPage.Round` | src/pages/Dashboard.tsx:301 | `Math.round`: the result lies within a half of the input, and halves round up. |
| `DashboardPage.CompletionPercentage` | src/pages/Dashboard.tsx:301 | It is 0 without techniques. Otherwise it is the completed share in percent rounded to the nearest integer: within [0, 100], 100 when all are done, 0 when none is. |
| `DashboardPage.Recent` | src/pages/Dashboard.tsx:163-171 | The limited query returns a prefix of the newest-first rows, at most three. |
| `DashboardPage.CompletedTechniquesAsWritten` | src/pages/Dashboard.tsx:163-183 | The count as written is the number of rows the limited query returns, never more than three. |
| `DashboardPage.CompletedIds` | src/pages/Dashboard.tsx:182-183 | An id is included iff some progress row for it is completed. |
| `DashboardPage.CompletedTechniques` | src/pages/Dashboard.tsx:182-183 | The intended count is the number of distinct technique ids with a completed row. It never exceeds the number of progress rows, is 0 iff no row is completed, and at least 1 once any row is. |
| `DashboardPage.CompletedTechniquesUndercounts` | src/pages/Dashboard.tsx:163-183 | Four completed techniques are shown as three; the intended count is four. |
| `DashboardPage.CompletedTechniquesCountsUnfinished` | src/pages/Dashboard.tsx:163-183 | One opened but unfinished technique is counted as mastered; the intended count is zero. |
| `DashboardPage.CompletedTechniquesBounded` | src/pages/Dashboard.tsx:181-183 | The intended count never exceeds the number of techniques, so the percentage stays in [0, 100]. |
| `DashboardPage.RowIds` | src/pages/Dashboard.tsx:192 | An id is included iff some given progress row names it. |
| `DashboardPage.NextIncomplete` | src/pages/Dashboard.tsx:193 | The result is the first technique in fetched order whose id is not done. It is absent iff every id is done. |
| `DashboardPage.NextIncompleteAsWritten` | src/pages/Dashboard.tsx:191-193 | The suggestion as written is never named by any of the three recent rows. |
| `DashboardPage.NextIncompleteIntended` | src/pages/Dashboard.tsx:191-193 | The intended suggestion has no completed row. It is absent iff every technique has a completed row. |
| `DashboardPage.NextIncompleteAsWrittenRepeats` | src/pages/Dashboard.tsx:163-193 | A technique completed before the three most recent rows is suggested again as written. The intended suggestion skips it. |
| `DashboardPage.NextIncompleteAsWrittenSkipsUnfinished` | src/pages/Dashboard.tsx:191-193 | An opened but unfinished technique is skipped as written. The intended suggestion offers it. |
| `DashboardPage.AllCompletedMessage` | src/pages/Dashboard.tsx:364-368 | "All techniques completed!" shows iff every fetched technique is named by a recent row. |
| `AccountPage.FileCheck` | src/pages/Account.tsx:79-90 | A picture passes iff it is at most 5 MiB and of one of the five MIME types. Size is checked before type. |
| `AccountPage.FiveMebibytesBoundary` | src/pages/Account.tsx:79-83 | Exactly 5 MiB passes and one byte more fails, whatever the type. |
| `AccountPage.Extension` | src/pages/Account.tsx:96 | The extension has no dot. It is the whole name when there is no dot, and otherwise follows a dot at the end of the name. |
| `AccountPage.ExtensionIsLastSegment` | src/pages/Account.tsx:96 | For `stem.ext` with a dot-free `ext`, the extension is `ext`. |
| `AccountPage.LastDotUnique` | src/pages/Account.tsx:96 | Two splits of one name at a dot, each with a dot-free tail, have the same tail. |
| `AccountPage.StoragePath` | src/pages/Account.tsx:96-97 | The path starts with the user id and "/profile.", and the rest has no dot. A dot-free file name is kept whole as the extension. |
| `AccountPage.StoragePathOfDotted` | src/pages/Account.tsx:96-97 | A file `stem.ext` with a dot-free `ext` is stored at `<user>/profile.ext`. |
| `AccountPage.OrNull` | src/pages/Account.tsx:146-150 | An empty field is sent as null; any other value is sent as is. |
| `AccountPage.OrEmpty` | src/pages/Account.tsx:57-61 | A null or empty column fills the field with "". |
| `AccountPage.SaveAfterLoad` | src/pages/Account.tsx:55-63 | Saving right after loading writes back what was stored, except that an empty string becomes null. |
| `AccountPage.ProfileUpdateOf` | src/pages/Account.tsx:145-151 | Name, weight, height and discipline are null iff empty. The experience level is sent as is. Loading the update back gives the same fields. |
| `AccountPage.PasswordCheck` | src/pages/Account.tsx:170-180 | Passes iff the two entries match and are at least 6 UTF-16 code units long, as `length` counts. A mismatch is reported before a short password. Six characters always pass and two always fail. |
| `AccountPage.AstralCharacterCountsTwice` | src/pages/Account.tsx:176 | Four letters and one emoji are six code units and pass; five letters fail. |
| `AccountPage.MismatchReportedFirst` | src/pages/Account.tsx:170-180 | Two different short passwords are reported as a mismatch. |
| `AccountPage.ReferralLink` | src/pages/Account.tsx:205-208 | No link without a non-empty code; otherwise the link is `origin?ref=code`. |
| `AccountPage.ReferralLinkParts` | src/pages/Account.tsx:208 | The origin and the code can be read back from the link. |
| `AccountPage.MessageStyle` | src/pages/Account.tsx:311-316 | An empty message is hidden. A message is success-styled iff it includes "success"; otherwise it is error-styled. |
| `AccountPage.NoticeStyle` | src/pages/Account.tsx:311-316 | Intended styling: an empty message is hidden, and a message is success-styled iff its operation succeeded. |
| `AccountPage.NoSuccessWithOneS` | src/pages/Account.tsx:313 | A text whose only 's' stands between two s-free parts cannot include "success". |
| `AccountPage.EmailNoticeStyledAsError` | src/pages/Account.tsx:232 | The e-mail change notice reports a success but is error-styled as written. The intended styling shows it as success. |
| `AccountPage.PictureUpdatedStyledAsSuccess` | src/pages/Account.tsx:124 | "Profile picture updated successfully" is success-styled, as written and as intended. |
| `AccountPage.ProfileUpdatedStyledAsSuccess` | src/pages/Account.tsx:156 | "Profile updated successfully" is success-styled, as written and as intended. |
| `AccountPage.PasswordUpdatedStyledAsSuccess` | src/pages/Account.tsx:192 | "Password updated successfully" is success-styled, as written and as intended. |
| `AccountPage.PhoneUpdatedStyledAsSuccess` | src/pages/Account.tsx:257 | "Phone number updated successfully" is success-styled, as written and as intended. |
| `AccountPage.AccountForm.constructor` | src/pages/Account.tsx:45-69 | The form fields are filled from the stored profile, an empty experience level reading as "Beginner". Without a profile, name, weight, height and discipline are empty, the experience level is "Beginner" and there is no picture. The password, e-mail and phone fields start empty, with no message. |
| `AccountPage.AccountForm.HandleFileChange` | src/pages/Account.tsx:75-133 | Nothing happens without a file or a user. A failed size or type check sets its message and makes no upload. Otherwise the picture is uploaded to the storage path. The new URL is shown only if the upload and the update succeed. |
| `AccountPage.AccountForm.HandleProfileSave` | src/pages/Account.tsx:135-164 | With a user, the normalised fields are sent and the message reports the outcome; without one nothing changes. |
| `AccountPage.AccountForm.HandlePasswordChange` | src/pages/Account.tsx:166-203 | A failed check sets its message without a request. On success the three password fields are cleared. |
| `AccountPage.AccountForm.HandleEmailChange` | src/pages/Account.tsx:218-241 | An empty address does nothing. On success the field is cleared and the notice is shown. |
| `AccountPage.AccountForm.HandlePhoneChange` | src/pages/Account.tsx:243-265 | An empty number does nothing. Otherwise the number is sent and the outcome is reported. |
| `AccountPage.AccountForm.HandleCopyReferral` | src/pages/Account.tsx:205-212 | The copied text is the referral link. Nothing happens without a code. |
| `AuthPage.FirstUnmet` | src/pages/Auth.tsx:32-49 | The checks run age, terms, waiver, liability; the first unticked box gives its message. No message appears iff all four are ticked. |
| `AuthPage.SubmitDisabled` | src/pages/Auth.tsx:242 | Submit is disabled iff loading, or in sign-up mode with any box unticked. |
| `AuthPage.EnabledSubmitPassesChecks` | src/pages/Auth.tsx:242 | A submit the button allows always passes the agreement checks. |
| `AuthPage.SubmitOutcome` | src/pages/Auth.tsx:27-84 | A failed sign-up check sends nothing. A backend error only sets the error. A sign-up returning a user records an acceptance of the sign-up waiver version and opens Account. A successful sign-in opens Dashboard. No other page is opened, and a successful reply never leaves an error. |
| `AuthPage.SignInIgnoresAgreements` | src/pages/Auth.tsx:32-77 | In sign-in mode the outcome does not depend on the four boxes. |
| `AuthPage.SignUpRecordsAcceptance` | src/pages/Auth.tsx:54-68 | A sign-up with all boxes ticked that returns a user records its acceptance and opens Account. |
| `AuthPage.AuthForm.constructor` | src/pages/Auth.tsx:13-23 | The form starts in sign-in mode, with no error and no box ticked. |
| `AuthPage.AuthForm.ToggleMode` | src/pages/Auth.tsx:86-93 | The mode flips, the error clears, and all four boxes are unticked. |
| `AuthPage.AuthForm.HandleSubmit` | src/pages/Auth.tsx:27-84 | The result and the error follow `SubmitOutcome`. Loading is left untouched when a check fails and is reset after a request. |
| `PostVerifyPage.Matching` | src/pages/PostVerify.tsx:28-33 | The query selects exactly this user's acceptances of this page's waiver version. |
| `PostVerifyPage.Decide` | src/pages/PostVerify.tsx:21-47 | No user redirects to sign-in. Exactly one acceptance routes to profile creation. None shows the waiver. A failed query or several rows stay on the loading screen. |
| `PostVerifyPage.NavOf` | src/pages/PostVerify.tsx:22-41 | Only the two redirects navigate, and both replace the history entry. |
| `PostVerifyPage.SignUpAcceptanceDoesNotSkip` | src/pages/PostVerify.tsx:7 | Acceptances recorded at sign-up carry another version, so on their own they never skip the waiver. |
| `PostVerifyPage.AcceptanceThenCheck` | src/pages/PostVerify.tsx:49-64 | After the member's first acceptance is inserted, the next check routes to profile creation. |
| `PostVerifyPage.AcceptDisabled` | src/pages/PostVerify.tsx:169 | Accept is enabled iff the box is ticked and no accept is running. |
| `PostVerifyPage.ScreenOf` | src/pages/PostVerify.tsx:73-79 | The waiver shows iff loading has ended and the waiver was revealed. |
| `PostVerifyPage.PostVerifyView.constructor` | src/pages/PostVerify.tsx:12-15 | The page starts loading, with the waiver hidden. |
| `PostVerifyPage.PostVerifyView.CheckWaiverStatus` | src/pages/PostVerify.tsx:21-47 | The navigation follows `Decide`. Without a user nothing else changes. With one, loading ends and the waiver is revealed only when no acceptance exists. |
| `PostVerifyPage.PostVerifyView.SetAccepted` | src/pages/PostVerify.tsx:158 | The checkbox sets `accepted` to its checked state and changes nothing else. |
| `PostVerifyPage.PostVerifyView.HandleAcceptWaiver` | src/pages/PostVerify.tsx:49-71 | Nothing happens without a user or a ticked box. Otherwise the acceptance is inserted, a success moves on to profile creation, and `accepting` is reset. |
| `NewsPage.WithDiscipline` | src/pages/News.tsx:44 | Exactly the articles of the discipline are kept, each as often as in the input, in order, as a subsequence. |
| `NewsPage.Filtered` | src/pages/News.tsx:41-44 | "All" keeps every article in order. Any other selection keeps exactly the articles tagged with it. The result is always a subsequence. |
| `NewsPage.WithDisciplineIdempotent` | src/pages/News.tsx:44 | Filtering twice by one discipline equals filtering once. |
| `NewsPage.FilteredIdempotent` | src/pages/News.tsx:41-44 | Filtering the filtered list again with the same selection changes nothing. |
| `NewsPage.OnlyAllShowsEverything` | src/pages/News.tsx:9-44 | Of the five filter buttons, exactly "All" shows the whole list. |
| `NewsPage.EmptySelections` | src/pages/News.tsx:9-39 | "BJJ" and "General" show no article. |
| `NewsPage.AllTaggedOnlyUnderAll` | src/pages/News.tsx:9-44 | The article tagged "All" appears iff the selection is "All". |
| `NewsPage.DisciplineSelections` | src/pages/News.tsx:9-44 | "Boxing" and "Muay Thai" each show exactly their one article. |

## Left out

- Backend calls are not modelled: queries, inserts, updates, auth, storage upload and public URL. Their results and success flags are parameters, and the rank after a power-level update is an input because the server computes it. src/lib/supabase.ts is not part of this model.
- `handleDeleteAccount` (the `delete_user_account` remote procedure and sign-out) is left out; it is a foreign call behind a user guard.
- Exceptions thrown by the backend client are not modelled. Error returns are modelled as failure flags.
- Timers are left out: message clearing, hiding the experience banner, and the nested timeout that reads a stale `newRank`. So are the overlapping writes of rapid section toggles.
- `TechniquePage.CompleteTwice`: handlers run one at a time. A second click on "MARK AS COMPLETE" while the first completion is still awaiting the backend is not modelled. In the source it passes the `isCompleted` guard, reads a stale power level and writes again, so experience can be awarded twice or one award lost.
- `window.scrollTo`, the clipboard write, `Math.random` motivations and quotes, and `toLocaleDateString` are side effects or presentation and are not modelled.
- The loading screen animation, the `sessionStorage` loading flag and the language selector are outside the page logic.
- JSX rendering and styling are left out, except which view, icon, button state or message style is chosen. The navigation bar, footer and content-only pages are not part of this model.
- Percentages use exact reals instead of JavaScript doubles. With no techniques the category bar's 0/0 is NaN in the source; the model has no value there.
- `parseInt` on weight and height is not modelled; only the empty-field-to-null rule is.
- `toLowerCase` is modelled for ASCII letters only.
- An unmapped slug in the category page queries the backend with an undefined name; the model treats that as matching no row.
- Ties in the next-technique query are not modelled: the backend may return any row with the smallest greater order index, and the model takes the first in the given order.
- The dashboard's follow-up lookups of the next technique's category and discipline names are not modelled. The suggestion is the index of the technique.
- The dashboard's own guards are not modelled: the loading view, the sign-up prompt and "PROFILE NOT FOUND".
- `getRankEmblem` icons, the News image emoji, and the Account tab, password-visibility and delete-confirmation toggles are presentation only.
- The `alert` that `handleAcceptWaiver` shows after a failed insert is a browser dialog and is not modelled; the failure shows only as no navigation.
- `DashboardPage.ProgressToNext`: states the band bounds and the value past the last rung, not the exact linear formula for every power level.

## Findings

| source | as written | input that shows it | evidently intended | confidence | as-written member | corrected member |
|---|---|---|---|---|---|---|
| src/pages/TechniquePage.tsx:181-185 | The next button calls `onNavigate("technique/" + id)`. The shell casts that string to a page and drops the id (src/App.tsx:138), so the state names no routed page. | A signed-in user who has read every section clicks "NEXT TECHNIQUE" for a technique with id `t2`. | Navigate to the Technique page with the next technique's id. | high, not executed | `TechniquePage.NextTechniqueAsWrittenShowsNothing` | `TechniquePage.NextTechniqueRequestShowsIt` |
| src/pages/Dashboard.tsx:163-183 | "Techniques mastered" is the length of the recent-progress query, limited to three rows and ignoring the `completed` flag. | Four completed techniques show 3. One opened but unfinished technique shows 1. | Count the distinct completed techniques among all progress rows. | high, not executed | `DashboardPage.CompletedTechniquesUndercounts` | `DashboardPage.CompletedTechniquesBounded` |
| src/pages/Dashboard.tsx:191-193 | The next-technique suggestion skips only techniques named by those three recent rows, completed or not. | A technique completed before the three latest rows is suggested again. | Skip exactly the techniques with a completed progress row. | high, not executed | `DashboardPage.NextIncompleteAsWrittenRepeats` | `DashboardPage.NextIncompleteIntended` |
| src/pages/Account.tsx:311-316 | The status message is green only if its text includes "success". | A successful e-mail change shows "Email update initiated. Please check your new email for confirmation." in error red. | Style by the outcome of the operation. | medium, not executed | `AccountPage.EmailNoticeStyledAsError` | `AccountPage.NoticeStyle` |
