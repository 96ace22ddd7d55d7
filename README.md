# svg-spark-vault client rules in Dafny

svg-spark-vault is a web application for storing, organising and sharing SVG
icons. Users sign in with an emailed one-time code. They upload SVG files into
projects, tag them, make projects public, and fork other people's public
projects. The pages run in the browser and talk to a hosted backend. That
backend holds four tables (`projects`, `svgs`, `notifications`, `profiles`)
and two storage buckets (`svg-files`, `avatars`).

This project models the client-side rules those pages apply, and proves what
the pages promise about them. The rules cover:

- **Statistics:** sums, counts, averages and rates over the fetched rows.
- **Ranking:** the comparators of the Explore page and the recent-activity list.
- **File and tag lists:** the upload page's file and tag lists, the search
  page's tag toggle, and the comma-separated tag field of the SVG settings
  dialog.
- **Counter and flag writes:** views, downloads and favourites, and the order
  in which each write happens relative to the file fetch.
- **Fork and delete:** the fork of a project, and the two-step project delete.
- **Gates and state machines:** the sign-in form, the route guard, the session
  provider, avatar validation and its storage path, and the owner gates of the
  settings dialogs.

## How the model is laid out

One module per source file, plus four shared modules:

- **`Common`** holds the sequence idioms the pages use: `reduce`, `filter`,
  `map`, `slice`, and `sort` with a descending key. Each comes with its
  reference definition.
- **`Strings`** holds `trim`, `split` on one character, `join`, `split(c).pop()`
  and the decimal rendering of a timestamp.
- **`Tables`** holds the rows of the four tables and the per-row and per-list
  aggregates.
- **`Backend`** holds the backend as one value (`Db`) and a `Client` class.
  Every page request goes through the `Client`. Each request:
  - takes an abstract outcome flag `ok`;
  - states its exact effect on the tables;
  - appends itself to a call log, so the order of a page's requests can be
    stated and proved.

Components that keep state become classes whose fields are that state:

| class | what it models |
|---|---|
| `UploadForm` | the upload page |
| `TagSelection` | the search page's tag filter |
| `SignInForm` | the sign-in page |
| `Provider` | the session provider |
| `AvatarUploader` | the profile picture control |
| `SettingsDialog` | the project settings dialog |
| `SidebarState` | the sidebar |
| `PreviewPage` | the SVG preview page and its cached row |

Handlers become methods on these classes. Request sequences are methods over a
`Client`: forking, deleting, downloading and saving.

Pure logic stays as functions. That covers the metrics, the comparators, and
the payloads and parsers. Each function is specified against a reference
definition, or related to its inverse by a lemma.

## Model

| member | source | states |
|---|---|---|
| Common.FoldSumIsSum | src/pages/Analytics.tsx:58-59 | starting from an accumulator `acc`, the left fold that `reduce` performs yields `acc` plus the reference sum |
| Common.Filter | src/pages/Upload.tsx:39-41 | `filter` keeps each element that passes the test, as often as it occurs, and nothing else; its length is the reference count |
| Common.Where | src/pages/Analytics.tsx:51-54 | an `.eq(column, k)` read returns every stored row whose column is `k`, as often as stored, and no other row |
| Common.WhereNot | src/components/project/ProjectSettings.tsx:105-108 | a `.delete().eq(column, k)` leaves exactly the rows whose column is not `k`, with their multiplicities |
| Common.Map | src/components/navigation/sidebar-nav.tsx:70-75 | `map` keeps the length and applies the function position by position |
| Common.RemoveAll | src/pages/Search.tsx:37 | `filter(t => t !== x)` removes every occurrence of `x` and keeps every other value's multiplicity |
| Common.Take | src/pages/ProjectProperties.tsx:59 | `slice(0, n)` is the prefix of length `min(n, length)` |
| Common.SortDesc | src/pages/Explore.tsx:92-103 | the sort returns a permutation of its input whose keys are non-increasing |
| Common.SortDescStable | src/pages/Explore.tsx:92-103 | the sort is stable, as `Array.prototype.sort` must be: the elements with any one key come out in the order they were fetched |
| Strings.Trim | src/pages/Upload.tsx:80 | `trim` returns the slice of the input that starts after its leading whitespace; nothing after that slice is anything but whitespace, and neither end of the result is whitespace |
| Strings.TrimIdempotent | src/pages/Upload.tsx:80-81 | trimming a trimmed text changes nothing |
| Strings.Split | src/components/svg/SVGSettings.tsx:78 | `split(c)` yields at least one piece, exactly one piece iff `c` does not occur, and no piece contains `c` |
| Strings.JoinSplit | src/components/svg/SVGSettings.tsx:78 | joining the pieces of `split(c)` with `c` gives back the original text |
| Strings.AfterLast | src/components/profile/ProfileImageUpload.tsx:47 | reference definition: the longest suffix without `c`; it is preceded by `c` unless it is the whole text |
| Strings.LastPieceIsAfterLast | src/components/profile/ProfileImageUpload.tsx:47 | `split(c).pop()` is the text after the last `c`, or the whole text when there is no `c` |
| Strings.NatToDecimal | src/components/profile/ProfileImageUpload.tsx:48 | the rendering of a timestamp in a template literal is a non-empty string of digits with no leading zero unless the number is 0 |
| Strings.DecimalRoundTrip | src/components/profile/ProfileImageUpload.tsx:48 | the number a rendering denotes is the rendered number |
| Tables.TotalViews | src/pages/Analytics.tsx:58 | the `reduce` over the views equals the reference sum of the views, a missing value counted as 0 |
| Tables.TotalDownloads | src/pages/Analytics.tsx:59 | the same for downloads |
| Tables.TotalSize | src/pages/Analytics.tsx:120 | the same for `file_size` |
| Tables.FavoriteCount | src/pages/Analytics.tsx:60 | `filter(favorited).length` is the number of favourited rows |
| Tables.ViewsOfList | src/pages/Explore.tsx:85 | over an embedded list that may be missing: the sum of views, or 0 without a list |
| Tables.DownloadsOfList | src/pages/Explore.tsx:86 | the same for downloads |
| Tables.SizeOfList | src/pages/Analytics.tsx:120 | the same for `file_size` |
| Tables.FavoritesOfList | src/pages/Explore.tsx:87 | the number of favourited rows, or 0 without a list |
| Tables.IsOwner | src/pages/ProjectProperties.tsx:84 | `user?.id === ownerId` holds exactly for a signed-in user with that id; src/pages/ProjectView.tsx:184 makes the same test |
| Tables.DownloadName | src/pages/ProjectView.tsx:96 | the file name always ends in `.svg`: the name itself if it already did, else the name with `.svg` appended |
| Tables.DownloadNameIdempotent | src/pages/SVGPreview.tsx:106 | applying the file-name rule twice gives the same name as once |
| Backend.FindSvg | src/pages/SVGPreview.tsx:39-42 | the row found is stored and has the id; no row found means no stored row has it |
| Backend.Client.InsertProject | src/pages/Explore.tsx:173-184 | on success the row is appended and returned; on failure nothing changes and no row comes back; the call is logged |
| Backend.Client.SelectSvgsOfProject | src/pages/Explore.tsx:187-190 | returns the project's rows on success, nothing on failure; no table changes |
| Backend.Client.SelectSvg | src/pages/SVGPreview.tsx:24-42 | returns the row with the id, if any, on success; no table changes |
| Backend.Client.InsertSvgs | src/pages/Explore.tsx:203 | on success the rows are appended to `svgs`, else nothing changes |
| Backend.Client.InsertNotification | src/pages/Explore.tsx:208-218 | on success the notification is appended, else nothing changes |
| Backend.Client.UpdateProject | src/components/project/ProjectSettings.tsx:72-82 | on success the four fields of the row with the id are replaced, else nothing changes |
| Backend.Client.UpdateSvg | src/components/svg/SVGSettings.tsx:49-54 | on success name, description, project and tags of the row with the id are replaced |
| Backend.Client.SetViews | src/pages/SVGPreview.tsx:45-48 | on success the views of the row with the id become the value |
| Backend.Client.SetDownloads | src/pages/ProjectView.tsx:87-90 | on success the downloads of the row with the id become the value |
| Backend.Client.SetFavorited | src/pages/ProjectView.tsx:143-146 | on success the flag of the row with the id becomes the value |
| Backend.Client.DeleteSvgsOfProject | src/components/project/ProjectSettings.tsx:105-108 | on success exactly the project's SVG rows go |
| Backend.Client.DeleteProject | src/components/project/ProjectSettings.tsx:111-116 | on success exactly the rows with the id go from `projects` |
| Backend.Client.Download | src/pages/ProjectView.tsx:80-84 | returns the stored object when the read succeeds and it exists; nothing changes |
| Backend.Client.Upload | src/components/profile/ProfileImageUpload.tsx:52-56 | on success the object is stored under bucket and path |
| Backend.Client.UpsertAvatarUrl | src/components/profile/ProfileImageUpload.tsx:66-73 | on success the user's profile gets the avatar URL, created if missing |
| Backend.Client.DeleteProfile | src/hooks/useAuth.tsx:106-113 | on success the user's profile goes |
| Backend.Client.SignOut | src/hooks/useAuth.tsx:91-92 | the session is dropped; the tables are unchanged |
| Explore.WithMetrics | src/pages/Explore.tsx:83-89 | a card's total views and downloads are the sums over its SVGs (missing counters as 0), its favourites the count of favourited SVGs, its SVG count the list length; a missing list gives zeros |
| Explore.CompareProjectsByKey | src/pages/Explore.tsx:92-103 | each comparator is key(b) - key(a): views, downloads, creation time, and for trending views + downloads + favourites |
| Explore.RankedProjects | src/pages/Explore.tsx:78-103 | no data gives no cards; otherwise the cards are a permutation of the fetched projects with their metrics, and no pair of cards is out of order under the comparator |
| Explore.CompareSvgsByKey | src/pages/Explore.tsx:146-157 | the SVG comparators are key(b) - key(a) for views, downloads and creation time, and for trending views + downloads |
| Explore.PublicProjectIds | src/pages/Explore.tsx:128-131 | an id is returned iff some public project has it |
| Explore.RankSvgs | src/pages/Explore.tsx:146-157 | the sorted SVG list is a permutation of the fetched rows ordered by the comparator |
| Explore.InProjects | src/pages/Explore.tsx:135 | `.in('project_id', ids)` keeps exactly the rows whose project is listed |
| Explore.NamesMatching | src/pages/Explore.tsx:137-139 | the `ilike` filter keeps exactly the rows whose name the database's test accepts |
| Explore.SearchFiltered | src/pages/Explore.tsx:137-139 | the name filter applies only when the search text is not empty |
| Explore.PublicSvgs | src/pages/Explore.tsx:128-157 | a failed request gives the empty list; the result is ordered by the comparator |
| Explore.PublicSvgsContents | src/pages/Explore.tsx:128-141 | when both reads succeed, the result is exactly the stored SVGs of public projects that pass the name filter, each exactly as often as stored |
| Explore.PublicSvgsArePublic | src/pages/Explore.tsx:128-143 | whatever the outcomes, every returned SVG is stored and belongs to a public project |
| Explore.NoPublicProjectNoSvgs | src/pages/Explore.tsx:133 | with no public project the SVG list is empty |
| Explore.ForkedSvgs | src/pages/Explore.tsx:194-201 | one copy per original, same order, each keeping name, description, file path and tags, owned by the forker and placed in the fork |
| Explore.ForkHoldsExactlyCopies | src/pages/Explore.tsx:192-203 | when no stored SVG is in the fork yet, the fork's SVG rows after the insert are exactly the copies |
| Explore.CopySvgs | src/pages/Explore.tsx:187-204 | the originals are read; their copies are inserted only when the read returned rows; an insert failure is ignored |
| Explore.ForkProject | src/pages/Explore.tsx:161-237 | without a user nothing is sent; a failed project insert fails the fork with nothing written; otherwise a private `<name> (Fork)` project described `Forked from <name>` is inserted, then the copy step, then the notice; the fork succeeds whatever the copy and notice outcomes |
| Upload.SvgFiles | src/pages/Upload.tsx:39-41 | a file is kept iff its type is `image/svg+xml` or its name ends in `.svg`, as often as it was given, in order |
| Upload.SvgFilesIdempotent | src/pages/Upload.tsx:63-65 | filtering an accepted list again keeps all of it |
| Upload.Entries | src/pages/Upload.tsx:52-55 | one entry per accepted file, in order, each with its id |
| Upload.FindProjectName | src/pages/Upload.tsx:103 | `find(p => p.id === id)?.name` returns a listed project's name for that id, or nothing when no project has it |
| Upload.ProjectLabel | src/pages/Upload.tsx:103 | the project named in the message is the name of the listed project with the selected id, `Random` when no listed project has it, and never empty |
| Upload.UnknownProjectLabel | src/pages/Upload.tsx:103 | an id of no listed project is labelled `Random` |
| Upload.UploadMessagePlural | src/pages/Upload.tsx:103 | the message starts with the count, and `SVG` is followed by `s` iff more than one file was uploaded |
| Upload.UploadForm.constructor | src/pages/Upload.tsx:27-32 | no files, project `random`, no tags, empty input and description, not dragging |
| Upload.UploadForm.DragEnter | src/pages/Upload.tsx:138 | only the dragging flag is set |
| Upload.UploadForm.DragLeave | src/pages/Upload.tsx:139 | only the dragging flag is cleared |
| Upload.UploadForm.HandleDrop | src/pages/Upload.tsx:35-58 | dragging ends; a drop with no accepted file keeps the list and reports invalid files; otherwise the accepted files follow the existing entries in input order |
| Upload.UploadForm.HandleFileInput | src/pages/Upload.tsx:60-73 | no file list changes nothing; otherwise the accepted files are appended |
| Upload.UploadForm.RemoveFile | src/pages/Upload.tsx:75-77 | exactly the entries with the id go, the others keep their order |
| Upload.UploadForm.TypeTag | src/pages/Upload.tsx:232 | only the tag input changes |
| Upload.UploadForm.AddTag | src/pages/Upload.tsx:79-84 | the trimmed input is appended and the input cleared iff it is non-empty and not yet a tag; the tag list stays free of duplicates and of empty or untrimmed tags |
| Upload.UploadForm.RemoveTag | src/pages/Upload.tsx:86-88 | every occurrence of the tag goes, the others keep their order, and the list stays clean |
| Upload.UploadForm.SelectProject | src/pages/Upload.tsx:207 | only the selected project changes |
| Upload.UploadForm.EditDescription | src/pages/Upload.tsx:262 | only the description changes |
| Upload.UploadForm.HandleUpload | src/pages/Upload.tsx:90-111 | with no files only the no-files toast and no state change; otherwise the success message, then files, tags and description emptied and the project back to `random` |
| Upload.UploadForm.Reset | src/pages/Upload.tsx:106-110 | the reset state: no files, no tags, empty description, project `random` |
| SvgSettings.NullIfEmpty | src/components/svg/SVGSettings.tsx:76 | the saved description is missing iff the typed text is empty, else the text |
| SvgSettings.NullIfEmptyOrEmpty | src/components/svg/SVGSettings.tsx:74-79 | a description shown with a missing one as "" and saved with "" as null comes back unchanged, except that an empty one becomes missing |
| SvgSettings.TagPieces | src/components/svg/SVGSettings.tsx:78 | every saved tag is non-empty, trimmed and comma-free |
| SvgSettings.ParseTagsField | src/components/svg/SVGSettings.tsx:78 | an empty field is saved as missing, any other as its cleaned pieces |
| SvgSettings.PiecesOfJoin | src/components/svg/SVGSettings.tsx:27 | parsing the `", "`-join of a non-empty list of clean tags, with or without one leading space, gives the list back |
| SvgSettings.TagsFieldRoundTrip | src/components/svg/SVGSettings.tsx:78 | the field filled at line 27 and parsed at line 78 gives back a non-empty list of clean tags, and gives missing for a missing or empty list |
| SvgSettings.SavePayload | src/components/svg/SVGSettings.tsx:74-79 | name and project are passed through, an empty description becomes null, tags are parsed |
| SvgSettings.UntouchedSave | src/components/svg/SVGSettings.tsx:23-28 | saving the dialog unedited writes back name, project and clean tags, and only turns an empty description or tag list into a missing one |
| SvgSettings.ShowsSettings | src/components/svg/SVGSettings.tsx:31-33 | the dialog renders iff a user is signed in and owns the SVG |
| SvgSettings.SaveEnabled | src/components/svg/SVGSettings.tsx:161 | save is enabled iff no save is pending and the name is non-empty |
| SvgSettings.HandleSave | src/components/svg/SVGSettings.tsx:47-55 | one update of the SVG row with the payload; on failure nothing changes |
| Search.ToggleFlips | src/pages/Search.tsx:35-39 | a toggle flips the tag's membership |
| Search.ToggleKeepsOthers | src/pages/Search.tsx:35-39 | the other tags keep their order and multiplicity |
| Search.ToggleKeepsNoDuplicates | src/pages/Search.tsx:35-39 | a list without duplicates stays without |
| Search.ToggleTwiceAbsent | src/pages/Search.tsx:35-39 | toggling an absent tag twice restores the list |
| Search.ToggleTwicePresent | src/pages/Search.tsx:35-39 | toggling a selected tag twice moves it to the end |
| Search.TagSelection.constructor | src/pages/Search.tsx:30 | no tag is selected at first |
| Search.TagSelection.HandleTagToggle | src/pages/Search.tsx:34-40 | the selection becomes the toggled list |
| Analytics.OverviewOf | src/pages/Analytics.tsx:47-74 | no overview without a user or when the read fails; otherwise views, downloads, favourites and uploads are the sums and counts over exactly the user's SVGs |
| Analytics.OverviewIgnoresOthers | src/pages/Analytics.tsx:51-54 | an SVG of another user does not move the overview |
| Analytics.TopSvgRow | src/pages/Analytics.tsx:90-97 | the row keeps id and name, reads missing counters as 0, has favourites 1 iff favourited and the project `Unknown` without a name |
| Analytics.TopSvgRows | src/pages/Analytics.tsx:80-98 | no user or no data gives no rows; otherwise one row per fetched SVG, in order |
| Analytics.TopSvgFavoritesCount | src/pages/Analytics.tsx:96 | the favourites column adds up to the number of favourited SVGs listed |
| Analytics.SummaryOf | src/pages/Analytics.tsx:116-121 | a project's SVG count, views, downloads and size are the count and sums over its SVGs, zeros without a list |
| Analytics.ProjectSummaries | src/pages/Analytics.tsx:105-121 | no user or no data gives no rows; otherwise one summary per fetched project, in order |
| ProjectProperties.RecentActivity | src/pages/ProjectProperties.tsx:57-59 | the five newest rows (all, when fewer), newest first, drawn from the input; no left-out row is newer than a listed one |
| ProjectProperties.StatsOf | src/pages/ProjectProperties.tsx:39-61 | no statistics without a project id or when the read fails; otherwise the count, sums and recent activity of exactly the project's SVGs |
| ProjectProperties.RoundedRatio | src/pages/ProjectProperties.tsx:191 | `Math.round(a / b)` for `b > 0` is the integer nearest `a / b`, halves up |
| ProjectProperties.GuardedRound | src/pages/ProjectProperties.tsx:191 | the guarded average is 0 for a zero count and the rounded ratio otherwise; line 197 applies the same expression to downloads |
| ProjectProperties.GuardedRoundExact | src/pages/ProjectProperties.tsx:191 | an exact quotient rounds to itself |
| ProjectProperties.AverageViews | src/pages/ProjectProperties.tsx:191 | 0 without SVGs, otherwise the integer nearest views per SVG, halves up |
| ProjectProperties.AverageDownloads | src/pages/ProjectProperties.tsx:197 | 0 without SVGs, otherwise the integer nearest downloads per SVG, halves up |
| ProjectProperties.DownloadRate | src/pages/ProjectProperties.tsx:203 | 0 without views, otherwise the integer nearest the percentage `100 * downloads / views`, halves up |
| ProjectProperties.DownloadRateIsPercentage | src/pages/ProjectProperties.tsx:203 | with no more downloads than views the rate lies in 0..100 |
| ProjectProperties.UpdateEntries | src/pages/ProjectProperties.tsx:230 | the "Project updated" entry is shown iff `updated_at` differs from `created_at` |
| ProjectProperties.UploadEntries | src/pages/ProjectProperties.tsx:243 | at most three upload entries, the first recent uploads in order |
| ProjectProperties.Timeline | src/pages/ProjectProperties.tsx:224-250 | the card is the creation entry, then the update entry (present iff the times differ), then the first three recent uploads in order |
| ProjectView.SortOrderFor | src/pages/ProjectView.tsx:59-71 | views, downloads and date sort descending on their column (date on `created_at`); anything else ascending by name |
| ProjectView.ListQuery | src/pages/ProjectView.tsx:47-56 | no query without a project id; otherwise the project filter, the order, and a `%text%` name pattern iff the search text is non-empty |
| ProjectView.HandleDownload | src/pages/ProjectView.tsx:78-113 | the file is fetched first; only a fetched file leads to the counter write of the page's count + 1 and to a download under the `.svg` file name; a failed fetch writes nothing |
| ProjectView.HandleToggleFavorite | src/pages/ProjectView.tsx:138-146 | nothing without a user; otherwise the negation of the page's flag is written |
| ProjectView.DownloadRaisesTotal | src/pages/ProjectView.tsx:87-90 | with unique ids, the counter write raises the project's total downloads by exactly one |
| ProjectView.StatisticsOf | src/pages/ProjectView.tsx:447-464 | the card's count, sums of views and downloads and favourite count over the listed SVGs |
| SvgPreview.DisplayedViewsIsStored | src/pages/SVGPreview.tsx:251 | after the query's write, the stored views equal the displayed count, the fetched count + 1 |
| SvgPreview.PreviewPage.constructor | src/pages/SVGPreview.tsx:14-19 | the route id is kept and nothing is cached |
| SvgPreview.PreviewPage.RunQuery | src/pages/SVGPreview.tsx:19-52 | no id reads nothing; a failed or empty read caches nothing and writes nothing; a found row is cached and its views are written once as the read count + 1 |
| SvgPreview.PreviewPage.Favorite | src/pages/SVGPreview.tsx:54-83 | without a row or a user no request; otherwise the negated flag is written; on success the cached flag becomes it, on error the cache is kept |
| SvgPreview.PreviewPage.Download | src/pages/SVGPreview.tsx:85-120 | the counter is written before the fetch, so a failed fetch leaves it raised; only a fetched file raises the cached count, by one, and is saved under the `.svg` name |
| ProtectedRoute.Guard | src/components/auth/protected-route.tsx:11-23 | exactly one of: the placeholder iff loading, the redirect to `/auth` iff not loading and no user, the children iff not loading with a user |
| AuthPage.View | src/pages/Auth.tsx:21-23 | a signed-in user is always redirected home; otherwise the step decides the form |
| AuthPage.SignInForm.constructor | src/pages/Auth.tsx:12-16 | empty email, code and error, the email step, not loading |
| AuthPage.SignInForm.TypeEmail | src/pages/Auth.tsx:109 | only the email changes |
| AuthPage.SignInForm.TypeCode | src/pages/Auth.tsx:129 | only the code changes |
| AuthPage.SignInForm.EmailSubmit | src/pages/Auth.tsx:25-39 | loading is set and then cleared; an error keeps the step and shows its message; otherwise the code step with no error |
| AuthPage.SignInForm.OtpSubmit | src/pages/Auth.tsx:41-55 | a code whose length is not 6 changes nothing and sends nothing; otherwise the typed email and code are sent, a failure shows its message, and the step stays |
| AuthPage.SignInForm.BackToEmail | src/pages/Auth.tsx:57-61 | the email step, with code and error cleared |
| AuthProvider.SessionUser | src/hooks/useAuth.tsx:29 | the user is the session's user, or none without a session |
| AuthProvider.RequestResult | src/hooks/useAuth.tsx:44-89 | `signIn` and `verifyOTP` resolve to no error iff the service accepted, else to its or the exception's message |
| AuthProvider.UseAuth | src/hooks/useAuth.tsx:144-150 | outside a provider the hook throws its message; inside it returns the provider's value |
| AuthProvider.Provider.constructor | src/hooks/useAuth.tsx:19-21 | no user, no session, loading; the user mirrors the session |
| AuthProvider.Provider.ApplySession | src/hooks/useAuth.tsx:26-39 | the session is stored, the user becomes its user, loading ends |
| AuthProvider.Provider.SignOut | src/hooks/useAuth.tsx:91-97 | the backend session ends; the tables are unchanged |
| AuthProvider.Provider.DeleteAccount | src/hooks/useAuth.tsx:99-127 | without a user the no-user message and no call; otherwise the profile delete and then sign-out, resolving without error even when the delete is rejected; a thrown delete returns its message without sign-out |
| ProfileImageUpload.Validate | src/components/profile/ProfileImageUpload.tsx:21-43 | in the handler's order: no file or user ignored; a type not starting `image/` rejected before the size; more than 5·1024·1024 bytes rejected; else valid |
| ProfileImageUpload.SizeBoundary | src/components/profile/ProfileImageUpload.tsx:36 | exactly 5 MiB is accepted, one byte more is not |
| ProfileImageUpload.AvatarPath | src/components/profile/ProfileImageUpload.tsx:47-49 | the path starts `avatars/<user id>-` and ends with `.` and the text after the name's last dot |
| ProfileImageUpload.ExtensionKept | src/components/profile/ProfileImageUpload.tsx:47-49 | the text after the path's last dot is the text after the file name's last dot |
| ProfileImageUpload.DistinctInstantsDistinctPaths | src/components/profile/ProfileImageUpload.tsx:48 | one user's uploads at different instants get different paths |
| ProfileImageUpload.StoredDb | src/components/profile/ProfileImageUpload.tsx:52-73 | the object is stored iff the upload succeeds; the profile changes iff upload and upsert both do; nothing else changes |
| ProfileImageUpload.StoreCalls | src/components/profile/ProfileImageUpload.tsx:52-73 | the upload is always sent first; the upsert is sent iff the upload succeeded |
| ProfileImageUpload.StoreAvatar | src/components/profile/ProfileImageUpload.tsx:52-73 | the upload, then the upsert only after it; saved iff both succeed |
| ProfileImageUpload.AvatarUploader.constructor | src/components/profile/ProfileImageUpload.tsx:15-16 | idle, showing the given avatar URL |
| ProfileImageUpload.AvatarUploader.SelectFile | src/components/profile/ProfileImageUpload.tsx:21-95 | a file failing validation changes nothing and sends nothing; a valid one goes under its avatar path, and the URL shown changes only when upload and upsert both succeed |
| ProfileImageUpload.AvatarUploader.UploadImage | src/components/profile/ProfileImageUpload.tsx:45-94 | busy during the attempt and idle afterwards on every path; the URL is updated only after both requests succeed |
| ProjectSettings.UpdatePayload | src/components/project/ProjectSettings.tsx:74-79 | name, color and visibility are passed through and an empty description becomes null |
| ProjectSettings.UntouchedProjectSave | src/components/project/ProjectSettings.tsx:63-79 | saving the dialog as it opened writes the row's own values back, an empty description becoming null |
| ProjectSettings.ShowsProjectSettings | src/components/project/ProjectSettings.tsx:140-142 | the dialog renders iff a user is signed in and owns the project |
| ProjectSettings.AfterDelete | src/components/project/ProjectSettings.tsx:104-116 | the project's SVG rows go iff their delete succeeds, the project row iff its delete succeeds; other tables are untouched |
| ProjectSettings.DeleteKeepsOtherProjects | src/components/project/ProjectSettings.tsx:105-108 | every other project's SVG rows stay exactly as they were, in order |
| ProjectSettings.DeleteLeavesNothingBehind | src/components/project/ProjectSettings.tsx:104-114 | after both deletes succeed no row of the project is left |
| ProjectSettings.FailedSvgDeleteOrphansRows | src/components/project/ProjectSettings.tsx:105-116 | an ignored SVG-delete failure followed by a successful project delete leaves the project's SVG rows behind |
| ProjectSettings.SettingsDialog.constructor | src/components/project/ProjectSettings.tsx:62-68 | closed, the form filled from the project with a missing description as "" |
| ProjectSettings.SettingsDialog.SetOpen | src/components/project/ProjectSettings.tsx:145 | only the open flag changes |
| ProjectSettings.SettingsDialog.EditName | src/components/project/ProjectSettings.tsx:166 | only the form's name changes |
| ProjectSettings.SettingsDialog.EditDescription | src/components/project/ProjectSettings.tsx:177 | only the form's description changes |
| ProjectSettings.SettingsDialog.PickColor | src/components/project/ProjectSettings.tsx:187 | only the form's colour changes |
| ProjectSettings.SettingsDialog.SetPublic | src/components/project/ProjectSettings.tsx:217 | only the form's visibility changes |
| ProjectSettings.SettingsDialog.Submit | src/components/project/ProjectSettings.tsx:70-100 | one update with the form's payload; the dialog closes only on success |
| ProjectSettings.DeleteProject | src/components/project/ProjectSettings.tsx:102-117 | the SVG rows are deleted before the project row; the delete succeeds exactly when the project delete does |
| SidebarNav.ColorOrDefault | src/components/navigation/sidebar-nav.tsx:74 | a missing or empty colour becomes `bg-blue-500`, any other is kept |
| SidebarNav.NavProjectOf | src/components/navigation/sidebar-nav.tsx:70-75 | an entry keeps id and name, counts its SVGs (0 without a list) and has the defaulted colour |
| SidebarNav.UserProjects | src/components/navigation/sidebar-nav.tsx:54-78 | no user or no data gives no entries; otherwise one entry per fetched project, same length and order |
| SidebarNav.NavClass | src/components/navigation/sidebar-nav.tsx:80-81 | the active class iff the link is active, else the inactive class |
| SidebarNav.ProjectsPanelOf | src/components/navigation/sidebar-nav.tsx:131-155 | the section shows only when the sidebar is open and the section expanded; "No projects yet" iff it then shows and the loaded list is empty |
| SidebarNav.SidebarState.constructor | src/components/navigation/sidebar-nav.tsx:52 | the projects section starts expanded |
| SidebarNav.SidebarState.ToggleProjects | src/components/navigation/sidebar-nav.tsx:112 | a click flips the section only while the sidebar is open |

## Left out

- The backend's own behaviour is abstract. Each request's success is a parameter, and the model does not cover transport, row-level security or server-generated columns.
- The database does the `ilike` matching and the server-side `order`:
  - Matching is a parameter, `nameMatches`.
  - The project list query and the top-SVGs query are taken as their returned data.
  - ProjectView.ListQuery describes the query it builds, not the order the database applies.
- The Explore project query's own name filter (src/pages/Explore.tsx:74-76) is part of the returned data that RankedProjects receives.
- The react-query machinery is not modelled: caching, invalidation, `enabled` flags and loading states. The one exception is the SVG preview's cached row, which the page updates itself.
- Toasts, navigation, `window.location.reload`, the DOM download link, the clipboard copy (`handleCopyCode`) and `console.error` are left out. They are UI effects with no state that the rules read.
- Floating-point display is left out: the `toFixed` sizes and the MB strings. `Math.round(a / b)` is modelled in exact arithmetic as the floor of `a / b + 1/2`, which is how `Math.round` is defined; floating-point error is not modelled. ProjectProperties.DownloadRate rounds the exact percentage `100 * d / v`, while `Math.round((d / v) * 100)` rounds a double product that can fall just below a half: for d = 23, v = 40 the page shows 57 and the model 58.
- Mock and random data are not modelled: the growth figures, the Search and Dashboard datasets, and the random upload ids. Those ids, the backend's new row ids, the current time and the avatar's public URL are parameters.
- The browser's HTML constraint validation is not modelled. The project name input is `required` (src/components/project/ProjectSettings.tsx:168), the save button is disabled while a save is pending (line 254), and the email input is `type="email" required` (src/pages/Auth.tsx:104-111). So ProjectSettings.SettingsDialog.Submit may write an empty name, and AuthPage.SignInForm.EmailSubmit may run on an empty or malformed email, where the browser would not submit the form.
- Date parsing and `toLocaleDateString` are left out; timestamps are integers.
- Strings are sequences of Unicode scalar values, while JavaScript's `length` counts UTF-16 code units. So AuthPage.SignInForm.OtpSubmit's six-character gate (src/pages/Auth.tsx:43) judges a code containing a character outside the Basic Multilingual Plane differently.
- The copied SVG rows of a fork leave size, counters and favourite flag to the column defaults. The model writes them as missing and false.
- SvgPreview.PreviewPage.Favorite: without a row or a user the success handler writes an undefined status into the cached row. The model reads it as `false`.
- AuthProvider.Provider.SignOut: an exception thrown by the service's sign-out is not modelled.
- The sidebar's email line, the avatar fallback initial and other rendering-only text are left out.
- src/components/svg/SVGDisplay.tsx, src/pages/Dashboard.tsx, src/pages/Profile.tsx, src/pages/Settings.tsx, src/App.tsx and src/components/layout/main-layout.tsx are not part of this model. They are rendering, routing or mock data, with no rule of their own.
- SidebarNav.ProjectsPanelOf: "No projects yet" shows only inside the expanded projects section (src/components/navigation/sidebar-nav.tsx:131, 149), so the model requires both open and expanded, as the code does.
