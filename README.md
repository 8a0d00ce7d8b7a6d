# Nexus dashboard: a Dafny model of its client-side logic

This project models the logic that the Nexus dashboard's web client decides
for itself. The dashboard is a Next.js and React project-management front end.

**Query hooks** (`src/hooks/*-queries.ts`)
- The cache-key factories, with invalidation as prefix matching.
- The query strings the hooks build step by step with URLSearchParams.
- The `enabled` guards.
- The key prefixes each mutation invalidates on success.

**Display rules**
- The status colours and labels.
- The breadcrumbs of a path.
- The notification bell's relative times, badge and click rule.
- The comment thread's timestamps, author labels and controls.
- The avatar initials.
- The available-member filter.

**Components with state**
- The inline title editor.
- The create-task dialog, including its tag list.
- The create-project and add-member dialogs.
- The comment box.
- The profile form.
- The login form.
- The command palette.
- The authentication store.

Each of these is a class whose fields are the component's state. The handlers are methods that state the whole new state.

**Validation**
- The schemas' length bounds and required fields.
- The per-field error map, in which the last issue on a field wins.

## Modelling conventions

**Query library.** The query library (`@tanstack/react-query`) is not modelled.
- A query hook is a `Query` value: its key, its request, whether it is enabled, and its polling interval.
- A mutation hook is a `Mutation` value: its request and the key prefixes it invalidates once the request succeeds.
- One assumption is made about the library: `invalidateQueries({ queryKey: f })` refreshes exactly the cached queries whose key starts with `f`. This is `QueryClient.Touches`.

**Query strings.**
- `URLSearchParams` is the class `QueryClient.SearchParams`, and its `set` is `QueryClient.SetParam`.
- A builder's guarded `if (x) searchParams.set(...)` calls are run one after another by `SearchParams.SetCandidate`.
- Each builder method is proved equal to a specification function (`Select` of its candidates). Lemmas state which parameters occur, with which values, and in which order.

**Outside effects become values.**
- Awaited requests, the browser clock, `confirm()`, form inputs and the URL's `callbackUrl` parameter are parameters of the methods.
- Toasts, router navigation and the requests sent are their results.

**zod checks.**
- The e-mail and URL format checks are predicate parameters.
- Length checks count characters.

## Model

| member | source | states |
|---|---|---|
| Types.StatusNameRoundTrip | src/types/index.ts:67 | every task status's wire name parses back to that status |
| Types.PriorityNameRoundTrip | src/types/index.ts:68 | every priority's wire name parses back to that priority |
| Common.TrimIdempotent | src/features/tasks/editable-title.tsx:29 | trimming a trimmed string changes nothing |
| Common.Split | src/features/settings/profile-form.tsx:98 | `split` yields at least one piece and no piece contains the separator |
| Common.SplitJoin | src/features/settings/profile-form.tsx:98 | joining the pieces of a split with the separator gives back the string |
| Common.UpperCase | src/features/settings/profile-form.tsx:101 | `toUpperCase` keeps the length, leaves no a-z, keeps every other character and maps each a-z to its capital |
| Common.UpperCaseIdempotent | src/features/settings/profile-form.tsx:101 | upper-casing twice is upper-casing once |
| Common.UpperCaseAppend | src/features/settings/profile-form.tsx:101 | upper-casing works piecewise over a concatenation |
| Common.JoinSplit | src/features/settings/profile-form.tsx:98 | splitting pieces joined by a separator none of them contains gives back the pieces |
| Common.NatToStringValue | src/hooks/use-task-queries.ts:40 | `String(n)` of a non-negative integer reads back as n |
| Common.IntToStringValue | src/hooks/use-task-queries.ts:40 | `String(n)` reads back as n; a negative n is "-" before the digits of -n |
| Common.Without | src/features/tasks/create-task-dialog.tsx:82 | `filter(t => t !== x)` removes every x, keeps only elements of the input, and keeps every other element |
| Common.WithoutAt | src/features/tasks/create-task-dialog.tsx:82 | in a list without duplicates, filtering out the element at k cuts out exactly position k |
| Common.OrEmpty | src/features/projects/add-member-dialog.tsx:44 | a missing list response is the empty list, a present one is kept as is; the same fallback serves notification-bell.tsx:81, task-comments.tsx:98 and command-palette.tsx:23 |
| Common.NonEmpty | src/components/layout/dashboard-header.tsx:32 | `filter(Boolean)` on strings keeps no empty string and never grows the list |
| QueryClient.PrefixTransitive | src/hooks/use-task-queries.ts:13-21 | a prefix of a prefix of a key is a prefix of the key |
| QueryClient.SetParam | src/hooks/use-task-queries.ts:40-47 | after `set(name, v)` the name reads v and every other name reads as before |
| QueryClient.SetParamFresh | src/hooks/use-task-queries.ts:40-47 | setting a name not yet present appends it at the end |
| QueryClient.Serialize | src/hooks/use-task-queries.ts:48 | the serialised parameters are empty exactly when there are none |
| QueryClient.WithQuery | src/hooks/use-task-queries.ts:50 | "?qs" is appended exactly when qs is non-empty |
| QueryClient.SearchParams.constructor | src/hooks/use-task-queries.ts:39 | a new URLSearchParams is empty |
| QueryClient.SearchParams.Set | src/hooks/use-task-queries.ts:40 | `set` replaces the entries by SetParam of them |
| QueryClient.SearchParams.SetCandidate | src/hooks/use-task-queries.ts:40-47 | each guarded set extends the entries to the Select of the sets made so far |
| QueryClient.SetStep | src/hooks/use-task-queries.ts:40-47 | with distinct names, a present set appends its pair and an absent one changes nothing |
| QueryClient.SelectLookup | src/hooks/use-task-queries.ts:40-47 | with distinct names, a name reads its value exactly when its guard holds |
| QueryClient.RecordOfLookup | src/hooks/use-task-queries.ts:37 | in an object literal with distinct names, a property is an own key exactly when it is defined, with its own value |
| QueryClient.SelectOrder | src/hooks/use-task-queries.ts:40-47 | the entries name present candidates in source order; none exist exactly when no guard holds |
| TaskQueries.ListKeysHierarchy | src/hooks/use-task-queries.ts:13-21 | lists() is a proper prefix of every list(params); neither covers any detail(id) or stats() |
| TaskQueries.DetailKeyInjective | src/hooks/use-task-queries.ts:18-19 | detail(id) is details() plus the id; detail keys are equal iff the ids are |
| TaskQueries.TaskListCandidates | src/hooks/use-task-queries.ts:39-47 | the eight guarded sets are in the order page, pageSize, status, priority, assigneeId, search, sortBy, sortOrder |
| TaskQueries.BuildTaskListQuery | src/hooks/use-task-queries.ts:39-48 | the query string built step by step equals the serialised selection of the truthy parameters |
| TaskQueries.TaskListLookup | src/hooks/use-task-queries.ts:39-47 | each parameter is present with its value exactly when truthy (page 0, pageSize 0 and "" left out) |
| TaskQueries.TaskListShape | src/hooks/use-task-queries.ts:39-48 | parameter names follow the fixed order; the query string is empty iff no parameter is truthy |
| TaskQueries.TaskListRecordRoundTrip | src/hooks/use-task-queries.ts:23-37 | the parameter object in the list key reads back to the parameters it was built from |
| TaskQueries.TasksQuery | src/hooks/use-task-queries.ts:35-54 | the list query's key is list(params) with the parameter object, it is a GET without body, and it is enabled iff projectId is non-empty |
| TaskQueries.TaskListKeyInjective | src/hooks/use-task-queries.ts:16-17 | two list keys are equal only for equal parameters |
| TaskQueries.TasksQueryKeyDistinguishes | src/hooks/use-task-queries.ts:35-54 | two task-list queries with the same key have the same parameters, so the same request |
| TaskQueries.TasksQueryPath | src/hooks/use-task-queries.ts:48-51 | the path is /api/projects/{projectId}/tasks, plus "?qs" only for a non-empty query string |
| TaskQueries.TaskQuery | src/hooks/use-task-queries.ts:57-64 | the detail query is keyed by detail(id), is GET /api/tasks/{id} without body, and is enabled iff id is non-empty |
| TaskQueries.CreateTaskInvalidates | src/hooks/use-task-queries.ts:66-78 | creating refreshes a key iff lists() is its prefix: never a detail key or stats() |
| TaskQueries.UpdateTaskInvalidates | src/hooks/use-task-queries.ts:81-91 | updating refreshes exactly keys under detail(id) or lists(), no other task's detail and not stats() |
| TaskQueries.DeleteTaskInvalidates | src/hooks/use-task-queries.ts:94-103 | deleting refreshes exactly keys under lists(), no detail key and not stats() |
| TaskQueries.StatsCandidates | src/hooks/use-task-queries.ts:114-118 | the stats builder sets pageSize, then assigneeId |
| TaskQueries.BuildStatsQuery | src/hooks/use-task-queries.ts:114-122 | the stats query string built step by step equals the serialised selection |
| TaskQueries.StatsPairsShape | src/hooks/use-task-queries.ts:114-118 | the stats request always has pageSize=1 and has assigneeId exactly when one is given |
| TaskQueries.StatsTotal | src/hooks/use-task-queries.ts:120-127 | the total is the response's total, or 0 when the request throws |
| TaskQueries.StatsQueryAsWritten | src/hooks/use-task-queries.ts:110-113 | as written the stats query's key is stats() whatever the assignee |
| TaskQueries.StatsKeyCollision | src/hooks/use-task-queries.ts:110-122 | the stats queries with and without an assignee share one key although their requests differ |
| TaskQueries.StatsQuery | src/hooks/use-task-queries.ts:110-113 | the corrected stats key stays under stats() |
| TaskQueries.StatsQueryKeyDistinguishes | src/hooks/use-task-queries.ts:110-122 | with the parameters in the key, equal keys imply equal requests |
| NotificationQueries.KeysHierarchy | src/hooks/use-notification-queries.ts:10-17 | lists() is a proper prefix of every list(params); unread-count and preferences are outside lists() and unrelated to each other |
| NotificationQueries.ListCandidates | src/hooks/use-notification-queries.ts:27-30 | the guarded sets are page, limit, unreadOnly, in that order |
| NotificationQueries.BuildListQuery | src/hooks/use-notification-queries.ts:27-31 | the query string built step by step equals the serialised selection |
| NotificationQueries.ListQueryShape | src/hooks/use-notification-queries.ts:27-31 | page and limit only when truthy, unreadOnly=true only when true, in that order; empty iff none applies |
| NotificationQueries.ListRecordRoundTrip | src/hooks/use-notification-queries.ts:19-25 | given parameters sit in the key as an object that reads back to them; absent ones as undefined |
| NotificationQueries.ListKeyInjective | src/hooks/use-notification-queries.ts:13-14 | two list keys are equal only for equal parameters |
| NotificationQueries.NotificationsQuery | src/hooks/use-notification-queries.ts:19-37 | keyed by list(params) with the parameter object, not polled, GET /api/notifications with "?qs" only for a non-empty query string |
| NotificationQueries.NotificationsQueryKeyDistinguishes | src/hooks/use-notification-queries.ts:19-37 | two notification-list queries with the same key have the same parameters, so the same request |
| NotificationQueries.UnreadCountQuery | src/hooks/use-notification-queries.ts:39-48 | the unread count is keyed by unread-count and refetched every 30000 ms |
| NotificationQueries.MarkReadInvalidates | src/hooks/use-notification-queries.ts:50-63 | marking one read targets /api/notifications/{id}/read and refreshes exactly lists and unread count, never preferences |
| NotificationQueries.MarkAllReadInvalidates | src/hooks/use-notification-queries.ts:65-76 | marking all read POSTs /api/notifications/read-all and refreshes exactly lists and unread count, never preferences |
| NotificationQueries.UpdatePreferencesInvalidates | src/hooks/use-notification-queries.ts:88-103 | updating preferences refreshes exactly keys under preferences, no list and not the unread count |
| ProjectQueries.KeysHierarchy | src/hooks/use-project-queries.ts:11-18 | the all/lists/list and all/details/detail chains; the list side covers no detail; detail keys are prefix-related iff ids are equal |
| ProjectQueries.ListCandidates | src/hooks/use-project-queries.ts:24-27 | the guarded sets are page, pageSize, search, in that order |
| ProjectQueries.BuildListQuery | src/hooks/use-project-queries.ts:24-28 | the query string built step by step equals the serialised selection |
| ProjectQueries.ListQueryShape | src/hooks/use-project-queries.ts:24-28 | page, pageSize and search only when truthy, in that order; empty iff none is |
| ProjectQueries.ListRecordRoundTrip | src/hooks/use-project-queries.ts:20-22 | given parameters sit in the key as an object that reads back to them; absent ones as undefined |
| ProjectQueries.ListKeyInjective | src/hooks/use-project-queries.ts:14-15 | two list keys are equal only for equal parameters |
| ProjectQueries.ProjectsQuery | src/hooks/use-project-queries.ts:20-34 | keyed by list(params) with the parameter object, GET /api/projects with "?qs" only for a non-empty query string |
| ProjectQueries.ProjectsQueryKeyDistinguishes | src/hooks/use-project-queries.ts:20-34 | two project-list queries with the same key have the same parameters, so the same request |
| ProjectQueries.ProjectQuery | src/hooks/use-project-queries.ts:36-43 | keyed by detail(id), GET /api/projects/{id}, enabled iff id is non-empty |
| ProjectQueries.CreateProjectInvalidates | src/hooks/use-project-queries.ts:45-55 | creating refreshes exactly keys under lists(), never a detail |
| ProjectQueries.UpdateProjectInvalidates | src/hooks/use-project-queries.ts:57-68 | updating refreshes exactly keys under detail(id) or lists(), and no other project's detail |
| ProjectQueries.DeleteProjectInvalidates | src/hooks/use-project-queries.ts:70-80 | deleting refreshes exactly keys under lists(), never a detail |
| WebhookQueries.KeysHierarchy | src/hooks/use-webhook-queries.ts:9-13 | detail(id) is ["webhooks","detail",id]; it and lists() share only ["webhooks"] |
| WebhookQueries.WebhookQuery | src/hooks/use-webhook-queries.ts:23-30 | keyed by detail(id), GET /api/webhooks/{id}, enabled iff id is non-empty |
| WebhookQueries.MutationsInvalidateOnlyLists | src/hooks/use-webhook-queries.ts:46-98 | each of create, update, delete and toggle refreshes exactly keys under lists(), never a detail |
| WebhookQueries.ToggleBody | src/hooks/use-webhook-queries.ts:89-93 | toggle PATCHes /api/webhooks/{id} with a body whose only key is active |
| UserQueries.MeKeyUnrelated | src/hooks/use-user-queries.ts:5-10 | me() is ["users","me"] and is not prefix-related to lists() or any detail(id) |
| UserQueries.UserQuery | src/hooks/use-user-queries.ts:19-25 | keyed by detail(id), GET /api/users/{id}, enabled iff id is non-empty |
| UserQueries.UpdateUserBody | src/hooks/use-user-queries.ts:38-39 | the update body has at most name and avatarUrl, each present iff given and then holding the given string |
| UserQueries.UpdateUserInvalidates | src/hooks/use-user-queries.ts:34-45 | updating targets /api/users/{id} and refreshes exactly keys under detail(id) or me(), not the user list |
| CommentQueries.ListKeyDistinct | src/hooks/use-comment-queries.ts:5-8 | list(taskId) is ["comments","list",taskId]; two list keys are prefix-related iff the task ids are equal |
| CommentQueries.CommentsQuery | src/hooks/use-comment-queries.ts:10-19 | keyed by list(taskId), GET /api/tasks/{taskId}/comments, enabled iff taskId is non-empty |
| CommentQueries.CreateCommentInvalidates | src/hooks/use-comment-queries.ts:21-34 | creating refreshes exactly the keys under this task's comment list: no other task's list and no key outside it |
| CommentQueries.DeleteCommentInvalidates | src/hooks/use-comment-queries.ts:36-46 | deleting targets /api/comments/{commentId} but refreshes exactly the keys under the owning task's list, whatever the comment id |
| Utils.StatusColor | src/lib/utils.ts:9-17 | a known status gets its entry; anything else gets the todo colour |
| Utils.StatusLabel | src/lib/utils.ts:19-27 | a known status gets its entry; anything else is labelled with itself |
| Utils.MapsCoverStatuses | src/lib/utils.ts:9-27 | both maps have an entry exactly for the four statuses |
| Utils.StatusColorsDistinct | src/lib/utils.ts:10-15 | two statuses have the same colour iff they are the same status |
| Utils.StatusLabels | src/lib/utils.ts:20-25 | the labels are "To Do", "In Progress", "Review", "Done", and they are pairwise distinct |
| Utils.UnknownStatusFallback | src/lib/utils.ts:16-26 | an unknown status is coloured like todo and labelled with its own text |
| DashboardHeader.RouteLabel | src/components/layout/dashboard-header.tsx:38 | a known segment gets its routeLabels entry, otherwise the segment itself |
| DashboardHeader.RouteLabelAsWritten | src/components/layout/dashboard-header.tsx:38 | as written, "__proto__" reads Object.prototype, an inherited method name reads a function, and every other segment reads RouteLabel's text |
| DashboardHeader.ProtoSegmentCrashes | src/components/layout/dashboard-header.tsx:31-38 | /projects/__proto__ has the segment "__proto__", labelled Object.prototype as written; "constructor" reads a method; RouteLabel labels both with themselves |
| DashboardHeader.Segments | src/components/layout/dashboard-header.tsx:32 | every segment is non-empty and slash-free |
| DashboardHeader.GetBreadcrumbs | src/components/layout/dashboard-header.tsx:31-43 | one crumb per segment, in order; crumb i has the label of segment i and the href "/"-joined segments 0..i |
| DashboardHeader.SegmentsAtSlash | src/components/layout/dashboard-header.tsx:32 | the segments of x + "/" + y are those of x followed by those of y |
| DashboardHeader.SegmentsOfPiece | src/components/layout/dashboard-header.tsx:32 | a slash-free string is one segment, or none when empty |
| DashboardHeader.DoubleSlash | src/components/layout/dashboard-header.tsx:32 | a repeated slash adds no segment |
| DashboardHeader.RootHasNoSegments | src/components/layout/dashboard-header.tsx:32 | "/" has no segments, hence no crumbs |
| DashboardHeader.RepeatedSlashesExample | src/components/layout/dashboard-header.tsx:32 | "//a//b/" and "/a/b" both have the segments [a, b] |
| DashboardHeader.HrefSegments | src/components/layout/dashboard-header.tsx:36-40 | the segments of a crumb's href are the segments it was built from |
| DashboardHeader.HrefPrefix | src/components/layout/dashboard-header.tsx:37 | each crumb's href is a prefix of every later crumb's href |
| DashboardHeader.Rendered | src/components/layout/dashboard-header.tsx:56-76 | no crumbs render one "Dashboard" page; otherwise all but the last are links and the last is the page |
| DashboardHeader.OnePage | src/components/layout/dashboard-header.tsx:61-72 | exactly the last rendered item is a page |
| NotificationBell.TimeAgoBuckets | src/components/layout/notification-bell.tsx:26-37 | "just now" under 60 s (also in the future), then floor minutes under an hour, floor hours under a day, floor days beyond |
| NotificationBell.BadgeText | src/components/layout/notification-bell.tsx:93-96 | a badge iff the count is positive; "99+" above 99, else the number |
| NotificationBell.BadgeShort | src/components/layout/notification-bell.tsx:95 | the badge text has at most three characters |
| NotificationBell.UnreadCount | src/components/layout/notification-bell.tsx:80 | a missing count is 0 |
| NotificationBell.NoDataNoBadge | src/components/layout/notification-bell.tsx:80-97 | with no data there is no badge and no item |
| NotificationBell.BellListRequest | src/components/layout/notification-bell.tsx:77 | the bell requests /api/notifications?limit=5 |
| NotificationBell.TypeIcon | src/components/layout/notification-bell.tsx:58 | a known type gets its icon, an unknown one the bell |
| NotificationBell.TypeIconsDistinct | src/components/layout/notification-bell.tsx:18-24 | known types have pairwise distinct icons, none of them the fallback bell |
| NotificationBell.Click | src/components/layout/notification-bell.tsx:51-55 | clicking sends mark-read for the item's id iff it is unread |
| Forms.CollectFieldErrors | src/features/tasks/create-task-dialog.tsx:105-110 | the loop over the issues builds exactly FieldErrors of them |
| Forms.FieldErrorsDomain | src/features/tasks/create-task-dialog.tsx:107-110 | a field has an error iff some issue is on it |
| Forms.LastIssueWins | src/features/tasks/create-task-dialog.tsx:107-110 | the last issue on a field gives that field's message |
| Forms.FieldErrorsConcat | src/features/tasks/create-task-dialog.tsx:103-110 | the errors of two runs of issues are the first's, overridden field by field by the second's |
| Forms.LengthIssues | src/features/tasks/create-task-dialog.tsx:31-38 | a min/max string check yields no issue iff min <= length <= max; every issue is on its field |
| Forms.LengthIssuesError | src/features/tasks/create-task-dialog.tsx:31-34 | with min <= max at most one check fails, and its message is the field's error |
| Forms.RequiredFieldErrors | src/features/projects/create-project-dialog.tsx:23-26 | one required bounded field: "required" when empty, "too long" above the bound, no error otherwise |
| Forms.RequiredFieldsErrors | src/features/projects/create-project-dialog.tsx:22-31 | two such fields: each has an error iff out of range, with the matching message, and no other key exists |
| Forms.ErrorMessage | src/features/tasks/create-task-dialog.tsx:123-125 | an Error's message, else the fallback text |
| CreateTaskDialog.TagToAdd | src/features/tasks/create-task-dialog.tsx:74-79 | a tag is added iff the trimmed input is non-empty and not listed, and it is the trimmed input |
| CreateTaskDialog.AddKeepsWellFormed | src/features/tasks/create-task-dialog.tsx:74-79 | adding keeps the list free of blanks, untrimmed entries and duplicates; adding the same input again does nothing |
| CreateTaskDialog.RemoveKeepsWellFormed | src/features/tasks/create-task-dialog.tsx:81-83 | removing keeps the list well formed |
| CreateTaskDialog.AddThenRemove | src/features/tasks/create-task-dialog.tsx:74-83 | removing the tag just added gives back the list |
| CreateTaskDialog.RemoveCutsOut | src/features/tasks/create-task-dialog.tsx:81-83 | removing a listed tag cuts out its position and keeps the others in order |
| CreateTaskDialog.Truthy | src/features/tasks/create-task-dialog.tsx:100-101 | an empty optional input is dropped, any other is kept as is |
| CreateTaskDialog.PayloadKeys | src/features/tasks/create-task-dialog.tsx:89-101 | title, description and priority always; tags iff the list is non-empty; assignee and due date iff non-empty; the priority decodes back |
| CreateTaskDialog.ValidateErrors | src/features/tasks/create-task-dialog.tsx:30-45 | valid iff title is 1-200 and description 1-2000; errors only on those fields, with the schema's messages |
| CreateTaskDialog.Dialog.constructor | src/features/tasks/create-task-dialog.tsx:65-71 | closed, no errors, priority medium, no tag input, no tags |
| CreateTaskDialog.Dialog.SetOpen | src/features/tasks/create-task-dialog.tsx:130 | only the open flag changes |
| CreateTaskDialog.Dialog.SetTagInput | src/features/tasks/create-task-dialog.tsx:221 | only the tag input changes |
| CreateTaskDialog.Dialog.SetPriority | src/features/tasks/create-task-dialog.tsx:176 | only the priority changes |
| CreateTaskDialog.Dialog.AddTag | src/features/tasks/create-task-dialog.tsx:74-79 | appends TagToAdd and clears the input when there is one, else changes nothing; the list stays well formed |
| CreateTaskDialog.Dialog.RemoveTag | src/features/tasks/create-task-dialog.tsx:81-83 | the tags become the list without that tag; the list stays well formed |
| CreateTaskDialog.Dialog.Submit | src/features/tasks/create-task-dialog.tsx:85-127 | invalid: the error map and nothing sent; valid: the create request; success closes and resets priority and tags; failure keeps them |
| CreateTaskDialog.Dialog.Cancel | src/features/tasks/create-task-dialog.tsx:264-268 | closes and resets priority to medium and tags to empty |
| CreateProjectDialog.ValidateErrors | src/features/projects/create-project-dialog.tsx:22-31 | valid iff name is 1-100 and description 1-500; each field out of range has its required or too-long message |
| CreateProjectDialog.ProjectRecord | src/features/projects/create-project-dialog.tsx:47-50 | the body holds exactly the name and the description |
| CreateProjectDialog.Dialog.constructor | src/features/projects/create-project-dialog.tsx:36-39 | closed, no errors |
| CreateProjectDialog.Dialog.SetOpen | src/features/projects/create-project-dialog.tsx:76 | only the open flag changes |
| CreateProjectDialog.Dialog.Submit | src/features/projects/create-project-dialog.tsx:42-73 | invalid: the error map and nothing sent; valid: the create request; success closes, failure keeps it open with the error toast |
| CreateProjectDialog.Dialog.Cancel | src/features/projects/create-project-dialog.tsx:117-122 | closes without submitting or touching the errors |
| AuthStore.CookieLifetime | src/stores/auth-store.ts:20 | the cookie lives 604800 s (7 days) and carries the token |
| AuthStore.Step | src/stores/auth-store.ts:18-35 | every action keeps isAuthenticated equal to having a token; hydrate never changes the user |
| AuthStore.RunConsistent | src/stores/auth-store.ts:13-35 | in every reachable state isAuthenticated holds iff there is a token |
| AuthStore.ClearThenHydrate | src/stores/auth-store.ts:24-35 | clearAuth leaves the initial state; a later hydrate restores at most the token, never the user |
| AuthStore.Store.constructor | src/stores/auth-store.ts:13-16 | no token, no user, not authenticated |
| AuthStore.Store.SetAuth | src/stores/auth-store.ts:18-22 | persists the token, writes the 7-day cookie, sets token, user and the flag |
| AuthStore.Store.ClearAuth | src/stores/auth-store.ts:24-28 | removes the stored token, expires the cookie, resets all three fields |
| AuthStore.Browser.Unauthorized | src/lib/api-client.ts:32-35 | a 401 response removes the stored token and expires the cookie, leaving the store's fields alone |
| AuthStore.Store.Hydrate | src/stores/auth-store.ts:30-35 | adopts a truthy stored token with the flag and keeps the user; otherwise changes nothing |
| LoginForm.ValidateErrors | src/features/auth/login-form.tsx:14-17 | valid iff the e-mail passes and the password is non-empty; each failing field has its message |
| LoginForm.LoginRequest | src/features/auth/login-form.tsx:51-54 | POST /api/auth/login with the e-mail and password |
| LoginForm.CallbackUrl | src/features/auth/login-form.tsx:56 | the callbackUrl parameter when truthy, else "/projects"; never empty |
| LoginForm.Form.constructor | src/features/auth/login-form.tsx:25-26 | not loading, no errors |
| LoginForm.Form.BeginSubmit | src/features/auth/login-form.tsx:28-49 | clears errors; invalid: the error map and no request; valid: loading on and the login request sent |
| LoginForm.Form.CompleteSubmit | src/features/auth/login-form.tsx:49-63 | success: setAuth with the response, the token stored and the 7-day cookie written before the redirect; failure: error toast ("Login failed" fallback) and store unchanged; loading off either way |
| ProfileForm.FirstChars | src/features/settings/profile-form.tsx:99-100 | exactly the first character of each non-empty word, in order (an empty word's `n[0]` joins as "") |
| ProfileForm.Initials | src/features/settings/profile-form.tsx:96-103 | at most two characters, none of them a-z; "U" for the empty name |
| ProfileForm.InitialsOfWords | src/features/settings/profile-form.tsx:96-103 | for any name of space-free non-empty words joined by single spaces, the upper-cased first letters of the first two words |
| ProfileForm.InitialsOneWord | src/features/settings/profile-form.tsx:96-103 | a one-word name gives its upper-cased first letter |
| ProfileForm.InitialsTwoWords | src/features/settings/profile-form.tsx:96-103 | a two-word name gives both upper-cased first letters, in order |
| ProfileForm.InitialsThreeWords | src/features/settings/profile-form.tsx:96-103 | a third word does not count |
| ProfileForm.BlankNameHasNoInitials | src/features/settings/profile-form.tsx:96-103 | a name of one space has empty initials: the "U" fallback covers only the empty name |
| ProfileForm.InitialFormData | src/features/settings/profile-form.tsx:29-38 | empty fields when there is no user |
| ProfileForm.InitialPrefersFetched | src/features/settings/profile-form.tsx:30 | the fetched user wins over the store's user, which is used only without one |
| ProfileForm.ValidateErrors | src/features/settings/profile-form.tsx:14-17 | valid iff the name is non-empty and the avatar URL is a URL or ""; each failing field has its message |
| ProfileForm.UpdatePayload | src/features/settings/profile-form.tsx:80-84 | the name always; an empty avatar URL is sent as undefined, any other as is |
| ProfileForm.InitialDataRoundTrip | src/features/settings/profile-form.tsx:80-84 | submitting a user's data unchanged sends back their name and avatar URL |
| ProfileForm.Form.constructor | src/features/settings/profile-form.tsx:40-43 | the initial data and no errors |
| ProfileForm.Form.HandleChange | src/features/settings/profile-form.tsx:45-58 | only the named field changes and only its error is cleared |
| ProfileForm.Form.HandleSubmit | src/features/settings/profile-form.tsx:60-94 | invalid: the error map; no user id: "User ID not found" and nothing sent; else the update for that user and its toast |
| EditableTitle.SaveResult | src/features/tasks/editable-title.tsx:28-36 | onSave is called iff the trimmed edit is non-empty and differs from the value, with the trimmed edit |
| EditableTitle.SavedTitleIsClean | src/features/tasks/editable-title.tsx:28-34 | a saved title is non-blank, trimmed and new; saving it again sends nothing |
| EditableTitle.PaddedTitleSavesNothing | src/features/tasks/editable-title.tsx:29-30 | the current title with spaces around it saves nothing |
| EditableTitle.SaveExamples | src/features/tasks/__tests__/editable-title.test.tsx:18-39 | "Updated Task" over "My Task" is saved; the unchanged title is not |
| EditableTitle.Editor.constructor | src/features/tasks/editable-title.tsx:12-14 | not editing; the buffer holds the value |
| EditableTitle.Editor.SetValue | src/features/tasks/editable-title.tsx:17-19 | the value prop is adopted; the buffer is reset to it only when it differs from the previous value, otherwise the buffer is kept |
| EditableTitle.Editor.SetDisabled | src/features/tasks/editable-title.tsx:12 | only the disabled prop changes |
| EditableTitle.Editor.Click | src/features/tasks/editable-title.tsx:63 | a click enters edit mode iff not disabled |
| EditableTitle.Editor.HeadingKeyDown | src/features/tasks/editable-title.tsx:66-68 | Enter enters edit mode iff not disabled; other keys do nothing |
| EditableTitle.Editor.Change | src/features/tasks/editable-title.tsx:52 | typing sets the buffer |
| EditableTitle.Editor.Save | src/features/tasks/editable-title.tsx:28-36 | returns SaveResult; reverts the buffer when nothing is saved; always leaves edit mode |
| EditableTitle.Editor.InputKeyDown | src/features/tasks/editable-title.tsx:38-45 | Enter saves, keeping the buffer when a title is saved and reverting it otherwise; Escape reverts and leaves without saving; other keys change nothing |
| EditableTitle.Editor.Blur | src/features/tasks/editable-title.tsx:53 | leaving the input saves and leaves edit mode, keeping the buffer when a title is saved and reverting it otherwise |
| TaskComments.ValidateFirstIssue | src/features/tasks/task-comments.tsx:20-22 | valid iff 1-2000 characters; a failing body has one issue, "cannot be empty" or "too long" |
| TaskComments.TimestampMatchesBell | src/features/tasks/task-comments.tsx:70-88 | under a week the text equals the bell's relative time; from a week on it is a calendar date |
| TaskComments.Slice | src/features/tasks/task-comments.tsx:140 | `slice(0, n)` is the prefix of length min(n, length) |
| TaskComments.AuthorLabel | src/features/tasks/task-comments.tsx:140 | the label is "You" iff the author is the signed-in user |
| TaskComments.AuthorLabelOfOthers | src/features/tasks/task-comments.tsx:140 | another author's label is "User " plus their whole id when shorter than 8, else its first 8 characters |
| TaskComments.AvatarText | src/features/tasks/task-comments.tsx:133 | min(2, length) characters, each the upper-cased character of the author id at that position |
| TaskComments.AvatarMatchesLabel | src/features/tasks/task-comments.tsx:133-140 | for another author with an id of two or more characters, the avatar is the upper-cased first two id characters shown in the label, with no a-z |
| TaskComments.DeleteOnlyOwn | src/features/tasks/task-comments.tsx:146 | delete is offered iff the label is "You", never when signed out |
| TaskComments.EnabledPostIsNotEmpty | src/features/tasks/task-comments.tsx:188 | an enabled post button has a non-empty body, valid when within 2000 characters |
| TaskComments.Panel.constructor | src/features/tasks/task-comments.tsx:35-36 | empty body, no validation error |
| TaskComments.Panel.SetBody | src/features/tasks/task-comments.tsx:176 | typing sets the body only |
| TaskComments.Panel.Submit | src/features/tasks/task-comments.tsx:38-55 | invalid: first issue's message and nothing sent; valid: the create request; success clears the body, failure keeps it |
| TaskComments.Panel.Delete | src/features/tasks/task-comments.tsx:57-68 | nothing unless confirmed; then the delete request and the toast for its outcome |
| AddMemberDialog.AvailableUsers | src/features/projects/add-member-dialog.tsx:48-50 | a user is offered iff neither a member nor the owner |
| AddMemberDialog.AvailableUsersAppend | src/features/projects/add-member-dialog.tsx:48-50 | the filter works piecewise, so order is preserved |
| AddMemberDialog.OwnerNeverOffered | src/features/projects/add-member-dialog.tsx:49 | the owner is never offered, even when not in the member list |
| AddMemberDialog.NobodyExcluded | src/features/projects/add-member-dialog.tsx:48-50 | with nobody to exclude every user is offered, in order |
| AddMemberDialog.EnabledSubmitHasSelection | src/features/projects/add-member-dialog.tsx:145 | an enabled submit has a selected user and no pending request |
| AddMemberDialog.Dialog.constructor | src/features/projects/add-member-dialog.tsx:39-41 | closed, nobody selected, role member |
| AddMemberDialog.Dialog.SetOpen | src/features/projects/add-member-dialog.tsx:75 | only the open flag changes |
| AddMemberDialog.Dialog.SelectUser | src/features/projects/add-member-dialog.tsx:95 | only the selected user changes |
| AddMemberDialog.Dialog.SelectRole | src/features/projects/add-member-dialog.tsx:121 | only the selected role changes |
| AddMemberDialog.Dialog.Submit | src/features/projects/add-member-dialog.tsx:52-72 | nobody selected: error toast and nothing sent; else the selection sent; success closes and resets, failure keeps state |
| CommandPalette.SearchQueryRequest | src/components/command-palette.tsx:22 | the palette's query is under the project lists key and asks for /api/projects, or ?search= with a non-empty search |
| CommandPalette.BlocksShown | src/components/command-palette.tsx:58-94 | "Searching..." iff loading; empty state and group need a finished load and a search, and never show together; the prompt iff the search is empty |
| CommandPalette.Palette.constructor | src/components/command-palette.tsx:18-19 | closed, empty search |
| CommandPalette.Palette.KeyDown | src/components/command-palette.tsx:27-31 | Meta+k or Ctrl+k toggles and prevents the default; any other key changes nothing |
| CommandPalette.Palette.SetOpen | src/components/command-palette.tsx:47 | only the open flag changes |
| CommandPalette.Palette.SetSearch | src/components/command-palette.tsx:55 | only the search changes |
| CommandPalette.Palette.SelectProject | src/components/command-palette.tsx:38-42 | navigates to /projects/{id}, closes, clears the search |

## Left out

**Libraries and I/O**
- The query library's own behaviour is not modelled: caching, de-duplication, background refetch, polling timers and subscribers. Prefix invalidation is the one stated assumption.
- The API client (`src/lib/api-client.ts`) is not part of this model apart from its 401 handler's storage and cookie effect, `AuthStore.Browser.Unauthorized`. Requests are values; their outcomes are parameters. The handler's redirect to /login is not modelled.
- JSX rendering, styling, skeletons and focus or select effects are not modelled. The only rendering choices modelled are the breadcrumb list and the palette's blocks.
- The window `keydown` listener's registration and removal are not modelled.
- The add-member mutation hook is not part of this model, because it is not defined in the project query hooks. `AddMemberDialog.Dialog.Submit` returns the call it receives.

**Strings and formats**
- Percent-encoding of query strings (application/x-www-form-urlencoded, section 5.2 of the WHATWG URL Standard) is not modelled. `QueryClient.Serialize` joins `name=value` pairs with `&`.
- String lengths are counted in code points, where JavaScript counts UTF-16 code units. A text outside the Basic Multilingual Plane is shorter here.
- `Common.UpperCase` upper-cases only a-z, not the full Unicode mapping of `toUpperCase`.
- QueryClient.NumberCandidate: numbers are integers. Fractions, NaN, infinities and exponent notation (`String(1e21)` is "1e+21") are not modelled. The same holds for the number fields of TaskQueries.TaskListParams, ProjectQueries.ListParams and NotificationQueries.ListParams.
- Utils.StatusColor: the lookup sees only the object's own keys. An inherited Object.prototype name such as "constructor" or "toString" would read a function in the source; the model gives the todo colour.
- Utils.StatusLabel: own keys only, as for StatusColor; an inherited name would read a function, where the model labels it with itself.
- Utils.UnknownStatusFallback: states the fallback for names outside the own keys only; inherited Object.prototype names are not covered.
- NotificationBell.TypeIcon: own keys only; an inherited Object.prototype name would read a function, where the model gives the bell.
- DashboardHeader.RouteLabel: own keys only; the inherited names are modelled separately by `DashboardHeader.RouteLabelAsWritten` (see Findings).
- Date parsing and `toLocaleDateString` are not modelled. Times are integer milliseconds, and a comment a week or older shows `CalendarDate`.
- zod's e-mail and URL grammars are not modelled. They are predicate parameters.

**Form and component behaviour**
- `form.reset()` after a created task is not modelled: the uncontrolled inputs are not state here.
- The `isPending` disabling of submit buttons is modelled only as predicates: `AddMemberDialog.SubmitDisabled` and `TaskComments.PostDisabled`.
- ProfileForm.Form.constructor: `useState` takes the initial data only at the first render. Later changes of the fetched user do not reach the form, and the model, like the source, does not refresh it.
- ProfileForm.Form.HandleChange: the source sets the field's error to undefined, and the model removes the key. Both read as "no error".
- ProfileForm.Validate: when a non-empty avatar URL fails, zod's union reports the URL check's own issue, "Invalid URL". The model returns that issue.
- A blur of the title input after it has left edit mode is not modelled: `EditableTitle.Editor.Blur` requires edit mode.

## Findings

| source | as written | input that shows it | evidently intended | confidence | as-written member | corrected member |
|---|---|---|---|---|---|---|
| src/hooks/use-task-queries.ts:110-113 | the stats query's key is `taskKeys.stats()` whatever `assigneeId` is | the dashboard calls `useGlobalTaskStats()` and `useGlobalTaskStats({ assigneeId: user.id })` (src/app/(dashboard)/page.tsx:57-60): two different requests under one cache key | the key carries the parameters, so different requests get different keys | not executed | TaskQueries.StatsKeyCollision | TaskQueries.StatsQueryKeyDistinguishes |
| src/components/layout/dashboard-header.tsx:38 | `routeLabels[segment] ?? segment` also finds members inherited from Object.prototype | pathname /projects/__proto__: the label is Object.prototype, and React throws on an object child; /projects/constructor gets a function, an empty crumb | an unknown segment is labelled with itself | not executed | DashboardHeader.ProtoSegmentCrashes | DashboardHeader.RouteLabel |
