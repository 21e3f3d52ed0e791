# Admin console core, modelled in Dafny

This project models the logic inside an admin console for a social-media platform. The console
is a web front end that reads and writes a hosted database directly. Five pieces of it carry
rules worth stating:

- **Report triage commit** (`reports_table.dfy`). A moderator records a decision on a report.
  When the action is `removed_content`, the reported post or comment is deleted first. A
  rejected delete aborts the commit. Otherwise the report row is updated, and its status is
  forced to `actioned` whenever the action is not `none`. The module also covers the review
  panel: selecting a report, pre-filling the panel, saving, closing on success. It also covers
  which context panel the sheet shows for a target type.
- **Admin route gate** (`middleware.dfy`). Given the path, the signed-in user and the
  `profiles` table, the gate lets the request through or redirects to `/login` or
  `/login?error=unauthorized`.
- **Notice creation** (`notices_table.dfy`). The client-side guards, the insert payload, the
  insert and delete requests, and the form reset.
- **Sidebar highlighting** (`app_sidebar.dfy`). The five navigation entries and which one is
  active for a path.
- **Enum vocabulary and row shapes** (`database_types.dfy`). The report status, moderation
  action, target type and role enums, the `Constants` table that lists them, and the rows of
  `reports`, `posts`, `comments`, `profiles` and `notices`, with the `reports` Update shape.
  In a `reports` row, `status` and `action` are never null. `action_notes`, `triaged_at` and
  the other nullable columns are `Option`s.

Calls to the hosted backend are modelled as follows:

- Every remote update or delete takes a three-valued oracle, `WriteResult`, for how the backend
  answered that one request:
  - `Written`: the request was applied to the row it names, and to no other row.
  - `Filtered`: the request came back without an error, but the row-level access policy let it
    match no row. The code checks only the error, so it treats this as success.
  - `Refused`: the request came back with an error, from the policy or the transport.
- The notice insert takes a boolean `insertRefused`. An insert that the policy does not allow
  comes back with an error; it is not filtered silently.
- The current time (`now`), the signed-in user and the database-generated notice id are
  parameters.
- A filter by id that matches no row is not an error. An update or delete of a missing id
  changes nothing and still succeeds.

`ReportsTable.CommitEffect` is the specification of one commit over the three tables.
`ReportsPanel.CommitDecision` performs it step by step, with early returns, and is proved equal
to it. The lemmas next to `CommitEffect` state the properties of the commit.

Re-opening a report and saving it unchanged is not always a no-op apart from `triaged_at`. A
null `action_notes` is pre-filled as `''`, so saving writes `''` where null was stored
(`ResaveTurnsNullNotesIntoEmpty`). A `removed_content` decision on a post or comment also
re-issues the delete when it is saved again (`ResaveChangesOnlyTimestamp`).

## Model

| member | source | states |
|---|---|---|
| DatabaseTypes.AppRoleConstantsExact | types/database.types.ts:990 | `Constants.app_role` lists exactly user, admin, moderator: the role enum's members, in declaration order, with no repeats |
| DatabaseTypes.ModerationActionConstantsExact | types/database.types.ts:994-1000 | `Constants.moderation_action` lists exactly the five actions of the enum, in order, with no repeats |
| DatabaseTypes.ReportStatusConstantsExact | types/database.types.ts:1018 | `Constants.report_status` lists exactly open, triaged, actioned, dismissed, in order, with no repeats |
| DatabaseTypes.ReportTargetTypeConstantsExact | types/database.types.ts:1019 | `Constants.report_target_type` lists exactly user, post, comment, in order, with no repeats |
| DatabaseTypes.ParseReportTargetType | types/database.types.ts:859 | a string is read as a target type exactly when it is one of the enum's strings, and then as the member with that name |
| DatabaseTypes.ReportTargetTypeRoundTrip | types/database.types.ts:859 | reading back a target type's stored name gives that target type |
| DatabaseTypes.EmptyUpdateIsIdentity | types/database.types.ts:692-709 | every column of the report Update shape is optional; an update that supplies none leaves the row unchanged |
| DatabaseTypes.ApplyUpdateFrame | types/database.types.ts:692-709 | any subset of columns may be supplied: each column of the updated row is the supplied value when the update carries one and the row's own value otherwise |
| DatabaseTypes.DeleteById | components/notices-table.tsx:87 | a delete by id removes the row with that key, if any, and keeps every other row with its contents |
| Middleware.Gate | lib/supabase/middleware.ts:45-74 | pass-through iff the path starts with `/login` or `/auth`, or the user is signed in and their profile's role is `admin`; redirect to `/login` iff the path is gated and there is no user; redirect to `/login?error=unauthorized` iff the path is gated, a user is signed in and their profile is missing or not `admin` |
| Middleware.RoleLookupOnlyWhenNeeded | lib/supabase/middleware.ts:45-63 | when the path is `/login`/`/auth` or nobody is signed in, the decision does not depend on the profiles table |
| Middleware.OnlyAdminPassesGatedPath | lib/supabase/middleware.ts:54-74 | a gated path is let through only for a signed-in user whose profile exists with role `admin` |
| Middleware.PrefixTestIsPlain | lib/supabase/middleware.ts:45 | the test is a plain prefix test: `/authors` passes even with no user, as does `/login-help`, while `/` with no user is redirected to `/login` |
| AppSidebar.NavMain | components/app-sidebar.tsx:59-90 | the navigation list has exactly five entries: Overview `/`, User Management `/users`, Post Management `/posts`, Reports `/reports`, Notices `/notices`, in that order |
| AppSidebar.ActiveRule | components/app-sidebar.tsx:64-88 | Overview is active iff the path is exactly `/`; each other entry is active iff the path starts with its url |
| AppSidebar.SectionUrlsDisjoint | components/app-sidebar.tsx:70-88 | no section url is a prefix of another, and none is a prefix of `/` |
| AppSidebar.AtMostOneActive | components/app-sidebar.tsx:64-88 | for every path at most one navigation entry is active |
| ReportsTable.FindReport | components/reports-table.tsx:61 | the lookup finds nothing iff no listed report has the id; otherwise it finds the first listed report with that id |
| ReportsTable.ContextViews | components/reports-table.tsx:206-218 | exactly one context panel is shown; the "preview not available" fallback is shown iff the target type is not post, user or comment; any other panel is the one for that type, with the target id |
| ReportsTable.TypedTargetGetsItsOwnView | components/reports-table.tsx:206-218 | a report row's target type always gets its own panel (post, user or comment details) and never the fallback |
| ReportsTable.StoredStatus | components/reports-table.tsx:85 | the stored status is either `actioned` or the chosen one; it equals the chosen one iff the action is `none` or `actioned` was chosen |
| ReportsTable.ContentDeletion | components/reports-table.tsx:67-81 | a post is deleted iff the action is `removed_content` and the target is a post; a comment iff it is `removed_content` on a comment; the deleted id is the target id; a user target deletes nothing |
| ReportsTable.TriageUpdate | components/reports-table.tsx:84-89 | the report update, applied to any row, replaces exactly `status` (by the status rule), `action`, `action_notes` (the notes) and `triaged_at` (the commit time) and keeps every other column |
| ReportsTable.UpdateById | components/reports-table.tsx:84-89 | an update by id keeps the set of report ids, replaces the row with that id (if there is one) by the update applied to it, and leaves every other row unchanged |
| ReportsTable.CommitEffect | components/reports-table.tsx:65-91 | the commit succeeds iff no delete is sent or the delete is not refused, and the update is not refused; a refused delete changes no table; reports change only when the update is written; the commit never adds posts or comments |
| ReportsTable.CommittedStatusRule | components/reports-table.tsx:84-86 | after a successful commit on an existing report whose update was written, its action is the chosen one and its status is `actioned` when the action is not `none`, else exactly the chosen status; an update the policy filtered out leaves the row as it was |
| ReportsTable.CommitWritesOnlyFourColumns | components/reports-table.tsx:84-89 | a successful commit changes only `status`, `action`, `action_notes` and `triaged_at` of the row with the request's id, and only when the update was written; no report is added or removed and all other reports are unchanged |
| ReportsTable.PostDeletedOnlyWhenTargeted | components/reports-table.tsx:67-73 | the commit never adds or alters posts; a post disappears only under `removed_content` with that post as target and the delete written; a written delete removes exactly the targeted post |
| ReportsTable.CommentDeletedOnlyWhenTargeted | components/reports-table.tsx:74-80 | the same for comments: only the targeted comment, only under `removed_content` on a comment target with the delete written |
| ReportsTable.UserTargetDeletesNothing | components/reports-table.tsx:67-89 | with a user target, or no known target, posts and comments are untouched; the commit succeeds unless the update is refused, and a written update is exactly the report update |
| ReportsTable.DeleteFailureLeavesReportUntouched | components/reports-table.tsx:67-84 | if the content delete comes back with an error, the commit fails with a delete error before the update: all three tables, the report included, are unchanged |
| ReportsTable.PartialFailureWindow | components/reports-table.tsx:67-90 | delete and update are separate requests: with the delete written and the update refused, the post is gone while the report row is unchanged |
| ReportsTable.PolicyFilteredDeleteStillActions | components/reports-table.tsx:67-90 | a post delete that the access policy filters down to no row is not an error: the commit succeeds and stores the report as `actioned` with `removed_content` while the post remains |
| ReportsTable.CommitKeepsReportsConsistent | components/reports-table.tsx:84-89 | if every report's status agrees with its action (a non-`none` action means `actioned`), it still does after any commit |
| ReportsTable.SaveRequest | components/reports-table.tsx:110-120 | the saved request carries the selected id and the panel's status, action and notes; it has a target iff the selected id is in the fetched list, and then it is that listed report's target type and id |
| ReportsTable.ResaveChangesOnlyTimestamp | components/reports-table.tsx:103-119 | saving a listed, consistent report with non-null notes unchanged, through the request `handleSave` builds, commits with the report row changed only in `triaged_at`; a `removed_content` decision on a post or comment re-issues the delete, and a refused delete makes the save fail with nothing changed; other decisions touch no post or comment |
| ReportsTable.ResaveTurnsNullNotesIntoEmpty | components/reports-table.tsx:105 | null notes are pre-filled as `''`, so saving stores `''` in place of null |
| ReportsTable.ReportsPanel.SelectedReport | components/reports-table.tsx:61 | the report shown is a report of the fetched list carrying the selected id; there is none iff nothing is selected or no listed report has that id |
| ReportsTable.ReportsPanel.SheetContext | components/reports-table.tsx:181-218 | no context panel while the sheet is closed (no selected id, or the empty id) or no listed report is selected; otherwise exactly the panel for its target type and id |
| ReportsTable.ReportsPanel.constructor | components/reports-table.tsx:98-100 | the component starts with no selection, empty notes, status `open`, action `none` |
| ReportsTable.ReportsPanel.OpenSheet | components/reports-table.tsx:103-108 | opening a report selects it and pre-fills notes (null becomes `''`), status and action from it |
| ReportsTable.ReportsPanel.CloseSheet | components/reports-table.tsx:181 | closing the sheet clears the selection |
| ReportsTable.ReportsPanel.CommitDecision | components/reports-table.tsx:65-91 | the step-by-step commit leaves the tables and returns the outcome that `CommitEffect` specifies |
| ReportsTable.ReportsPanel.Save | components/reports-table.tsx:92-120 | with no selected id, or the empty id, nothing is sent and nothing changes; otherwise the panel's decision is committed; on success the list is marked stale and the sheet closes; on failure selection and flag stay |
| NoticesTable.Validate | components/notices-table.tsx:103-106 | a notice passes iff it has a title and, when user-scoped, a recipient; an empty title is rejected with "Title is required"; a titled user notice without recipient with the recipient message; a global notice may have an empty recipient |
| NoticesTable.BuildPayload | components/notices-table.tsx:65-72 | the payload copies scope, title, body and severity, records the current user as creator, and carries the form's recipient iff the scope is `user` (null otherwise) |
| NoticesTable.AcceptedPayloadHasRecipientIffUserScoped | components/notices-table.tsx:65-106 | any form that passes the guards yields a payload with a title and a non-empty recipient exactly when it is user-scoped |
| NoticesTable.InsertedRow | components/notices-table.tsx:74 | the stored notice carries every payload column as sent (reading the payload back from the row gives it again), with the database-chosen id, both timestamps at the insert time, and null link columns |
| NoticesTable.NoticesPanel.constructor | components/notices-table.tsx:95-101 | the form starts as global, empty title/body/recipient, severity info |
| NoticesTable.NoticesPanel.Create | components/notices-table.tsx:61-106 | a rejected form issues no insert and changes nothing; a refused insert (an error, or an id already taken) changes nothing and keeps the form; a successful one adds exactly the payload's row, marks the list stale, closes the dialog and resets the form to its initial value |
| NoticesTable.NoticesPanel.Delete | components/notices-table.tsx:85-93 | a written delete removes exactly the notice with that id and marks the list stale; a delete filtered by the policy removes nothing but still counts as success and marks the list stale; a refused one changes nothing and reports failure |

## Left out

- CommitEffect: database-side ON DELETE effects of the foreign keys `comments_post_id_fkey` (comment to post) and `comments_parent_id_fkey` (reply to comment) are not modelled. Their rules are not part of the schema types. A written delete is taken to remove only the named post or comment; a cascade that also removes the post's comments or the replies is not captured. A delete that such a key restricts comes back with an error, which `Refused` covers.
- InsertedRow: the column defaults of `notices` are assumed, because the schema types do not give them: `created_at` and `updated_at` both set to the insert time, and the link columns null.

- Rendering: tables, badges, sheets, dialogs, skeletons, icons, date formatting and the loading and empty-list states are UI only.
- Fetching the report and notice lists is not modelled: the joins, and the ordering by `created_at` descending, are the backend's query semantics. The fetched report list is given to the component, and a refetch after a successful mutation is reduced to a `listStale` flag.
- Caching and invalidation are not modelled: they belong to the React Query library.
- Concurrency is not modelled. Mutations are asynchronous in the source; the model completes each request before the next one starts, so overlapping requests and stale responses are not covered.
- The context resolvers (the post, user and comment detail components) are not part of this model. Only the choice of which one is shown is modelled.
- Cookie propagation in the middleware is not modelled: it is I/O over a library the model cannot see. The same holds for the session lookup (`auth.getUser`), `signOut`, storage URLs and `console.error`.
- Middleware.Gate: redirects are modelled by their path only. In the source they are absolute URLs built against the request URL. A profile query that fails is treated like a missing profile, which is what the code does with its null result.
- ReportsPanel.OpenSheet: the `|| 'open'` and `|| 'none'` fallbacks are not modelled. A typed report row never holds null in `status` or `action`, so they cannot fire. Only the `|| ''` fallback for notes is modelled.
- Error texts are not modelled. The messages thrown on a rejected delete are reduced to the error codes `PostDeleteFailed` and `CommentDeleteFailed`, and the `alert`/`confirm` prompts are UI.
- Field edits are not modelled: typing into the notes box, the selects and the notice form only replace one field each. The model takes the fields as they stand when Save or Create runs.
- Opening the create dialog is not modelled: it only sets `isCreateOpen`.
- Notice scope and severity are modelled as the enums the form offers. The database column is free text.
- The `profiles` row omits the `gender` and `saved_visibility` columns, which the gate does not read.
- The user and post list screens, the landing page and the login action are not part of this model. The login action holds a second copy of the admin-role check.
