/**
 * The vocabulary of the generated database types: the enums the console relies on, the
 * `Constants` table that lists their members at run time, and the row shapes of the tables
 * the core reads and writes.
 */
module DatabaseTypes {
  import opened Wrappers

  /** Primary keys and foreign keys are uuid strings. */
  type Id = string
  /** Timestamps travel as ISO-8601 strings. */
  type Timestamp = string

  // ---------------------------------------------------------------------------------------
  // Enums
  // ---------------------------------------------------------------------------------------

  datatype AppRole = User | Admin | Moderator {
    /** The string the database stores for this role. */
    function Name(): string {
      match this
      case User => "user"
      case Admin => "admin"
      case Moderator => "moderator"
    }
  }

  datatype ModerationAction = NoAction | RemovedContent | WarningSent | TempSuspend | PermBan {
    function Name(): string {
      match this
      case NoAction => "none"
      case RemovedContent => "removed_content"
      case WarningSent => "warning_sent"
      case TempSuspend => "temp_suspend"
      case PermBan => "perm_ban"
    }
  }

  datatype ReportReason = Spam | Harassment | Hate | Nudity | Violence | Scam | Other

  datatype ReportStatus = Open | Triaged | Actioned | Dismissed {
    function Name(): string {
      match this
      case Open => "open"
      case Triaged => "triaged"
      case Actioned => "actioned"
      case Dismissed => "dismissed"
    }
  }

  datatype ReportTargetType = UserTarget | PostTarget | CommentTarget {
    function Name(): string {
      match this
      case UserTarget => "user"
      case PostTarget => "post"
      case CommentTarget => "comment"
    }
  }

  datatype PostVisibility = Public | Friends

  // ---------------------------------------------------------------------------------------
  // The `Constants` table: the enum members as run-time string arrays, in declaration order
  // ---------------------------------------------------------------------------------------

  const AppRoleConstants: seq<string> := ["user", "admin", "moderator"]
  const ModerationActionConstants: seq<string> :=
    ["none", "removed_content", "warning_sent", "temp_suspend", "perm_ban"]
  const ReportStatusConstants: seq<string> := ["open", "triaged", "actioned", "dismissed"]
  const ReportTargetTypeConstants: seq<string> := ["user", "post", "comment"]

  /** Every member of each enum, in the order the type union declares them. */
  const AllAppRoles: seq<AppRole> := [User, Admin, Moderator]
  const AllModerationActions: seq<ModerationAction> :=
    [NoAction, RemovedContent, WarningSent, TempSuspend, PermBan]
  const AllReportStatuses: seq<ReportStatus> := [Open, Triaged, Actioned, Dismissed]
  const AllReportTargetTypes: seq<ReportTargetType> := [UserTarget, PostTarget, CommentTarget]

  /** No string appears twice in `names`. */
  predicate Distinct(names: seq<string>) {
    forall i, j :: 0 <= i < j < |names| ==> names[i] != names[j]
  }

  lemma AppRoleConstantsExact()
    ensures |AppRoleConstants| == |AllAppRoles| && Distinct(AppRoleConstants)
    ensures forall i :: 0 <= i < |AllAppRoles| ==> AppRoleConstants[i] == AllAppRoles[i].Name()
    ensures forall r: AppRole :: r in AllAppRoles
  {
    forall r: AppRole ensures r in AllAppRoles {
      match r
      case User => assert AllAppRoles[0] == r;
      case Admin => assert AllAppRoles[1] == r;
      case Moderator => assert AllAppRoles[2] == r;
    }
  }

  lemma ModerationActionConstantsExact()
    ensures |ModerationActionConstants| == |AllModerationActions| && Distinct(ModerationActionConstants)
    ensures forall i :: 0 <= i < |AllModerationActions| ==>
      ModerationActionConstants[i] == AllModerationActions[i].Name()
    ensures forall a: ModerationAction :: a in AllModerationActions
  {
    forall a: ModerationAction ensures a in AllModerationActions {
      match a
      case NoAction => assert AllModerationActions[0] == a;
      case RemovedContent => assert AllModerationActions[1] == a;
      case WarningSent => assert AllModerationActions[2] == a;
      case TempSuspend => assert AllModerationActions[3] == a;
      case PermBan => assert AllModerationActions[4] == a;
    }
  }

  lemma ReportStatusConstantsExact()
    ensures |ReportStatusConstants| == |AllReportStatuses| && Distinct(ReportStatusConstants)
    ensures forall i :: 0 <= i < |AllReportStatuses| ==> ReportStatusConstants[i] == AllReportStatuses[i].Name()
    ensures forall s: ReportStatus :: s in AllReportStatuses
  {
    forall s: ReportStatus ensures s in AllReportStatuses {
      match s
      case Open => assert AllReportStatuses[0] == s;
      case Triaged => assert AllReportStatuses[1] == s;
      case Actioned => assert AllReportStatuses[2] == s;
      case Dismissed => assert AllReportStatuses[3] == s;
    }
  }

  lemma ReportTargetTypeConstantsExact()
    ensures |ReportTargetTypeConstants| == |AllReportTargetTypes| && Distinct(ReportTargetTypeConstants)
    ensures forall i :: 0 <= i < |AllReportTargetTypes| ==>
      ReportTargetTypeConstants[i] == AllReportTargetTypes[i].Name()
    ensures forall t: ReportTargetType :: t in AllReportTargetTypes
  {
    forall t: ReportTargetType ensures t in AllReportTargetTypes {
      match t
      case UserTarget => assert AllReportTargetTypes[0] == t;
      case PostTarget => assert AllReportTargetTypes[1] == t;
      case CommentTarget => assert AllReportTargetTypes[2] == t;
    }
  }

  /** Reads a stored report target type back; anything outside the enum is not a target type. */
  function ParseReportTargetType(s: string): (r: Option<ReportTargetType>)
    ensures r.Some? <==> s in ReportTargetTypeConstants
    ensures r.Some? ==> r.value.Name() == s
  {
    if s == "user" then Some(UserTarget)
    else if s == "post" then Some(PostTarget)
    else if s == "comment" then Some(CommentTarget)
    else None
  }

  lemma ReportTargetTypeRoundTrip(t: ReportTargetType)
    ensures ParseReportTargetType(t.Name()) == Some(t)
  {
  }

  // ---------------------------------------------------------------------------------------
  // Rows
  // ---------------------------------------------------------------------------------------

  /**
   * A `reports` row. `status` and `action` are never null; `action_notes`, `triaged_at` and
   * the other optional columns may be.
   */
  datatype Report = Report(
    action: ModerationAction,
    actionNotes: Option<string>,
    createdAt: Timestamp,
    details: Option<string>,
    id: Id,
    reason: ReportReason,
    reporterId: Id,
    status: ReportStatus,
    targetCreatedAt: Option<Timestamp>,
    targetId: Id,
    targetOwnerId: Option<Id>,
    targetPreview: Option<string>,
    targetType: ReportTargetType,
    triagedAt: Option<Timestamp>,
    triagedBy: Option<Id>,
    updatedAt: Timestamp)

  /**
   * The `reports` Update shape: every column is optional (`None` = not supplied); a nullable
   * column is supplied as `Some(None)` for null.
   */
  datatype ReportUpdate = ReportUpdate(
    action: Option<ModerationAction>,
    actionNotes: Option<Option<string>>,
    createdAt: Option<Timestamp>,
    details: Option<Option<string>>,
    id: Option<Id>,
    reason: Option<ReportReason>,
    reporterId: Option<Id>,
    status: Option<ReportStatus>,
    targetCreatedAt: Option<Option<Timestamp>>,
    targetId: Option<Id>,
    targetOwnerId: Option<Option<Id>>,
    targetPreview: Option<Option<string>>,
    targetType: Option<ReportTargetType>,
    triagedAt: Option<Option<Timestamp>>,
    triagedBy: Option<Option<Id>>,
    updatedAt: Option<Timestamp>)

  /** The update that supplies no column at all. */
  const NoChanges: ReportUpdate := ReportUpdate(
    None, None, None, None, None, None, None, None, None, None, None, None, None, None, None, None)

  /** The row the database holds after applying `u` to `row`: supplied columns replace, the rest stay. */
  function ApplyUpdate(row: Report, u: ReportUpdate): Report {
    Report(
      u.action.GetOr(row.action),
      u.actionNotes.GetOr(row.actionNotes),
      u.createdAt.GetOr(row.createdAt),
      u.details.GetOr(row.details),
      u.id.GetOr(row.id),
      u.reason.GetOr(row.reason),
      u.reporterId.GetOr(row.reporterId),
      u.status.GetOr(row.status),
      u.targetCreatedAt.GetOr(row.targetCreatedAt),
      u.targetId.GetOr(row.targetId),
      u.targetOwnerId.GetOr(row.targetOwnerId),
      u.targetPreview.GetOr(row.targetPreview),
      u.targetType.GetOr(row.targetType),
      u.triagedAt.GetOr(row.triagedAt),
      u.triagedBy.GetOr(row.triagedBy),
      u.updatedAt.GetOr(row.updatedAt))
  }

  /** Any subset of columns may be supplied; supplying none leaves the row as it was. */
  lemma EmptyUpdateIsIdentity(row: Report)
    ensures ApplyUpdate(row, NoChanges) == row
  {
  }

  /**
   * Any subset of columns may be supplied: each column of the updated row is the supplied
   * value when the update carries one, and the row's own value otherwise.
   */
  lemma ApplyUpdateFrame(row: Report, u: ReportUpdate)
    ensures ApplyUpdate(row, u).action == if u.action.Some? then u.action.value else row.action
    ensures ApplyUpdate(row, u).actionNotes == if u.actionNotes.Some? then u.actionNotes.value else row.actionNotes
    ensures ApplyUpdate(row, u).createdAt == if u.createdAt.Some? then u.createdAt.value else row.createdAt
    ensures ApplyUpdate(row, u).details == if u.details.Some? then u.details.value else row.details
    ensures ApplyUpdate(row, u).id == if u.id.Some? then u.id.value else row.id
    ensures ApplyUpdate(row, u).reason == if u.reason.Some? then u.reason.value else row.reason
    ensures ApplyUpdate(row, u).reporterId == if u.reporterId.Some? then u.reporterId.value else row.reporterId
    ensures ApplyUpdate(row, u).status == if u.status.Some? then u.status.value else row.status
    ensures ApplyUpdate(row, u).targetCreatedAt == if u.targetCreatedAt.Some? then u.targetCreatedAt.value else row.targetCreatedAt
    ensures ApplyUpdate(row, u).targetId == if u.targetId.Some? then u.targetId.value else row.targetId
    ensures ApplyUpdate(row, u).targetOwnerId == if u.targetOwnerId.Some? then u.targetOwnerId.value else row.targetOwnerId
    ensures ApplyUpdate(row, u).targetPreview == if u.targetPreview.Some? then u.targetPreview.value else row.targetPreview
    ensures ApplyUpdate(row, u).targetType == if u.targetType.Some? then u.targetType.value else row.targetType
    ensures ApplyUpdate(row, u).triagedAt == if u.triagedAt.Some? then u.triagedAt.value else row.triagedAt
    ensures ApplyUpdate(row, u).triagedBy == if u.triagedBy.Some? then u.triagedBy.value else row.triagedBy
    ensures ApplyUpdate(row, u).updatedAt == if u.updatedAt.Some? then u.updatedAt.value else row.updatedAt
  {
  }

  /** A `posts` row. */
  datatype Post = Post(
    caption: string,
    createdAt: Timestamp,
    id: Id,
    imagePath: Option<string>,
    tags: seq<string>,
    userId: Id,
    visibility: PostVisibility)

  /** A `comments` row; `parentId` points at another comment for threaded replies. */
  datatype Comment = Comment(
    content: string,
    createdAt: Timestamp,
    id: Id,
    parentId: Option<Id>,
    postId: Id,
    userId: Id)

  /** A `profiles` row; `id` is the auth principal's id. */
  datatype Profile = Profile(
    createdAt: Timestamp,
    id: Id,
    nickname: Option<string>,
    role: Option<AppRole>)

  /** Values the console offers for a notice's scope and severity. */
  datatype NoticeScope = Global | UserScope
  datatype NoticeSeverity = Info | Warning | Critical

  /** A `notices` row. */
  datatype Notice = Notice(
    body: Option<string>,
    createdAt: Timestamp,
    createdBy: Option<Id>,
    id: Id,
    linkCommentId: Option<Id>,
    linkPostId: Option<Id>,
    recipientId: Option<Id>,
    scope: NoticeScope,
    severity: NoticeSeverity,
    title: string,
    updatedAt: Timestamp)

  /**
   * How the backend answered one update or delete request:
   * `Written` — accepted, and it matched the rows it names;
   * `Filtered` — accepted without an error, but the row-level access policy (or a missing
   *   key) let it match no row, so nothing changed;
   * `Refused` — the request came back with an error and nothing changed.
   */
  datatype WriteResult = Written | Filtered | Refused

  /**
   * `delete().eq('id', id)` on a table keyed by id: removes the row with that key if there
   * is one (a missing key matches no row and is not an error) and keeps every other row.
   */
  function DeleteById<R>(table: map<Id, R>, id: Id): (r: map<Id, R>)
    ensures id !in r
    ensures r.Keys == table.Keys - {id}
    ensures forall k :: k in r ==> r[k] == table[k]
  {
    table - {id}
  }
}
