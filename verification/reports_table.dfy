/**
 * The moderation-report triage screen: choosing a report, pre-filling the review panel from
 * it, dispatching to the context view for its target, and committing the decision (optional
 * removal of the reported post or comment, then the report update).
 */
module ReportsTable {
  import opened Wrappers
  import opened DatabaseTypes

  // ---------------------------------------------------------------------------------------
  // Looking up the selected report
  // ---------------------------------------------------------------------------------------

  /** `list.find(r => r.id === id)`: the first report in the list with that id, if any. */
  function FindReport(list: seq<Report>, id: Id): (r: Option<Report>)
    ensures r.None? <==> forall i :: 0 <= i < |list| ==> list[i].id != id
    ensures r.Some? ==> exists k :: 0 <= k < |list| && list[k] == r.value && r.value.id == id &&
                                    (forall i :: 0 <= i < k ==> list[i].id != id)
  {
    if |list| == 0 then None
    else if list[0].id == id then Some(list[0])
    else
      var r := FindReport(list[1..], id);
      assert forall i :: 1 <= i < |list| ==> list[i] == list[1..][i - 1];
      if r.Some? then
        ghost var k :| 0 <= k < |list[1..]| && list[1..][k] == r.value && r.value.id == id &&
          forall i :: 0 <= i < k ==> list[1..][i].id != id;
        assert list[k + 1] == r.value;
        r
      else r
  }

  // ---------------------------------------------------------------------------------------
  // Context dispatch
  // ---------------------------------------------------------------------------------------

  /** The context panels the review sheet can show. */
  datatype ContextView =
    | PostDetails(postId: Id)
    | UserDetails(userId: Id)
    | CommentDetails(commentId: Id)
    | PreviewNotAvailable

  /**
   * The panels rendered for a report whose `target_type` column reads `targetType`: four
   * independent conditions, one per panel, the last one the fallback for unknown types.
   */
  function ContextViews(targetType: string, targetId: Id): (views: set<ContextView>)
    ensures |views| == 1
    ensures PreviewNotAvailable in views <==> ParseReportTargetType(targetType).None?
    ensures forall v :: v in views && !v.PreviewNotAvailable? ==>
      ParseReportTargetType(targetType).Some? && v == ViewFor(ParseReportTargetType(targetType).value, targetId)
  {
    (if targetType == "post" then {PostDetails(targetId)} else {})
    + (if targetType == "user" then {UserDetails(targetId)} else {})
    + (if targetType == "comment" then {CommentDetails(targetId)} else {})
    + (if targetType !in ["post", "user", "comment"] then {PreviewNotAvailable} else {})
  }

  /** The panel that belongs to each target type. */
  function ViewFor(t: ReportTargetType, targetId: Id): ContextView {
    match t
    case PostTarget => PostDetails(targetId)
    case UserTarget => UserDetails(targetId)
    case CommentTarget => CommentDetails(targetId)
  }

  /** A report row, whose target type is always one of the enum's members, never shows the fallback. */
  lemma TypedTargetGetsItsOwnView(report: Report)
    ensures ContextViews(report.targetType.Name(), report.targetId) ==
      {ViewFor(report.targetType, report.targetId)}
  {
  }

  // ---------------------------------------------------------------------------------------
  // The decision commit
  // ---------------------------------------------------------------------------------------

  /** The reported target as the selected report gives it (absent when no report is selected). */
  datatype TargetRef = TargetRef(targetType: ReportTargetType, targetId: Id)

  /** The arguments of the commit: the report id, the operator's choices and the target. */
  datatype TriageRequest = TriageRequest(
    id: Id,
    status: ReportStatus,
    action: ModerationAction,
    notes: string,
    target: Option<TargetRef>)

  datatype CommitError = PostDeleteFailed | CommentDeleteFailed | ReportUpdateFailed

  datatype CommitOutcome = Committed | Failed(error: CommitError)

  /** The three remote tables the commit touches. */
  datatype Tables = Tables(posts: map<Id, Post>, comments: map<Id, Comment>, reports: map<Id, Report>)

  datatype CommitResult = CommitResult(tables: Tables, outcome: CommitOutcome)

  /** The content row the commit removes before it updates the report, if any. */
  datatype Deletion = NoDeletion | DeletePost(postId: Id) | DeleteComment(commentId: Id)

  /**
   * The status column written by the commit: taking any action other than `none` marks the
   * report `actioned`, whatever status was chosen.
   */
  function StoredStatus(chosen: ReportStatus, action: ModerationAction): (s: ReportStatus)
    ensures s == Actioned || s == chosen
    ensures s == chosen <==> action == NoAction || chosen == Actioned
  {
    if action != NoAction then Actioned else chosen
  }

  /** Removal is wired for post and comment targets only; a user target has no deletion path. */
  function ContentDeletion(req: TriageRequest): (d: Deletion)
    ensures d.DeletePost? <==> req.action == RemovedContent && req.target.Some? && req.target.value.targetType == PostTarget
    ensures d.DeleteComment? <==> req.action == RemovedContent && req.target.Some? && req.target.value.targetType == CommentTarget
    ensures d.DeletePost? ==> d.postId == req.target.value.targetId
    ensures d.DeleteComment? ==> d.commentId == req.target.value.targetId
  {
    if req.action == RemovedContent && req.target.Some? then
      match req.target.value.targetType
      case PostTarget => DeletePost(req.target.value.targetId)
      case CommentTarget => DeleteComment(req.target.value.targetId)
      case UserTarget => NoDeletion
    else
      NoDeletion
  }

  /**
   * The update sent for the report. Applied to any row it replaces exactly `status`,
   * `action`, `action_notes` and `triaged_at`, and keeps every other column.
   */
  function TriageUpdate(req: TriageRequest, now: Timestamp): (u: ReportUpdate)
    ensures forall row :: ApplyUpdate(row, u) == row.(
      status := StoredStatus(req.status, req.action),
      action := req.action,
      actionNotes := Some(req.notes),
      triagedAt := Some(now))
  {
    NoChanges.(
      status := Some(StoredStatus(req.status, req.action)),
      action := Some(req.action),
      actionNotes := Some(Some(req.notes)),
      triagedAt := Some(Some(now)))
  }

  /** `update(...).eq('id', id)`: a missing id matches no row, which is not an error. */
  function UpdateById(reports: map<Id, Report>, id: Id, u: ReportUpdate): (r: map<Id, Report>)
    ensures r.Keys == reports.Keys
    ensures id in reports ==> r[id] == ApplyUpdate(reports[id], u)
    ensures forall k :: k in r && k != id ==> r[k] == reports[k]
  {
    if id in reports then reports[id := ApplyUpdate(reports[id], u)] else reports
  }

  /**
   * What one commit does to the tables, given how the backend answers the content delete
   * (`deleteResult`, consulted only when a delete is sent) and the report update
   * (`updateResult`). Only an error aborts: the code inspects nothing but the error, so a
   * request the access policy filtered down to no row counts as success. The delete and the
   * update are two separate requests: a refused delete aborts before the update, a refused
   * update leaves an already performed delete in place.
   */
  function CommitEffect(t: Tables, req: TriageRequest, now: Timestamp, deleteResult: WriteResult, updateResult: WriteResult): (r: CommitResult)
    ensures r.outcome == Committed <==>
      (ContentDeletion(req) == NoDeletion || deleteResult != Refused) && updateResult != Refused
    ensures r.outcome.Failed? && r.outcome.error != ReportUpdateFailed ==> r.tables == t
    ensures r.tables.reports != t.reports ==> r.outcome == Committed && updateResult == Written
    ensures r.tables.posts.Keys <= t.posts.Keys && r.tables.comments.Keys <= t.comments.Keys
  {
    var deletion := ContentDeletion(req);
    if deletion != NoDeletion && deleteResult == Refused then
      CommitResult(t, Failed(if deletion.DeletePost? then PostDeleteFailed else CommentDeleteFailed))
    else
      var afterDelete := if deleteResult != Written then t else match deletion
        case NoDeletion => t
        case DeletePost(p) => t.(posts := DeleteById(t.posts, p))
        case DeleteComment(c) => t.(comments := DeleteById(t.comments, c));
      match updateResult
      case Refused => CommitResult(afterDelete, Failed(ReportUpdateFailed))
      case Filtered => CommitResult(afterDelete, Committed)
      case Written =>
        CommitResult(afterDelete.(reports := UpdateById(afterDelete.reports, req.id, TriageUpdate(req, now))), Committed)
  }

  /**
   * After a successful commit on an existing report whose update was written, the report's
   * action is the chosen one and its status is `actioned` if an action was taken, else the
   * chosen one; an update the policy filtered out leaves the row as it was.
   */
  lemma CommittedStatusRule(t: Tables, req: TriageRequest, now: Timestamp, deleteResult: WriteResult, updateResult: WriteResult)
    requires req.id in t.reports
    requires CommitEffect(t, req, now, deleteResult, updateResult).outcome == Committed
    ensures req.id in CommitEffect(t, req, now, deleteResult, updateResult).tables.reports
    ensures var row := CommitEffect(t, req, now, deleteResult, updateResult).tables.reports[req.id];
      (updateResult == Written ==>
         row.action == req.action &&
         (req.action != NoAction ==> row.status == Actioned) &&
         (req.action == NoAction ==> row.status == req.status)) &&
      (updateResult == Filtered ==> row == t.reports[req.id])
  {
  }

  /**
   * The report update writes only `status`, `action`, `action_notes` and `triaged_at`, on the
   * row with the request's id; every other column and every other report stays as it was.
   */
  lemma CommitWritesOnlyFourColumns(t: Tables, req: TriageRequest, now: Timestamp, deleteResult: WriteResult, updateResult: WriteResult)
    requires CommitEffect(t, req, now, deleteResult, updateResult).outcome == Committed
    ensures var after := CommitEffect(t, req, now, deleteResult, updateResult).tables.reports;
      after.Keys == t.reports.Keys &&
      (forall id :: id in after && id != req.id ==> after[id] == t.reports[id]) &&
      (req.id in t.reports && updateResult == Written ==> after[req.id] == t.reports[req.id].(
         status := StoredStatus(req.status, req.action),
         action := req.action,
         actionNotes := Some(req.notes),
         triagedAt := Some(now))) &&
      (updateResult == Filtered ==> after == t.reports)
  {
  }

  /** A post disappears only through `removed_content` on a post target, and only the targeted post. */
  lemma PostDeletedOnlyWhenTargeted(t: Tables, req: TriageRequest, now: Timestamp, deleteResult: WriteResult, updateResult: WriteResult)
    ensures var after := CommitEffect(t, req, now, deleteResult, updateResult).tables.posts;
      (forall p :: p in after ==> p in t.posts && after[p] == t.posts[p]) &&
      (forall p :: p in t.posts && p !in after ==>
         req.action == RemovedContent && req.target == Some(TargetRef(PostTarget, p)) && deleteResult == Written)
    ensures req.action == RemovedContent && deleteResult == Written && req.target.Some? && req.target.value.targetType == PostTarget ==>
      CommitEffect(t, req, now, deleteResult, updateResult).tables.posts == t.posts - {req.target.value.targetId}
  {
  }

  /** A comment disappears only through `removed_content` on a comment target, and only the targeted comment. */
  lemma CommentDeletedOnlyWhenTargeted(t: Tables, req: TriageRequest, now: Timestamp, deleteResult: WriteResult, updateResult: WriteResult)
    ensures var after := CommitEffect(t, req, now, deleteResult, updateResult).tables.comments;
      (forall c :: c in after ==> c in t.comments && after[c] == t.comments[c]) &&
      (forall c :: c in t.comments && c !in after ==>
         req.action == RemovedContent && req.target == Some(TargetRef(CommentTarget, c)) && deleteResult == Written)
    ensures req.action == RemovedContent && deleteResult == Written && req.target.Some? && req.target.value.targetType == CommentTarget ==>
      CommitEffect(t, req, now, deleteResult, updateResult).tables.comments == t.comments - {req.target.value.targetId}
  {
  }

  /** `removed_content` against a user (or with no selected report) deletes nothing; only the report is updated. */
  lemma UserTargetDeletesNothing(t: Tables, req: TriageRequest, now: Timestamp, deleteResult: WriteResult, updateResult: WriteResult)
    requires req.target.None? || req.target.value.targetType == UserTarget
    ensures var r := CommitEffect(t, req, now, deleteResult, updateResult);
      r.tables.posts == t.posts && r.tables.comments == t.comments &&
      (updateResult != Refused ==> r.outcome == Committed) &&
      (updateResult == Written ==> r.tables.reports == UpdateById(t.reports, req.id, TriageUpdate(req, now)))
  {
  }

  /** A refused content delete aborts the whole commit: no table changes, the report included. */
  lemma DeleteFailureLeavesReportUntouched(t: Tables, req: TriageRequest, now: Timestamp, updateResult: WriteResult)
    requires ContentDeletion(req) != NoDeletion
    ensures var r := CommitEffect(t, req, now, Refused, updateResult);
      r.tables == t && r.outcome.Failed? && r.outcome.error != ReportUpdateFailed
  {
  }

  /**
   * A delete the access policy filters down to no row is not an error: the report is still
   * stored as `actioned` with `removed_content` and the commit succeeds, while the post stays.
   */
  lemma PolicyFilteredDeleteStillActions(t: Tables, req: TriageRequest, postId: Id, now: Timestamp)
    requires req.action == RemovedContent && req.target == Some(TargetRef(PostTarget, postId))
    requires postId in t.posts && req.id in t.reports
    ensures var r := CommitEffect(t, req, now, Filtered, Written);
      r.outcome == Committed && r.tables.posts == t.posts && req.id in r.tables.reports &&
      r.tables.reports[req.id].status == Actioned && r.tables.reports[req.id].action == RemovedContent
  {
  }

  /**
   * The two requests are not one transaction: when the delete goes through and the update is
   * refused, the content is gone while the report row is unchanged.
   */
  lemma PartialFailureWindow(t: Tables, req: TriageRequest, postId: Id, now: Timestamp)
    requires req.action == RemovedContent && req.target == Some(TargetRef(PostTarget, postId))
    requires postId in t.posts
    ensures var r := CommitEffect(t, req, now, Written, Refused);
      r.outcome == Failed(ReportUpdateFailed) && r.tables.reports == t.reports && postId !in r.tables.posts
  {
  }

  /** A report whose stored status agrees with its action, as every commit leaves it. */
  predicate TriageConsistent(r: Report) {
    r.action != NoAction ==> r.status == Actioned
  }

  /** Every successful commit leaves the committed report consistent, and keeps consistent ones consistent. */
  lemma CommitKeepsReportsConsistent(t: Tables, req: TriageRequest, now: Timestamp, deleteResult: WriteResult, updateResult: WriteResult)
    requires forall id :: id in t.reports ==> TriageConsistent(t.reports[id])
    ensures var after := CommitEffect(t, req, now, deleteResult, updateResult).tables.reports;
      forall id :: id in after ==> TriageConsistent(after[id])
  {
  }

  // ---------------------------------------------------------------------------------------
  // The review panel
  // ---------------------------------------------------------------------------------------

  /** JavaScript truthiness of the selected id: null and the empty string both mean "none". */
  predicate IsSelected(selectedId: Option<Id>) {
    selectedId.Some? && selectedId.value != ""
  }

  /** The request `handleSave` sends for the selected id and the panel's current fields. */
  function SaveRequest(list: seq<Report>, id: Id, status: ReportStatus, action: ModerationAction, notes: string): (req: TriageRequest)
    ensures req.id == id && req.status == status && req.action == action && req.notes == notes
    ensures req.target.Some? <==> exists i :: 0 <= i < |list| && list[i].id == id
    ensures req.target.Some? ==> exists i :: 0 <= i < |list| && list[i].id == id &&
                                             req.target.value == TargetRef(list[i].targetType, list[i].targetId)
  {
    var selected := FindReport(list, id);
    TriageRequest(id, status, action, notes,
      if selected.Some? then Some(TargetRef(selected.value.targetType, selected.value.targetId)) else None)
  }

  /**
   * Opening a listed report and saving it unchanged: for a report with non-null notes whose
   * status agrees with its action, the report row changes only in `triaged_at`. A
   * `removed_content` decision on a post or comment re-issues the delete, so a refused delete
   * makes the save fail with nothing changed; any other decision touches no post or comment.
   */
  lemma ResaveChangesOnlyTimestamp(t: Tables, list: seq<Report>, report: Report, now: Timestamp,
                                   deleteResult: WriteResult, updateResult: WriteResult)
    requires FindReport(list, report.id) == Some(report)
    requires report.id in t.reports && t.reports[report.id] == report
    requires report.actionNotes.Some? && TriageConsistent(report)
    ensures var req := SaveRequest(list, report.id, report.status, report.action, report.actionNotes.GetOr(""));
      var r := CommitEffect(t, req, now, deleteResult, updateResult);
      var deletes := report.action == RemovedContent && report.targetType != UserTarget;
      (!deletes ==> r.tables.posts == t.posts && r.tables.comments == t.comments) &&
      (deletes && deleteResult == Refused ==> r.outcome.Failed? && r.tables == t) &&
      ((!deletes || deleteResult != Refused) && updateResult == Written ==>
         r.outcome == Committed && r.tables.reports == t.reports[report.id := report.(triagedAt := Some(now))])
  {
  }

  /** Null notes are pre-filled as the empty string, so saving stores `''` where there was null. */
  lemma ResaveTurnsNullNotesIntoEmpty(report: Report, now: Timestamp)
    requires report.actionNotes.None?
    ensures var req := TriageRequest(report.id, report.status, report.action, report.actionNotes.GetOr(""), None);
      ApplyUpdate(report, TriageUpdate(req, now)).actionNotes == Some("")
  {
  }

  /**
   * The report-triage component: the remote tables it reads and writes, the fetched report
   * list, whether that list must be refetched, and the review panel's state.
   */
  class ReportsPanel {
    var posts: map<Id, Post>
    var comments: map<Id, Comment>
    var reports: map<Id, Report>
    /** The last fetched report list (newest first, as the backend returned it). */
    var reportList: seq<Report>
    /** Set when a successful commit invalidated the fetched list. */
    var listStale: bool
    var selectedReportId: Option<Id>
    var notes: string
    var status: ReportStatus
    var action: ModerationAction

    /** The remote tables as one value. */
    function Store(): Tables
      reads this
    {
      Tables(posts, comments, reports)
    }

    /** The report the sheet shows: the selected id looked up in the fetched list. */
    function SelectedReport(): (r: Option<Report>)
      reads this
      ensures r.Some? ==> selectedReportId == Some(r.value.id) && r.value in reportList
      ensures r.None? <==>
        (selectedReportId.None? || forall i :: 0 <= i < |reportList| ==> reportList[i].id != selectedReportId.value)
    {
      if selectedReportId.Some? then FindReport(reportList, selectedReportId.value) else None
    }

    /**
     * The context panels of the sheet: none while the sheet is closed (no truthy selected id)
     * or the selected id is not in the fetched list.
     */
    function SheetContext(): (views: set<ContextView>)
      reads this
      ensures !IsSelected(selectedReportId) || SelectedReport().None? ==> views == {}
      ensures IsSelected(selectedReportId) && SelectedReport().Some? ==>
        views == {ViewFor(SelectedReport().value.targetType, SelectedReport().value.targetId)}
    {
      var selected := SelectedReport();
      if !IsSelected(selectedReportId) || selected.None? then {}
      else
        TypedTargetGetsItsOwnView(selected.value);
        ContextViews(selected.value.targetType.Name(), selected.value.targetId)
    }

    /** The component mounts with no selection and the panel fields at their initial values. */
    constructor (posts: map<Id, Post>, comments: map<Id, Comment>, reports: map<Id, Report>, reportList: seq<Report>)
      ensures Store() == Tables(posts, comments, reports) && this.reportList == reportList
      ensures selectedReportId == None && notes == "" && status == Open && action == NoAction
      ensures !listStale
    {
      this.posts, this.comments, this.reports := posts, comments, reports;
      this.reportList := reportList;
      listStale := false;
      selectedReportId := None;
      notes, status, action := "", Open, NoAction;
    }

    /** `handleOpenSheet`: select the report and pre-fill the panel from it. */
    method OpenSheet(report: Report)
      modifies this`selectedReportId, this`notes, this`status, this`action
      ensures selectedReportId == Some(report.id)
      ensures notes == report.actionNotes.GetOr("") && status == report.status && action == report.action
    {
      selectedReportId := Some(report.id);
      notes := report.actionNotes.GetOr("");
      status := report.status;
      action := report.action;
    }

    /** Closing the sheet clears the selection and keeps the panel fields. */
    method CloseSheet()
      modifies this`selectedReportId
      ensures selectedReportId == None
    {
      selectedReportId := None;
    }

    /** The commit (`mutationFn`): the optional content delete, then the report update. */
    method CommitDecision(req: TriageRequest, now: Timestamp, deleteResult: WriteResult, updateResult: WriteResult)
      returns (outcome: CommitOutcome)
      modifies this`posts, this`comments, this`reports
      ensures CommitResult(Store(), outcome) == CommitEffect(old(Store()), req, now, deleteResult, updateResult)
    {
      // 1. remove the reported content when that is the action
      if req.action == RemovedContent && req.target.Some? {
        var target := req.target.value;
        if target.targetType == PostTarget {
          if deleteResult == Refused {
            return Failed(PostDeleteFailed);
          }
          if deleteResult == Written {
            posts := DeleteById(posts, target.targetId);
          }
        } else if target.targetType == CommentTarget {
          if deleteResult == Refused {
            return Failed(CommentDeleteFailed);
          }
          if deleteResult == Written {
            comments := DeleteById(comments, target.targetId);
          }
        }
      }
      // 2. update the report
      if updateResult == Refused {
        return Failed(ReportUpdateFailed);
      }
      if updateResult == Written {
        reports := UpdateById(reports, req.id, TriageUpdate(req, now));
      }
      return Committed;
    }

    /**
     * `handleSave`: nothing without a (truthy) selected id; otherwise commit the panel's
     * decision for the selected report and, on success, invalidate the list and close the sheet.
     */
    method Save(now: Timestamp, deleteResult: WriteResult, updateResult: WriteResult) returns (submitted: Option<CommitOutcome>)
      modifies this
      ensures reportList == old(reportList)
      ensures notes == old(notes) && status == old(status) && action == old(action)
      ensures !IsSelected(old(selectedReportId)) ==>
        submitted.None? && Store() == old(Store()) &&
        selectedReportId == old(selectedReportId) && listStale == old(listStale)
      ensures IsSelected(old(selectedReportId)) ==>
        var effect := CommitEffect(old(Store()),
          SaveRequest(old(reportList), old(selectedReportId).value, old(status), old(action), old(notes)),
          now, deleteResult, updateResult);
        submitted == Some(effect.outcome) && Store() == effect.tables &&
        (effect.outcome == Committed ==> selectedReportId == None && listStale) &&
        (effect.outcome.Failed? ==> selectedReportId == old(selectedReportId) && listStale == old(listStale))
    {
      if !IsSelected(selectedReportId) {
        return None;
      }
      var req := SaveRequest(reportList, selectedReportId.value, status, action, notes);
      var outcome := CommitDecision(req, now, deleteResult, updateResult);
      if outcome == Committed {
        listStale := true;
        selectedReportId := None;
      }
      return Some(outcome);
    }
  }
}
