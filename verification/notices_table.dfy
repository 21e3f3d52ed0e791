/**
 * The notice broadcast screen: the create form with its client-side guards, the insert
 * payload built from it, the insert and delete requests, and the form reset after a create.
 */
module NoticesTable {
  import opened Wrappers
  import opened DatabaseTypes

  /** The create dialog's fields; the recipient is typed free-hand and may be empty. */
  datatype NoticeForm = NoticeForm(
    scope: NoticeScope,
    title: string,
    body: string,
    severity: NoticeSeverity,
    recipientId: string)

  /** The form the component starts with and returns to after a successful create. */
  const InitialForm: NoticeForm := NoticeForm(Global, "", "", Info, "")

  /** Outcome of `handleCreate`'s guards: go ahead, or stop with the alert's message. */
  datatype Validation = Accepted | Rejected(message: string)

  const TitleRequired: string := "Title is required"
  const RecipientRequired: string := "Recipient ID is required for user notices"

  /**
   * The guards run before any insert: a title is required, and a user-scoped notice needs a
   * recipient; a global notice may leave the recipient empty.
   */
  function Validate(form: NoticeForm): (v: Validation)
    ensures v == Accepted <==> form.title != "" && (form.scope == UserScope ==> form.recipientId != "")
    ensures v == Rejected(TitleRequired) <==> form.title == ""
    ensures v == Rejected(RecipientRequired) <==> form.title != "" && form.scope == UserScope && form.recipientId == ""
  {
    if form.title == "" then Rejected(TitleRequired)
    else if form.scope == UserScope && form.recipientId == "" then Rejected(RecipientRequired)
    else Accepted
  }

  /** The object passed to `insert`. */
  datatype NoticePayload = NoticePayload(
    scope: NoticeScope,
    title: string,
    body: string,
    severity: NoticeSeverity,
    createdBy: Option<Id>,
    recipientId: Option<Id>)

  /**
   * The payload for `form`, sent by the user `currentUser` (absent when there is no session):
   * it copies scope, title, body and severity, records the sender, and carries a recipient
   * exactly when the notice is user-scoped; that recipient is the form's.
   */
  function BuildPayload(form: NoticeForm, currentUser: Option<Id>): (p: NoticePayload)
    ensures p.scope == form.scope && p.title == form.title && p.body == form.body
    ensures p.severity == form.severity && p.createdBy == currentUser
    ensures p.recipientId.Some? <==> form.scope == UserScope
    ensures p.recipientId.Some? ==> p.recipientId.value == form.recipientId
  {
    NoticePayload(form.scope, form.title, form.body, form.severity, currentUser,
      if form.scope == UserScope then Some(form.recipientId) else None)
  }

  /** Whatever passes the guards yields a payload whose recipient is present iff it is user-scoped, and never empty. */
  lemma AcceptedPayloadHasRecipientIffUserScoped(form: NoticeForm, currentUser: Option<Id>)
    requires Validate(form) == Accepted
    ensures var p := BuildPayload(form, currentUser);
      p.title != "" && (p.recipientId.Some? <==> p.scope == UserScope) &&
      (p.recipientId.Some? ==> p.recipientId.value != "")
  {
  }

  /** The columns of a stored notice that an insert payload supplies. */
  function PayloadOf(n: Notice): NoticePayload {
    NoticePayload(n.scope, n.title, n.body.GetOr(""), n.severity, n.createdBy, n.recipientId)
  }

  /**
   * The row the database stores for a payload: every payload column is kept as sent, the
   * database fills in the id and both timestamps, and the link columns default to null.
   */
  function InsertedRow(p: NoticePayload, id: Id, now: Timestamp): (n: Notice)
    ensures PayloadOf(n) == p
    ensures n.id == id && n.createdAt == now && n.updatedAt == now
    ensures n.linkPostId.None? && n.linkCommentId.None?
  {
    Notice(Some(p.body), now, p.createdBy, id, None, None, p.recipientId, p.scope, p.severity, p.title, now)
  }

  /** What `handleCreate` led to. */
  datatype CreateOutcome = NotSubmitted(message: string) | Created | InsertFailed

  /** The notices component: the remote `notices` table and the component's own state. */
  class NoticesPanel {
    var notices: map<Id, Notice>
    var newNotice: NoticeForm
    var isCreateOpen: bool
    /** Set when a successful create or delete invalidated the fetched notice list. */
    var listStale: bool

    constructor (notices: map<Id, Notice>)
      ensures this.notices == notices && newNotice == InitialForm && !isCreateOpen && !listStale
    {
      this.notices := notices;
      newNotice := InitialForm;
      isCreateOpen := false;
      listStale := false;
    }

    /**
     * `handleCreate` and the create mutation: check the guards, build the payload for
     * `currentUser`, insert it as row `newId` at `now`. The insert fails when the backend
     * answers with an error (an access-policy violation on insert is one) or the key is taken; then nothing changes and the form keeps what was typed.
     */
    method Create(currentUser: Option<Id>, newId: Id, now: Timestamp, insertRefused: bool)
      returns (outcome: CreateOutcome)
      modifies this
      ensures Validate(old(newNotice)).Rejected? ==>
        outcome == NotSubmitted(Validate(old(newNotice)).message) &&
        notices == old(notices) && newNotice == old(newNotice) &&
        isCreateOpen == old(isCreateOpen) && listStale == old(listStale)
      ensures Validate(old(newNotice)) == Accepted && (insertRefused || newId in old(notices)) ==>
        outcome == InsertFailed &&
        notices == old(notices) && newNotice == old(newNotice) &&
        isCreateOpen == old(isCreateOpen) && listStale == old(listStale)
      ensures Validate(old(newNotice)) == Accepted && !insertRefused && newId !in old(notices) ==>
        outcome == Created &&
        notices == old(notices)[newId := InsertedRow(BuildPayload(old(newNotice), currentUser), newId, now)] &&
        newNotice == InitialForm && !isCreateOpen && listStale
    {
      var validation := Validate(newNotice);
      if validation.Rejected? {
        return NotSubmitted(validation.message);
      }
      var payload := BuildPayload(newNotice, currentUser);
      if insertRefused || newId in notices {
        return InsertFailed;
      }
      notices := notices[newId := InsertedRow(payload, newId, now)];
      // onSuccess
      listStale := true;
      isCreateOpen := false;
      newNotice := InitialForm;
      return Created;
    }

    /**
     * The delete mutation: removes exactly the notice with that id. A delete the access policy
     * filters down to no row is not an error: nothing is removed, yet it counts as success.
     */
    method Delete(id: Id, deleteResult: WriteResult) returns (ok: bool)
      modifies this`notices, this`listStale
      ensures ok <==> deleteResult != Refused
      ensures deleteResult == Written ==> notices == DeleteById(old(notices), id) && listStale
      ensures deleteResult == Filtered ==> notices == old(notices) && listStale
      ensures deleteResult == Refused ==> notices == old(notices) && listStale == old(listStale)
    {
      if deleteResult == Refused {
        return false;
      }
      if deleteResult == Written {
        notices := DeleteById(notices, id);
      }
      listStale := true;
      return true;
    }
  }
}
