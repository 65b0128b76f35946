/**
 * The chat-history sidebar: the list of saved sessions, the inline rename
 * of one title and the confirmed delete of one session.
 *
 * The session store (load, rename, delete) and the browser's `confirm` are
 * outcomes passed in; an `alert` is appended to `alerts`. A delete is two
 * steps, because the row being deleted is disabled while the store works.
 */
module History {
  import opened Wrappers
  import opened Text
  import opened Types

  const RenameFailedAlert := "Failed to rename chat. Please try again."
  const DeleteFailedAlert := "Failed to delete chat. Please try again."

  /** What a rename sends to the store. */
  datatype RenameRequest = RenameRequest(sessionId: string, userId: string, title: string)

  class ChatHistory {
    const userId: string
    var sessions: seq<ChatSession>
    var loading: bool
    var editingId: Option<string>
    var editTitle: string
    var deletingId: Option<string>
    var alerts: seq<string>

    constructor (userId: string)
      ensures this.userId == userId && sessions == [] && loading
      ensures editingId == None && editTitle == "" && deletingId == None && alerts == []
    {
      this.userId := userId;
      sessions := [];
      loading := true;
      editingId := None;
      editTitle := "";
      deletingId := None;
      alerts := [];
    }

    /** `loadSessions`: the list is replaced only by a successful load; loading is over either way. */
    method LoadSessions(data: Option<seq<ChatSession>>)
      modifies this
      ensures data.Some? ==> sessions == data.value
      ensures data.None? ==> sessions == old(sessions)
      ensures !loading
      ensures editingId == old(editingId) && editTitle == old(editTitle) && deletingId == old(deletingId) && alerts == old(alerts)
    {
      loading := true;
      if data.Some? {
        sessions := data.value;
      }
      loading := false;
    }

    /** `handleStartEdit`: the session's id and title go into the edit state. */
    method StartEdit(s: ChatSession)
      modifies this
      ensures editingId == Some(s.id) && editTitle == s.title
      ensures sessions == old(sessions) && loading == old(loading) && deletingId == old(deletingId) && alerts == old(alerts)
    {
      editingId := Some(s.id);
      editTitle := s.title;
    }

    method TypeTitle(t: string)
      modifies this
      ensures editTitle == t
      ensures sessions == old(sessions) && loading == old(loading) && editingId == old(editingId)
      ensures deletingId == old(deletingId) && alerts == old(alerts)
    {
      editTitle := t;
    }

    /**
     * `handleSaveEdit`: a blank title does nothing. Otherwise the trimmed
     * title is sent; when the rename succeeds the list is reloaded and the
     * edit state cleared, and when it fails an alert is shown and the row
     * stays in edit mode with the typed title.
     */
    method SaveEdit(sessionId: string, renamed: bool, reloaded: Option<seq<ChatSession>>) returns (request: Option<RenameRequest>)
      modifies this
      ensures IsBlank(old(editTitle)) ==>
        request == None && sessions == old(sessions) && loading == old(loading) && editingId == old(editingId)
        && editTitle == old(editTitle) && alerts == old(alerts)
      ensures !IsBlank(old(editTitle)) ==>
        request == Some(RenameRequest(sessionId, userId, Trim(old(editTitle))))
      ensures request.Some? ==> request.value.title != "" && !IsSpace(request.value.title[0])
      ensures !IsBlank(old(editTitle)) && renamed ==>
        editingId == None && editTitle == "" && !loading && alerts == old(alerts)
        && sessions == (if reloaded.Some? then reloaded.value else old(sessions))
      ensures !IsBlank(old(editTitle)) && !renamed ==>
        editingId == old(editingId) && editTitle == old(editTitle) && alerts == old(alerts) + [RenameFailedAlert]
        && sessions == old(sessions) && loading == old(loading)
      ensures deletingId == old(deletingId)
    {
      if IsBlank(editTitle) {
        return None;
      }
      request := Some(RenameRequest(sessionId, userId, Trim(editTitle)));
      if renamed {
        LoadSessions(reloaded);
        editingId := None;
        editTitle := "";
      } else {
        alerts := alerts + [RenameFailedAlert];
      }
    }

    /** `handleCancelEdit`: the edit state cleared. */
    method CancelEdit()
      modifies this
      ensures editingId == None && editTitle == ""
      ensures sessions == old(sessions) && loading == old(loading) && deletingId == old(deletingId) && alerts == old(alerts)
    {
      editingId := None;
      editTitle := "";
    }

    /** The delete button of a row is disabled while that row is being deleted, and then no other row's is. */
    function DeleteDisabled(sessionId: string): (r: bool)
      reads this
      ensures r ==> deletingId.Some? && forall other :: other != sessionId ==> deletingId != Some(other)
      ensures deletingId.None? ==> !r
    {
      deletingId == Some(sessionId)
    }

    /**
     * The first half of `handleDelete`: a declined confirmation does nothing;
     * a confirmed one marks the session as being deleted and asks the store.
     */
    method BeginDelete(sessionId: string, confirmed: bool) returns (requested: bool)
      modifies this
      ensures requested == confirmed
      ensures confirmed ==> deletingId == Some(sessionId) && DeleteDisabled(sessionId)
      ensures !confirmed ==> deletingId == old(deletingId)
      ensures sessions == old(sessions) && loading == old(loading) && editingId == old(editingId)
      ensures editTitle == old(editTitle) && alerts == old(alerts)
    {
      if !confirmed {
        return false;
      }
      deletingId := Some(sessionId);
      return true;
    }

    /**
     * The second half: after a successful delete the list is reloaded,
     * after a failed one an alert is shown; either way no row is being
     * deleted any more.
     */
    method CompleteDelete(deleted: bool, reloaded: Option<seq<ChatSession>>)
      modifies this
      ensures deletingId == None
      ensures deleted ==> sessions == (if reloaded.Some? then reloaded.value else old(sessions)) && !loading && alerts == old(alerts)
      ensures !deleted ==> sessions == old(sessions) && loading == old(loading) && alerts == old(alerts) + [DeleteFailedAlert]
      ensures editingId == old(editingId) && editTitle == old(editTitle)
    {
      if deleted {
        LoadSessions(reloaded);
      } else {
        alerts := alerts + [DeleteFailedAlert];
      }
      deletingId := None;
    }
  }
}
