/**
 * The sidebar's session list (src/components/Sessions/SessionList.tsx): which
 * session awaits delete confirmation, what confirming does, and the message count
 * shown beside each session.
 */
module SessionList {
  import opened Wrappers
  import opened Types
  import opened Arrays
  import opened Sessions

  /**
   * The count shown beside a session: how many of its messages the user wrote.
   * It never exceeds the number of messages and is zero exactly when none is the user's.
   */
  function UserMessageCount(s: Session): (n: nat)
    ensures n <= |s.messages|
    ensures n == 0 <==> forall i :: 0 <= i < |s.messages| ==> s.messages[i].role != User
  {
    var kept := Filter(s.messages, IsUser);
    assert kept != [] ==> IsUser(kept[0]);
    |kept|
  }

  /** Appending messages adds their user messages to the count. */
  lemma UserMessageCountAppend(s: Session, more: seq<Message>)
    ensures UserMessageCount(s.(messages := s.messages + more))
         == UserMessageCount(s) + |Filter(more, IsUser)|
  {
    FilterAppend(s.messages, more, IsUser);
  }

  class SessionList {
    /** The store the confirm handler deletes from. */
    const store: SessionStore
    /** The id awaiting confirmation, if any. */
    var confirmDelete: Option<string>

    constructor (store: SessionStore)
      ensures this.store == store && confirmDelete == None
    {
      this.store := store;
      confirmDelete := None;
    }

    /** `handleDeleteClick`: the clicked session awaits confirmation. */
    method HandleDeleteClick(sessionId: string)
      modifies this`confirmDelete
      ensures confirmDelete == Some(sessionId)
    {
      confirmDelete := Some(sessionId);
    }

    /** `handleCancelDelete`: nothing awaits confirmation any more. */
    method HandleCancelDelete()
      modifies this`confirmDelete
      ensures confirmDelete == None
    {
      confirmDelete := None;
    }

    /**
     * `handleConfirmDelete`: the session is removed from the store and nothing
     * awaits confirmation; the caller is asked for a new session exactly when the
     * deleted session was the active one.
     */
    method HandleConfirmDelete(sessionId: string, activeSessionId: Option<string>)
      returns (requestNewSession: bool)
      modifies this`confirmDelete, store
      ensures store.slot == Stored(Filter(old(store.Contents()), NotId(sessionId)))
      ensures confirmDelete == None
      ensures requestNewSession <==> activeSessionId == Some(sessionId)
    {
      store.DeleteSession(sessionId);
      confirmDelete := None;
      requestNewSession := activeSessionId == Some(sessionId);
    }
  }
}
