/**
 * The dashboard page (src/pages/Dashboard.tsx): the session list shown in the
 * sidebar and the active session, loaded from the store on mount and changed by
 * the create, update and restart handlers.
 */
module Dashboard {
  import opened Wrappers
  import opened Types
  import opened Arrays
  import opened Sessions

  /** `prev.map(s => s.id === updated.id ? updated : s)`. */
  function ReplaceById(sessions: seq<Session>, updated: Session): (r: seq<Session>)
    ensures |r| == |sessions|
    ensures forall i :: 0 <= i < |r| ==> r[i].id == sessions[i].id
  {
    seq(|sessions|, i requires 0 <= i < |sessions| => if sessions[i].id == updated.id then updated else sessions[i])
  }

  /**
   * Replacing by id keeps the length and every id in its place, changes only the
   * entries carrying the updated id (all of them), and leaves the list alone when
   * no entry carries it.
   */
  lemma ReplaceByIdKeepsIds(sessions: seq<Session>, updated: Session)
    ensures var r := ReplaceById(sessions, updated);
      && |r| == |sessions|
      && (forall i :: 0 <= i < |r| ==> r[i].id == sessions[i].id)
      && (forall i :: 0 <= i < |r| && sessions[i].id == updated.id ==> r[i] == updated)
      && (forall i :: 0 <= i < |r| && sessions[i].id != updated.id ==> r[i] == sessions[i])
      && ((forall i :: 0 <= i < |sessions| ==> sessions[i].id != updated.id) ==> r == sessions)
  {
  }

  /** Sorted by `updatedAt`, newest first. */
  predicate NewestFirst(s: seq<Session>) {
    forall i, j :: 0 <= i < j < |s| ==> s[i].updatedAt >= s[j].updatedAt
  }

  /** Puts `x` before the first entry that is not newer than it. */
  function InsertNewestFirst(x: Session, s: seq<Session>): (r: seq<Session>)
    ensures multiset(r) == multiset(s) + multiset{x}
  {
    if s == [] || s[0].updatedAt <= x.updatedAt then
      [x] + s
    else
      assert s == [s[0]] + s[1..];
      [s[0]] + InsertNewestFirst(x, s[1..])
  }

  /** No entry was updated after `b`. */
  predicate AtMost(s: seq<Session>, b: int) {
    forall k :: 0 <= k < |s| ==> s[k].updatedAt <= b
  }

  lemma {:induction false} InsertKeepsBound(x: Session, s: seq<Session>, b: int)
    requires AtMost(s, b) && x.updatedAt <= b
    ensures AtMost(InsertNewestFirst(x, s), b)
  {
    if !(s == [] || s[0].updatedAt <= x.updatedAt) {
      InsertKeepsBound(x, s[1..], b);
    }
  }

  /** Inserting into a newest-first list keeps it newest first. */
  lemma {:induction false} InsertKeepsOrder(x: Session, s: seq<Session>)
    requires NewestFirst(s)
    ensures NewestFirst(InsertNewestFirst(x, s))
  {
    if !(s == [] || s[0].updatedAt <= x.updatedAt) {
      InsertKeepsOrder(x, s[1..]);
      InsertKeepsBound(x, s[1..], s[0].updatedAt);
    }
  }

  /**
   * `sort((a, b) => b.updatedAt - a.updatedAt)`, which is stable: an insertion
   * sort that puts each entry before the later entries with the same time. The
   * result is a permutation of the input, newest first.
   */
  function SortNewestFirst(s: seq<Session>): (r: seq<Session>)
    ensures multiset(r) == multiset(s)
    ensures NewestFirst(r)
  {
    if s == [] then []
    else
      assert s == [s[0]] + s[1..];
      var rest := SortNewestFirst(s[1..]);
      InsertKeepsOrder(s[0], rest);
      InsertNewestFirst(s[0], rest)
  }

  /** The entries updated at time `t`, in their order. */
  function WithStamp(s: seq<Session>, t: int): (r: seq<Session>)
    ensures |r| <= |s|
    ensures forall i :: 0 <= i < |r| ==> r[i].updatedAt == t
  {
    if s == [] then [] else (if s[0].updatedAt == t then [s[0]] else []) + WithStamp(s[1..], t)
  }

  lemma {:induction false} InsertKeepsTies(x: Session, s: seq<Session>, t: int)
    ensures WithStamp(InsertNewestFirst(x, s), t)
         == (if x.updatedAt == t then [x] else []) + WithStamp(s, t)
  {
    if s == [] || s[0].updatedAt <= x.updatedAt {
      var r := [x] + s;
      assert r[0] == x && r[1..] == s;
    } else {
      var rest := InsertNewestFirst(x, s[1..]);
      var r := [s[0]] + rest;
      assert r[0] == s[0] && r[1..] == rest;
      InsertKeepsTies(x, s[1..], t);
    }
  }

  /**
   * The sort is stable: for every time `t`, the entries updated at `t` come out
   * in the order they went in.
   */
  lemma {:induction false} SortKeepsTies(s: seq<Session>, t: int)
    ensures WithStamp(SortNewestFirst(s), t) == WithStamp(s, t)
  {
    if s != [] {
      SortKeepsTies(s[1..], t);
      InsertKeepsTies(s[0], SortNewestFirst(s[1..]), t);
    }
  }

  /** `${title} (Restarted)`: the title the restart handler computes. */
  function RestartTitle(title: string): string {
    title + " (Restarted)"
  }

  /** The list the restart handler evidently means to show: the restarted entry carrying the marked title. */
  function RestartListIntended(before: seq<Session>, original: Session, restarted: Session): seq<Session> {
    [restarted.(title := RestartTitle(original.title))] + before
  }

  /**
   * With the intended update the new first entry has the original's title with
   * the restart marker and the restarted messages, and the rest of the list,
   * the original included, is untouched.
   */
  lemma RestartIntendedKeepsTitle(before: seq<Session>, original: Session, restarted: Session)
    ensures var r := RestartListIntended(before, original, restarted);
      && |r| == |before| + 1
      && r[0].title == original.title + " (Restarted)"
      && r[0].id == restarted.id && r[0].messages == restarted.messages
      && r[1..] == before
  {
  }

  /**
   * As written the restarted entry keeps the default title "Session <date>", which
   * is never the marked title when the date label does not end in ')'.
   */
  lemma RestartLosesTitle(original: Session, id: string, now: int, dateLabel: string, welcome: Message)
    requires dateLabel == [] || dateLabel[|dateLabel| - 1] != ')'
    ensures NewSession(id, now, dateLabel, Some(welcome)).title != RestartTitle(original.title)
  {
    var a := NewSession(id, now, dateLabel, Some(welcome)).title;
    var b := RestartTitle(original.title);
    assert b[|b| - 1] == ')';
    assert a[|a| - 1] != ')';
  }

  class Dashboard {
    const store: SessionStore
    var sessions: seq<Session>
    var activeSession: Option<Session>

    constructor (store: SessionStore)
      ensures this.store == store
      ensures sessions == [] && activeSession == None
    {
      this.store := store;
      sessions := [];
      activeSession := None;
    }

    /**
     * The mount-time effect. A non-empty stored list is shown with its first entry
     * active; otherwise one session holding only the welcome message is created,
     * becomes the whole list and the active session.
     */
    method LoadOnMount(welcomeId: string, welcomeAt: int, newId: string, now: int, dateLabel: string)
      modifies this`sessions, this`activeSession, store
      ensures old(store.Contents()) != [] ==>
        && sessions == old(store.Contents())
        && activeSession == Some(sessions[0])
        && store.slot == old(store.slot)
      ensures old(store.Contents()) == [] ==>
        var s := NewSession(newId, now, dateLabel, Some(Welcome(welcomeId, welcomeAt)));
        && sessions == [s]
        && activeSession == Some(s)
        && store.slot == Stored([s])
    {
      var loaded := store.GetSessions();
      sessions := loaded;
      if |loaded| > 0 {
        activeSession := Some(loaded[0]);
      } else {
        var created := store.CreateSession(newId, now, dateLabel, Some(Welcome(welcomeId, welcomeAt)));
        sessions := [created];
        activeSession := Some(created);
      }
    }

    /** `handleCreateNewSession`: the new session goes in front of the list shown and becomes active. */
    method HandleCreateNewSession(welcomeId: string, welcomeAt: int, newId: string, now: int, dateLabel: string)
      modifies this`sessions, this`activeSession, store
      ensures var s := NewSession(newId, now, dateLabel, Some(Welcome(welcomeId, welcomeAt)));
        && sessions == [s] + old(sessions)
        && activeSession == Some(s)
        && store.slot == Stored([s] + old(store.Contents()))
    {
      var created := store.CreateSession(newId, now, dateLabel, Some(Welcome(welcomeId, welcomeAt)));
      sessions := [created] + sessions;
      activeSession := Some(created);
    }

    /**
     * `handleSessionUpdated`: every entry with the updated id is replaced, then the
     * list is sorted newest first.
     */
    method HandleSessionUpdated(updated: Session)
      modifies this`sessions
      ensures sessions == SortNewestFirst(ReplaceById(old(sessions), updated))
      ensures NewestFirst(sessions)
      ensures multiset(sessions) == multiset(ReplaceById(old(sessions), updated))
      ensures |sessions| == |old(sessions)|
    {
      sessions := SortNewestFirst(ReplaceById(sessions, updated));
      assert |sessions| == |multiset(sessions)|;
    }

    /** `onSelectSession`: the clicked session becomes active. */
    method SelectSession(session: Session)
      modifies this`activeSession
      ensures activeSession == Some(session)
    {
      activeSession := Some(session);
    }

    /**
     * `handleRestartSession`, as written. A new session holding only the welcome
     * message is stored; the retitled copy goes through the update handler, whose
     * result the next assignment discards; the list shown becomes the new session
     * in front of the list as it was, and the new session is active. The original
     * session is left as it was, and the new one keeps the default title.
     */
    method HandleRestartSession(session: Session, welcomeId: string, welcomeAt: int,
                                newId: string, now: int, dateLabel: string)
      modifies this`sessions, this`activeSession, store
      ensures var s := NewSession(newId, now, dateLabel, Some(Welcome(welcomeId, welcomeAt)));
        && sessions == [s] + old(sessions)
        && activeSession == Some(s)
        && s.title == "Session " + dateLabel
        && s.messages == [Welcome(welcomeId, welcomeAt)]
        && store.slot == Stored([s] + old(store.Contents()))
    {
      var before := sessions;
      var restarted := store.CreateSession(newId, now, dateLabel, Some(Welcome(welcomeId, welcomeAt)));
      var newTitle := RestartTitle(session.title);
      HandleSessionUpdated(restarted.(title := newTitle));
      sessions := [restarted] + before;
      activeSession := Some(restarted);
    }
  }
}
