/**
 * The session store (src/services/sessions.ts): a newest-first list of sessions
 * kept in one key-value slot of the browser's local storage. Every writer reads
 * the whole list, changes it and writes the whole list back.
 */
module Sessions {
  import opened Wrappers
  import opened Types
  import opened Text
  import opened Arrays

  /**
   * What the storage slot holds: nothing (a missing key, or the empty string, which
   * the reader treats alike), text that does not parse as a list of sessions, or
   * the encoding of a list. The encoding is taken to be faithful: a list that was
   * written is the list that is read back.
   */
  datatype Slot = Absent | Malformed | Stored(sessions: seq<Session>)

  /** The list a reader sees: reading fails open to the empty list. */
  function Load(slot: Slot): seq<Session> {
    if slot.Stored? then slot.sessions else []
  }

  /** The predicate `session => session.id === id`. */
  function HasId(id: string): Session -> bool {
    (s: Session) => s.id == id
  }

  /** The predicate `session => session.id !== id`. */
  function NotId(id: string): Session -> bool {
    (s: Session) => s.id != id
  }

  /** A `Partial<Session>`: each field the caller supplies, or nothing. */
  datatype SessionPatch = SessionPatch(
    id: Option<string>,
    title: Option<string>,
    createdAt: Option<int>,
    updatedAt: Option<int>,
    messages: Option<seq<Message>>)

  /** The patch `{ messages }`. */
  function MessagesPatch(messages: seq<Message>): SessionPatch {
    SessionPatch(None, None, None, None, Some(messages))
  }

  /**
   * `{ ...session, ...updates, updatedAt: now }`: each field the patch supplies
   * replaces the stored one, the others are kept, and `updatedAt` is `now` even
   * when the patch supplies one.
   */
  function ApplyPatch(s: Session, patch: SessionPatch, now: int): (r: Session)
    ensures r.updatedAt == now
    ensures r.id == (if patch.id.Some? then patch.id.value else s.id)
    ensures r.title == (if patch.title.Some? then patch.title.value else s.title)
    ensures r.createdAt == (if patch.createdAt.Some? then patch.createdAt.value else s.createdAt)
    ensures r.messages == (if patch.messages.Some? then patch.messages.value else s.messages)
  {
    Session(
      patch.id.GetOr(s.id),
      patch.title.GetOr(s.title),
      patch.createdAt.GetOr(s.createdAt),
      now,
      patch.messages.GetOr(s.messages))
  }

  /** The record `createSession` builds from the id, clock and date label it is given. */
  function NewSession(id: string, now: int, dateLabel: string, initialMessage: Option<Message>): (r: Session)
    ensures r.id == id && r.title == "Session " + dateLabel
    ensures r.createdAt == now && r.updatedAt == now
    ensures |r.messages| <= 1 && (r.messages == [] <==> initialMessage.None?)
    ensures initialMessage.Some? ==> r.messages[0] == initialMessage.value
  {
    Session(id, "Session " + dateLabel, now, now,
            if initialMessage.Some? then [initialMessage.value] else [])
  }

  /** A title longer than this is cut. */
  const TITLE_LIMIT := 30
  /** How many characters a cut title keeps before the ellipsis. */
  const TITLE_KEEP := 27
  const ELLIPSIS := "..."

  /**
   * `generateSessionTitle`: the first line of the first user message, trimmed and
   * cut to 27 characters plus "..." when longer than 30; a date-stamped fallback
   * when there is no user message or that line is blank. Never empty.
   */
  function GenerateSessionTitle(messages: seq<Message>, dateLabel: string): (r: string)
    ensures r != []
  {
    if |messages| == 0 then "New Session " + dateLabel
    else match Find(messages, IsUser)
      case None => "New Session " + dateLabel
      case Some(first) => TitleFromLine(Trim(FirstLine(first.content)), dateLabel)
  }

  /** The last step of `generateSessionTitle`: cut the trimmed line, or fall back when it is blank. */
  function TitleFromLine(line: string, dateLabel: string): (r: string)
    ensures line == [] ==> r == "Session " + dateLabel
    ensures 0 < |line| <= TITLE_LIMIT ==> r == line
    ensures |line| > TITLE_LIMIT ==> |r| == TITLE_LIMIT && r == line[..TITLE_KEEP] + ELLIPSIS
  {
    var truncated := if |line| > TITLE_LIMIT then line[..TITLE_KEEP] + ELLIPSIS else line;
    if truncated != [] then truncated else "Session " + dateLabel
  }

  /** The object that owns the storage slot. */
  class SessionStore {
    var slot: Slot

    constructor (slot: Slot)
      ensures this.slot == slot
    {
      this.slot := slot;
    }

    /** The list a reader currently sees. */
    function Contents(): seq<Session>
      reads this
    {
      Load(slot)
    }

    /** `getSessions`: the stored list, or the empty list when the key is absent or unparsable. */
    method GetSessions() returns (sessions: seq<Session>)
      ensures slot.Stored? ==> sessions == slot.sessions
      ensures !slot.Stored? ==> sessions == []
    {
      if slot.Stored? {
        sessions := slot.sessions;
      } else {
        sessions := [];
      }
    }

    /** `saveSessions`: overwrites the slot with the whole list. */
    method SaveSessions(sessions: seq<Session>)
      modifies this
      ensures slot == Stored(sessions)
    {
      slot := Stored(sessions);
    }

    /**
     * `createSession`: builds a session titled "Session <date>" holding the initial
     * message if one is given, stores it in front of every session read before, and
     * returns the stored record.
     */
    method CreateSession(id: string, now: int, dateLabel: string, initialMessage: Option<Message>)
      returns (s: Session)
      modifies this
      ensures s == NewSession(id, now, dateLabel, initialMessage)
      ensures s.id == id && s.title == "Session " + dateLabel
      ensures s.createdAt == now && s.updatedAt == now
      ensures s.messages == if initialMessage.Some? then [initialMessage.value] else []
      ensures slot == Stored([s] + old(Contents()))
    {
      s := NewSession(id, now, dateLabel, initialMessage);
      var sessions := GetSessions();
      SaveSessions([s] + sessions);
    }

    /** `getSessionById`: the first stored session with that id, if any. */
    method GetSessionById(id: string) returns (r: Option<Session>)
      ensures r.None? <==> forall j :: 0 <= j < |Contents()| ==> Contents()[j].id != id
      ensures r.Some? ==> r.value.id == id && r.value == Contents()[FindIndex(Contents(), HasId(id))]
    {
      var sessions := GetSessions();
      assert sessions == Contents();
      r := Find(sessions, HasId(id));
      if r.None? {
        forall j | 0 <= j < |sessions| ensures sessions[j].id != id {
          assert !HasId(id)(sessions[j]);
        }
      } else {
        var k := FindIndex(sessions, HasId(id));
        assert HasId(id)(sessions[k]);
      }
    }

    /**
     * `updateSession`: when no stored session has the id, returns nothing and writes
     * nothing; otherwise patches the first session with that id, stamps it with
     * `now`, writes the list back with only that entry replaced and returns it.
     */
    method UpdateSession(id: string, updates: SessionPatch, now: int) returns (r: Option<Session>)
      modifies this
      ensures FindIndex(old(Contents()), HasId(id)) == -1 ==> r == None && slot == old(slot)
      ensures var i := FindIndex(old(Contents()), HasId(id));
        i >= 0 ==>
          && r == Some(ApplyPatch(old(Contents())[i], updates, now))
          && slot == Stored(old(Contents())[i := r.value])
    {
      var sessions := GetSessions();
      var index := FindIndex(sessions, HasId(id));
      if index == -1 {
        return None;
      }
      var updated := ApplyPatch(sessions[index], updates, now);
      sessions := sessions[index := updated];
      SaveSessions(sessions);
      r := Some(updated);
    }

    /** `updateSessionMessages`: `updateSession` with the patch `{ messages }`. */
    method UpdateSessionMessages(id: string, messages: seq<Message>, now: int) returns (r: Option<Session>)
      modifies this
      ensures FindIndex(old(Contents()), HasId(id)) == -1 ==> r == None && slot == old(slot)
      ensures var i := FindIndex(old(Contents()), HasId(id));
        i >= 0 ==>
          && r == Some(old(Contents())[i].(messages := messages, updatedAt := now))
          && slot == Stored(old(Contents())[i := r.value])
    {
      r := UpdateSession(id, MessagesPatch(messages), now);
    }

    /** `deleteSession`: writes back the list without any session that has the id. */
    method DeleteSession(id: string)
      modifies this
      ensures slot == Stored(Filter(old(Contents()), NotId(id)))
    {
      var sessions := GetSessions();
      SaveSessions(Filter(sessions, NotId(id)));
    }
  }

  // ---------------------------------------------------------------------------
  // Properties of the list operations

  /** After a delete no session with the id remains, and every other session does. */
  lemma DeleteRemovesExactlyId(sessions: seq<Session>, id: string)
    ensures var r := Filter(sessions, NotId(id));
      && (forall j :: 0 <= j < |r| ==> r[j].id != id)
      && (forall j :: 0 <= j < |sessions| && sessions[j].id != id ==> sessions[j] in r)
  {
    var r := Filter(sessions, NotId(id));
    forall j | 0 <= j < |r| ensures r[j].id != id {
      assert NotId(id)(r[j]);
    }
    forall j | 0 <= j < |sessions| && sessions[j].id != id ensures sessions[j] in r {
      assert NotId(id)(sessions[j]);
    }
  }

  /** Deleting an id no session has leaves the list as it was. */
  lemma DeleteAbsentIsNoop(sessions: seq<Session>, id: string)
    requires forall j :: 0 <= j < |sessions| ==> sessions[j].id != id
    ensures Filter(sessions, NotId(id)) == sessions
  {
    FilterKeepsAll(sessions, NotId(id));
  }

  /** Deleting the same id twice is deleting it once. */
  lemma DeleteIdempotent(sessions: seq<Session>, id: string)
    ensures Filter(Filter(sessions, NotId(id)), NotId(id)) == Filter(sessions, NotId(id))
  {
    FilterIdempotent(sessions, NotId(id));
  }

  /** Deleting from a concatenation deletes from each part, so the survivors keep their order. */
  lemma DeleteKeepsOrder(a: seq<Session>, b: seq<Session>, id: string)
    ensures Filter(a + b, NotId(id)) == Filter(a, NotId(id)) + Filter(b, NotId(id))
  {
    FilterAppend(a, b, NotId(id));
  }

  // ---------------------------------------------------------------------------
  // The collection invariant the store keeps when callers supply fresh ids

  /** No two stored sessions share an id. */
  predicate UniqueIds(sessions: seq<Session>) {
    forall i, j :: 0 <= i < j < |sessions| ==> sessions[i].id != sessions[j].id
  }

  /** Every stored session was last updated no earlier than it was created. */
  predicate Chronological(sessions: seq<Session>) {
    forall i :: 0 <= i < |sessions| ==> sessions[i].createdAt <= sessions[i].updatedAt
  }

  predicate WellFormed(sessions: seq<Session>) {
    UniqueIds(sessions) && Chronological(sessions)
  }

  /** Creating a session with an id not yet stored keeps the collection well formed. */
  lemma CreateKeepsWellFormed(sessions: seq<Session>, id: string, now: int, dateLabel: string,
                              initialMessage: Option<Message>)
    requires WellFormed(sessions)
    requires forall j :: 0 <= j < |sessions| ==> sessions[j].id != id
    ensures WellFormed([NewSession(id, now, dateLabel, initialMessage)] + sessions)
  {
    var r := [NewSession(id, now, dateLabel, initialMessage)] + sessions;
    forall i, j | 0 <= i < j < |r| ensures r[i].id != r[j].id {
      if i > 0 {
        assert r[i] == sessions[i - 1] && r[j] == sessions[j - 1];
      } else {
        assert r[j] == sessions[j - 1];
      }
    }
    forall i | 0 <= i < |r| ensures r[i].createdAt <= r[i].updatedAt {
      if i > 0 { assert r[i] == sessions[i - 1]; }
    }
  }

  /**
   * Updating a session keeps the collection well formed when the patch leaves the
   * id and creation time alone and the clock has not gone back past the creation time.
   */
  lemma UpdateKeepsWellFormed(sessions: seq<Session>, id: string, updates: SessionPatch, now: int)
    requires WellFormed(sessions)
    requires updates.id.None? && updates.createdAt.None?
    requires forall j :: 0 <= j < |sessions| ==> sessions[j].createdAt <= now
    ensures var i := FindIndex(sessions, HasId(id));
      i >= 0 ==> WellFormed(sessions[i := ApplyPatch(sessions[i], updates, now)])
  {
  }

  /** Deleting keeps ids unique: the survivors are a sub-list of a list without repeated ids. */
  lemma {:induction false} DeleteKeepsUniqueIds(sessions: seq<Session>, id: string)
    requires UniqueIds(sessions)
    ensures UniqueIds(Filter(sessions, NotId(id)))
  {
    if sessions != [] {
      var rest := sessions[1..];
      assert UniqueIds(rest) by {
        forall i, j | 0 <= i < j < |rest| ensures rest[i].id != rest[j].id {
          assert rest[i] == sessions[i + 1] && rest[j] == sessions[j + 1];
        }
      }
      DeleteKeepsUniqueIds(rest, id);
      var tail := Filter(rest, NotId(id));
      if NotId(id)(sessions[0]) {
        var r := [sessions[0]] + tail;
        forall j | 0 <= j < |tail| ensures tail[j].id != sessions[0].id {
          var k :| 0 <= k < |rest| && rest[k] == tail[j];
          assert rest[k] == sessions[k + 1];
        }
        forall i, j | 0 <= i < j < |r| ensures r[i].id != r[j].id {
          if i > 0 {
            assert r[i] == tail[i - 1] && r[j] == tail[j - 1];
          } else {
            assert r[j] == tail[j - 1];
          }
        }
      }
    }
  }

  /** Deleting keeps the collection well formed. */
  lemma DeleteKeepsWellFormed(sessions: seq<Session>, id: string)
    requires WellFormed(sessions)
    ensures WellFormed(Filter(sessions, NotId(id)))
  {
    DeleteKeepsUniqueIds(sessions, id);
    var r := Filter(sessions, NotId(id));
    forall i | 0 <= i < |r| ensures r[i].createdAt <= r[i].updatedAt {
      var k :| 0 <= k < |sessions| && sessions[k] == r[i];
    }
  }

  // ---------------------------------------------------------------------------
  // Properties of the title

  /** With no user message (in particular with no message at all) the title is "New Session <date>". */
  lemma TitleWithoutUserMessage(messages: seq<Message>, dateLabel: string)
    requires forall j :: 0 <= j < |messages| ==> messages[j].role != User
    ensures GenerateSessionTitle(messages, dateLabel) == "New Session " + dateLabel
  {
  }

  /**
   * With a first user message at index `i`, the title depends only on the trimmed
   * text before its first line feed: blank gives "Session <date>", at most 30
   * characters gives that text, more gives its first 27 characters and "...".
   */
  lemma TitleFromFirstUserMessage(messages: seq<Message>, dateLabel: string, i: nat)
    requires i < |messages| && messages[i].role == User
    requires forall j :: 0 <= j < i ==> messages[j].role != User
    ensures var line := Trim(FirstLine(messages[i].content));
      var r := GenerateSessionTitle(messages, dateLabel);
      && (line == [] ==> r == "Session " + dateLabel)
      && (0 < |line| <= 30 ==> r == line)
      && (|line| > 30 ==> |r| == 30 && r == line[..27] + "...")
  {
    var f := Find(messages, IsUser);
    assert IsUser(messages[i]);
    var k :| 0 <= k < |messages| && messages[k] == f.value && forall j :: 0 <= j < k ==> !IsUser(messages[j]);
    assert k == i;
    var line := Trim(FirstLine(messages[i].content));
    assert GenerateSessionTitle(messages, dateLabel) == TitleFromLine(line, dateLabel);
  }

  /**
   * A title is either one of the two date-stamped fallbacks or a single line of at
   * most 30 characters that does not start with whitespace.
   */
  lemma TitleShape(messages: seq<Message>, dateLabel: string)
    ensures var r := GenerateSessionTitle(messages, dateLabel);
      || r == "New Session " + dateLabel
      || r == "Session " + dateLabel
      || (0 < |r| <= 30 && '\n' !in r && !IsWhitespace(r[0]))
  {
    if |messages| > 0 && Find(messages, IsUser).Some? {
      var line := Trim(FirstLine(Find(messages, IsUser).value.content));
      assert '\n' !in line;
      TitleFromLineShape(line, dateLabel);
    }
  }

  /** A line without line feeds that does not start with whitespace gives a title of the same kind, or the fallback. */
  lemma TitleFromLineShape(line: string, dateLabel: string)
    requires '\n' !in line && (line == [] || !IsWhitespace(line[0]))
    ensures var r := TitleFromLine(line, dateLabel);
      r == "Session " + dateLabel || (0 < |r| <= 30 && '\n' !in r && !IsWhitespace(r[0]))
  {
    if |line| > 30 {
      var r := line[..27] + "...";
      assert r[0] == line[0];
      assert forall k :: 0 <= k < |r| ==> r[k] == '.' || r[k] == line[k];
    }
  }

  /**
   * A first user message of more than 30 characters on one line, with no whitespace
   * at either end, gives a title of exactly 30 characters: its first 27 and "...".
   */
  lemma TitleCutsLongMessage(messages: seq<Message>, dateLabel: string, i: nat)
    requires i < |messages| && messages[i].role == User
    requires forall j :: 0 <= j < i ==> messages[j].role != User
    requires var c := messages[i].content;
      |c| > 30 && '\n' !in c && !IsWhitespace(c[0]) && !IsWhitespace(c[|c| - 1])
    ensures var c := messages[i].content;
      var r := GenerateSessionTitle(messages, dateLabel);
      |r| == 30 && r == c[..27] + "..."
  {
    var c := messages[i].content;
    assert FirstLine(c) == c;
    assert c[..0] == [] && c[|c|..] == [];
    TrimUnique(c, 0, |c|);
    assert c[0..|c|] == c;
    TitleFromFirstUserMessage(messages, dateLabel, i);
  }

  /**
   * A first user message of 1 to 30 characters on one line, with no whitespace at
   * either end, is itself the title.
   */
  lemma TitleKeepsShortMessage(messages: seq<Message>, dateLabel: string, i: nat)
    requires i < |messages| && messages[i].role == User
    requires forall j :: 0 <= j < i ==> messages[j].role != User
    requires var c := messages[i].content;
      0 < |c| <= 30 && '\n' !in c && !IsWhitespace(c[0]) && !IsWhitespace(c[|c| - 1])
    ensures GenerateSessionTitle(messages, dateLabel) == messages[i].content
  {
    var c := messages[i].content;
    assert FirstLine(c) == c;
    assert c[..0] == [] && c[|c|..] == [];
    TrimUnique(c, 0, |c|);
    assert c[0..|c|] == c;
    TitleFromFirstUserMessage(messages, dateLabel, i);
  }
}
