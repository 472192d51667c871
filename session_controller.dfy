/** The REST handlers of backend/src/controllers/sessionController.js:
    listing and creating sessions, and fetching a session's history. The
    history handler stamps every message that has no timestamp with the
    current time, in place in the stored transcript, and answers with a
    copy stably sorted by timestamp. The `500` branches are unreachable in
    the model, since nothing the handlers call can throw here. */
module SessionController {
  import opened Messages
  import opened SessionModel

  /** The JSON bodies the handlers send. */
  datatype Body =
    | SessionsBody(sessions: seq<SessionSummary>)
    | CreatedBody(sessionId: string)
    | HistoryBody(history: seq<Message>)
    | ErrorBody(success: bool, code: string, message: string)

  datatype Response = Response(status: nat, body: Body)

  /** `getSessions`: 200 with one summary per stored session, in insertion order. */
  function GetSessions(store: Store): (r: Response)
    reads store
    requires store.Valid()
    ensures r.status == 200 && r.body.SessionsBody?
    ensures |r.body.sessions| == |store.order| == |store.sessions|
    ensures forall i :: 0 <= i < |r.body.sessions| ==>
      r.body.sessions[i].id == store.order[i] && r.body.sessions[i].createdAt == store.sessions[store.order[i]].createdAt
  {
    Response(200, SessionsBody(store.GetAll()))
  }

  /** `createSession`: the id drawn by `uuidv4()` and the creation time are
      inputs; the answer is 201 with the new id, which the store now holds
      with an empty transcript. */
  method CreateSession(store: Store, id: string, now: int) returns (r: Response)
    requires store.Valid()
    modifies store
    ensures store.Valid()
    ensures r == Response(201, CreatedBody(id))
    ensures id in store.sessions && store.sessions[id].createdAt == now
    ensures store.Contents() == old(store.Contents())[id := []]
  {
    var session := store.Create(id, now);
    r := Response(201, CreatedBody(session.id));
  }

  // ---------------------------------------------------------------------
  // Timestamp backfill
  // ---------------------------------------------------------------------

  /** One message after the backfill: a message without a timestamp gets `now`. */
  function Stamped(m: Message, now: int): (r: Message)
    ensures r.timestamp.Some? && r.role == m.role && r.modelId == m.modelId && r.content == m.content
    ensures m.timestamp.Some? ==> r == m
    ensures m.timestamp.None? ==> r.timestamp == Some(now)
  {
    if m.timestamp.None? then m.(timestamp := Some(now)) else m
  }

  /** The whole transcript after the backfill: every entry now has a
      timestamp; an entry that had one is untouched; any other entry keeps
      its role, model and content and is stamped `now`. */
  function Backfilled(ms: seq<Message>, now: int): (r: seq<Message>)
    ensures |r| == |ms|
    ensures forall i :: 0 <= i < |r| ==> r[i].timestamp.Some?
    ensures forall i :: 0 <= i < |r| && ms[i].timestamp.Some? ==> r[i] == ms[i]
    ensures forall i :: 0 <= i < |r| && ms[i].timestamp.None? ==>
      r[i] == Message(ms[i].role, ms[i].modelId, ms[i].content, Some(now))
  {
    seq(|ms|, i requires 0 <= i < |ms| => Stamped(ms[i], now))
  }

  /** The backfill writes into the stored messages, so a second fetch,
      however much later, finds nothing left to stamp. */
  lemma BackfillIdempotent(ms: seq<Message>, now: int, later: int)
    ensures Backfilled(Backfilled(ms, now), later) == Backfilled(ms, now)
  {
  }

  // ---------------------------------------------------------------------
  // Sorting by timestamp
  // ---------------------------------------------------------------------

  /** The time `new Date(m.timestamp)` denotes; the sort only sees
      backfilled messages, so the absent case does not arise. */
  function TimeOf(m: Message): (r: int)
    ensures m.timestamp.Some? ==> r == m.timestamp.value
  {
    if m.timestamp.Some? then m.timestamp.value else 0
  }

  predicate SortedByTime(ms: seq<Message>) {
    forall i, j :: 0 <= i < j < |ms| ==> TimeOf(ms[i]) <= TimeOf(ms[j])
  }

  /** The entries of `ms` stamped with time `t`, in their order in `ms`. */
  function WithTime(ms: seq<Message>, t: int): seq<Message> {
    if ms == [] then []
    else WithTime(ms[..|ms| - 1], t) + (if TimeOf(ms[|ms| - 1]) == t then [ms[|ms| - 1]] else [])
  }

  lemma {:induction false} WithTimeAppend(a: seq<Message>, b: seq<Message>, t: int)
    ensures WithTime(a + b, t) == WithTime(a, t) + WithTime(b, t)
    decreases |b|
  {
    if b == [] {
      assert a + b == a;
    } else {
      var init, last := b[..|b| - 1], b[|b| - 1];
      assert (a + b)[..|a + b| - 1] == a + init;
      assert (a + b)[|a + b| - 1] == last;
      WithTimeAppend(a, init, t);
      AppendAssoc(WithTime(a, t), WithTime(init, t), if TimeOf(last) == t then [last] else []);
    }
  }

  /** A sequence whose entries are all later than `t` has none at `t`. */
  lemma {:induction false} WithTimeNone(ms: seq<Message>, t: int)
    requires forall i :: 0 <= i < |ms| ==> TimeOf(ms[i]) > t
    ensures WithTime(ms, t) == []
    decreases |ms|
  {
    if ms != [] {
      WithTimeNone(ms[..|ms| - 1], t);
    }
  }

  /** `m` placed into a sorted sequence after every entry that is not later than it. */
  function Insert(m: Message, sorted: seq<Message>): (r: seq<Message>)
    ensures |r| == |sorted| + 1
    ensures multiset(r) == multiset(sorted) + multiset{m}
  {
    if sorted == [] then [m]
    else if TimeOf(m) < TimeOf(sorted[0]) then [m] + sorted
    else
      assert sorted == [sorted[0]] + sorted[1..];
      [sorted[0]] + Insert(m, sorted[1..])
  }

  lemma {:induction false} InsertSorted(m: Message, sorted: seq<Message>)
    requires SortedByTime(sorted)
    ensures SortedByTime(Insert(m, sorted))
    decreases |sorted|
  {
    if sorted != [] && TimeOf(m) >= TimeOf(sorted[0]) {
      var tail := sorted[1..];
      InsertSorted(m, tail);
      var rest := Insert(m, tail);
      forall i | 0 <= i < |rest| ensures TimeOf(sorted[0]) <= TimeOf(rest[i]) {
        assert rest[i] in multiset(rest);
        if rest[i] != m {
          assert rest[i] in multiset(tail);
          assert rest[i] in tail;
        }
      }
      assert Insert(m, sorted) == [sorted[0]] + rest;
    }
  }

  /** Inserting keeps every other time's entries in order and puts `m` last among its own time. */
  lemma {:induction false} InsertStable(m: Message, sorted: seq<Message>, t: int)
    requires SortedByTime(sorted)
    ensures WithTime(Insert(m, sorted), t) == WithTime(sorted, t) + (if TimeOf(m) == t then [m] else [])
    decreases |sorted|
  {
    if sorted == [] {
      assert WithTime([m], t) == WithTime([], t) + (if TimeOf(m) == t then [m] else []);
    } else if TimeOf(m) < TimeOf(sorted[0]) {
      InsertFrontStable(m, sorted, t);
    } else {
      InsertStable(m, sorted[1..], t);
      InsertBehindStable(m, sorted, t);
    }
  }

  /** An entry not earlier than the first of a sorted sequence is inserted
      behind it, so stability carries over from the rest of the sequence. */
  lemma InsertBehindStable(m: Message, sorted: seq<Message>, t: int)
    requires sorted != [] && TimeOf(m) >= TimeOf(sorted[0])
    requires WithTime(Insert(m, sorted[1..]), t) == WithTime(sorted[1..], t) + (if TimeOf(m) == t then [m] else [])
    ensures WithTime(Insert(m, sorted), t) == WithTime(sorted, t) + (if TimeOf(m) == t then [m] else [])
  {
    var head, tail := [sorted[0]], sorted[1..];
    var rest := Insert(m, tail);
    var own: seq<Message> := if TimeOf(m) == t then [m] else [];
    assert Insert(m, sorted) == head + rest;
    assert sorted == head + tail;
    WithTimeAppend(head, rest, t);
    WithTimeAppend(head, tail, t);
    AppendAssoc(WithTime(head, t), WithTime(tail, t), own);
  }

  /** An entry earlier than everything in a sorted sequence is placed in front of it. */
  lemma InsertFrontStable(m: Message, sorted: seq<Message>, t: int)
    requires SortedByTime(sorted) && sorted != [] && TimeOf(m) < TimeOf(sorted[0])
    ensures WithTime([m] + sorted, t) == WithTime(sorted, t) + (if TimeOf(m) == t then [m] else [])
  {
    WithTimeAppend([m], sorted, t);
    assert WithTime([m], t) == WithTime([], t) + (if TimeOf(m) == t then [m] else []);
    if TimeOf(m) == t {
      WithTimeNone(sorted, t);
    }
  }

  /** The copy `[...history].sort(...)` makes, as a stable insertion sort:
      later entries go after earlier ones of the same time. */
  function SortByTimestamp(ms: seq<Message>): (r: seq<Message>)
    ensures |r| == |ms|
    ensures multiset(r) == multiset(ms)
  {
    if ms == [] then []
    else
      assert ms == ms[..|ms| - 1] + [ms[|ms| - 1]];
      Insert(ms[|ms| - 1], SortByTimestamp(ms[..|ms| - 1]))
  }

  /** The sorted copy is ordered by time, is a permutation of the input,
      and keeps the input order among entries of equal time. */
  lemma {:induction false} SortByTimestampCorrect(ms: seq<Message>)
    ensures SortedByTime(SortByTimestamp(ms))
    ensures multiset(SortByTimestamp(ms)) == multiset(ms)
    ensures forall t :: WithTime(SortByTimestamp(ms), t) == WithTime(ms, t)
    decreases |ms|
  {
    if ms != [] {
      var init, last := ms[..|ms| - 1], ms[|ms| - 1];
      SortByTimestampCorrect(init);
      InsertSorted(last, SortByTimestamp(init));
      forall t ensures WithTime(SortByTimestamp(ms), t) == WithTime(ms, t) {
        InsertStable(last, SortByTimestamp(init), t);
      }
    }
  }

  /** A history already in time order comes back unchanged. */
  lemma {:induction false} SortedInputUnchanged(ms: seq<Message>)
    requires SortedByTime(ms)
    ensures SortByTimestamp(ms) == ms
    decreases |ms|
  {
    if ms != [] {
      var init, last := ms[..|ms| - 1], ms[|ms| - 1];
      assert forall i :: 0 <= i < |init| ==> init[i] == ms[i];
      assert SortedByTime(init);
      SortedInputUnchanged(init);
      assert forall i :: 0 <= i < |init| ==> TimeOf(init[i]) <= TimeOf(last);
      InsertAtEnd(last, init);
      InitLast(ms);
    }
  }

  /** A non-empty sequence is its prefix followed by its last element. */
  lemma InitLast<T>(s: seq<T>)
    requires s != []
    ensures s == s[..|s| - 1] + [s[|s| - 1]]
  {
  }

  /** An entry not earlier than everything in a sorted sequence goes at its end. */
  lemma {:induction false} InsertAtEnd(m: Message, sorted: seq<Message>)
    requires forall i :: 0 <= i < |sorted| ==> TimeOf(sorted[i]) <= TimeOf(m)
    ensures Insert(m, sorted) == sorted + [m]
    decreases |sorted|
  {
    if sorted != [] {
      InsertAtEnd(m, sorted[1..]);
      assert sorted == [sorted[0]] + sorted[1..];
    }
  }

  /** Entries not later than `m` at the front of a sequence stay in front of it. */
  lemma {:induction false} InsertAfterPrefix(m: Message, p: seq<Message>, q: seq<Message>)
    requires forall i :: 0 <= i < |p| ==> TimeOf(p[i]) <= TimeOf(m)
    ensures Insert(m, p + q) == p + Insert(m, q)
    decreases |p|
  {
    if p != [] {
      var tail := p[1..];
      assert (p + q)[0] == p[0] && (p + q)[1..] == tail + q;
      assert Insert(m, p + q) == [p[0]] + Insert(m, tail + q);
      assert forall i :: 0 <= i < |tail| ==> tail[i] == p[i + 1];
      InsertAfterPrefix(m, tail, q);
      assert p == [p[0]] + tail;
      AppendAssoc([p[0]], tail, Insert(m, q));
    } else {
      assert p + q == q && p + Insert(m, q) == Insert(m, q);
    }
  }

  // ---------------------------------------------------------------------
  // getSessionHistory
  // ---------------------------------------------------------------------

  /** `getSessionHistory`: 404 for an unknown session, with nothing
      changed; otherwise every message of the stored transcript without a
      timestamp is stamped `now` in place, and the answer is 200 with a
      copy of the transcript sorted by timestamp. */
  method GetSessionHistory(store: Store, sessionId: string, now: int) returns (r: Response)
    requires store.Valid()
    modifies store.Objects()
    ensures sessionId !in store.sessions ==>
      && r == Response(404, ErrorBody(false, "invalid_session", "Session not found"))
      && store.Contents() == old(store.Contents())
    ensures sessionId in store.sessions ==>
      && store.Contents() == old(store.Contents())[sessionId := Backfilled(old(store.Contents())[sessionId], now)]
      && r == Response(200, HistoryBody(SortByTimestamp(store.Contents()[sessionId])))
  {
    var history := store.GetHistory(sessionId);
    if history.None? {
      return Response(404, ErrorBody(false, "invalid_session", "Session not found"));
    }
    var t := history.value;
    ghost var before := store.Contents();
    ghost var original := t.items;
    for i := 0 to |t.items|
      modifies t
      invariant |t.items| == |original|
      invariant forall j :: 0 <= j < i ==> t.items[j] == Stamped(original[j], now)
      invariant forall j :: i <= j < |t.items| ==> t.items[j] == original[j]
    {
      if t.items[i].timestamp.None? {
        t.items := t.items[i := t.items[i].(timestamp := Some(now))];
      }
    }
    assert t.items == Backfilled(original, now);
    forall other | other in store.sessions && other != sessionId
      ensures store.sessions[other].messages.items == before[other]
    {
      assert store.sessions[other].messages != t;
    }
    store.ContentsExcept(sessionId, before);
    r := Response(200, HistoryBody(SortByTimestamp(t.items)));
  }

  /** What a fetched history promises a client: it lists each stored
      message once (stamped), in time order, and messages with equal times
      in the order they were stored. */
  lemma HistoryResponseOrdered(ms: seq<Message>, now: int)
    ensures var h := SortByTimestamp(Backfilled(ms, now));
      && SortedByTime(h)
      && multiset(h) == multiset(Backfilled(ms, now))
      && (forall i :: 0 <= i < |h| ==> h[i].timestamp.Some?)
      && (forall t :: WithTime(h, t) == WithTime(Backfilled(ms, now), t))
  {
    var b := Backfilled(ms, now);
    SortByTimestampCorrect(b);
    var h := SortByTimestamp(b);
    forall i | 0 <= i < |h| ensures h[i].timestamp.Some? {
      assert h[i] in multiset(b);
    }
  }
}
