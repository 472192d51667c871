/** The in-memory session store of backend/src/models/Session.js: a
    module-level `Map` from session id to `{id, createdAt, messages}`.
    The `messages` array of a session is an object of its own (`Transcript`),
    and `GetHistory` hands out that very object, so a caller that pushes onto
    it writes into the stored transcript. */
module SessionModel {
  import opened Messages

  /** A session's live `messages` array. */
  class Transcript {
    var items: seq<Message>

    constructor ()
      ensures items == []
    {
      items := [];
    }

    /** `messages.push(m)`: no check for an equal entry already present. */
    method Push(m: Message)
      modifies this
      ensures items == old(items) + [m]
    {
      items := items + [m];
    }
  }

  /** The stored `{id, createdAt, messages}` object; `createdAt` stands for
      the ISO creation time. */
  datatype SessionRecord = SessionRecord(id: string, createdAt: int, messages: Transcript)

  /** The `{id, createdAt}` projection `getAll` returns. */
  datatype SessionSummary = SessionSummary(id: string, createdAt: int)

  class Store {
    var sessions: map<string, SessionRecord>
    /** The keys of the `Map` in insertion order, the order `sessions.values()` iterates in. */
    var order: seq<string>

    /** Every key is listed once in `order`, every record is stored under its
        own id, and no two sessions share a messages array. */
    ghost predicate Valid()
      reads this
    {
      && (forall id :: id in sessions <==> id in order)
      && (forall i, j :: 0 <= i < j < |order| ==> order[i] != order[j])
      && (forall id :: id in sessions ==> sessions[id].id == id)
      && (forall id1, id2 :: id1 in sessions && id2 in sessions && id1 != id2 ==>
            sessions[id1].messages != sessions[id2].messages)
    }

    /** The messages arrays the store owns. */
    ghost function Objects(): set<Transcript>
      reads this
    {
      set id | id in sessions :: sessions[id].messages
    }

    /** The abstract content of the store: each session's transcript. */
    ghost function Contents(): map<string, seq<Message>>
      reads this, Objects()
    {
      map id | id in sessions :: sessions[id].messages.items
    }

    /** The empty module-level `Map`. */
    constructor ()
      ensures Valid() && sessions == map[] && order == [] && Contents() == map[]
    {
      sessions := map[];
      order := [];
    }

    /** `Session.create()` with the fresh id and the creation time as inputs.
        `Map.set` on a key already present replaces the value and keeps the
        key's position, so only a new key is appended to the order. */
    method Create(id: string, createdAt: int) returns (s: SessionRecord)
      requires Valid()
      modifies this
      ensures Valid()
      ensures s.id == id && s.createdAt == createdAt && fresh(s.messages) && s.messages.items == []
      ensures GetById(id) == Some(s)
      ensures forall other :: other != id ==> GetById(other) == old(GetById(other))
      ensures order == if id in old(sessions) then old(order) else old(order) + [id]
      ensures Contents() == old(Contents())[id := []]
    {
      ghost var before := Contents();
      var t := new Transcript();
      s := SessionRecord(id, createdAt, t);
      if id !in sessions {
        order := order + [id];
      }
      sessions := sessions[id := s];
      ContentsExcept(id, before);
    }

    /** `Session.getAll()`: one summary per stored session, in insertion order. */
    function GetAll(): (r: seq<SessionSummary>)
      reads this
      requires Valid()
      ensures |r| == |order| == |sessions|
      ensures forall i :: 0 <= i < |r| ==>
        r[i].id == order[i] && order[i] in sessions && r[i].createdAt == sessions[order[i]].createdAt
    {
      OrderCoversKeys();
      var ids, records := order, sessions;
      assert forall i :: 0 <= i < |ids| ==> ids[i] in ids && ids[i] in records;
      seq(|ids|, i requires 0 <= i < |ids| && ids[i] in records =>
        SessionSummary(ids[i], records[ids[i]].createdAt))
    }

    /** The listing names every stored session exactly once. */
    lemma GetAllListsEachOnce()
      requires Valid()
      ensures forall id :: id in sessions <==> exists i :: 0 <= i < |GetAll()| && GetAll()[i].id == id
      ensures forall i, j :: 0 <= i < j < |GetAll()| ==> GetAll()[i].id != GetAll()[j].id
    {
      var r := GetAll();
      forall id | id in sessions
        ensures exists i :: 0 <= i < |r| && r[i].id == id
      {
        assert id in order;
        var i :| 0 <= i < |order| && order[i] == id;
        assert r[i].id == id;
      }
    }

    /** The insertion order lists exactly the keys, so it is as long as the map. */
    lemma OrderCoversKeys()
      requires Valid()
      ensures |order| == |sessions|
    {
      var keys := sessions.Keys;
      assert keys == set i | 0 <= i < |order| :: order[i];
      DistinctCount(order);
    }

    /** `Session.getById(id)`: the stored record, or null for an absent id. */
    function GetById(id: string): (r: Option<SessionRecord>)
      reads this
      ensures r.Some? <==> id in sessions
      ensures r.Some? ==> r.value == sessions[id]
    {
      if id in sessions then Some(sessions[id]) else None
    }

    /** `Session.addMessage(id, m)`: false and no change for an unknown id;
        otherwise `m` is appended to that session's transcript, duplicates
        included, and no other transcript changes. */
    method AddMessage(id: string, m: Message) returns (ok: bool)
      requires Valid()
      modifies if id in sessions then {sessions[id].messages} else {}
      ensures ok <==> id in sessions
      ensures ok ==> sessions[id].messages.items == old(sessions[id].messages.items) + [m]
      ensures Contents() == if ok then old(Contents())[id := old(Contents())[id] + [m]] else old(Contents())
    {
      if id !in sessions {
        return false;
      }
      ghost var before := Contents();
      var t := sessions[id].messages;
      t.Push(m);
      forall other | other in sessions && other != id
        ensures sessions[other].messages.items == before[other]
      {
        assert sessions[other].messages != t;
      }
      ContentsExcept(id, before);
      return true;
    }

    /** When every transcript but `id`'s still holds what `before` records,
        the content of the store is `before` with `id`'s entry replaced. */
    lemma ContentsExcept(id: string, before: map<string, seq<Message>>)
      requires id in sessions && sessions.Keys == before.Keys + {id}
      requires forall other :: other in sessions && other != id ==> sessions[other].messages.items == before[other]
      ensures Contents() == before[id := sessions[id].messages.items]
    {
    }

    /** `Session.getHistory(id)`: null for an unknown id, otherwise the
        session's own messages array (not a copy). */
    function GetHistory(id: string): (r: Option<Transcript>)
      reads this
      ensures r.Some? <==> id in sessions
      ensures r.Some? ==> r.value == sessions[id].messages && r.value in Objects()
    {
      if id in sessions then Some(sessions[id].messages) else None
    }
  }

  /** A sequence without repeats has as many elements as its set. */
  lemma {:induction false} DistinctCount<T>(s: seq<T>)
    requires forall i, j :: 0 <= i < j < |s| ==> s[i] != s[j]
    ensures |set i | 0 <= i < |s| :: s[i]| == |s|
  {
    if s != [] {
      var init := s[..|s| - 1];
      DistinctCount(init);
      var a := set i | 0 <= i < |init| :: init[i];
      var b := set i | 0 <= i < |s| :: s[i];
      assert b == a + {s[|s| - 1]};
      assert s[|s| - 1] !in a;
    }
  }
}
