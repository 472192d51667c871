/** Properties that span the handlers: a `send_message` turn on a fresh
    session with the backend's adapter, followed by a history fetch. */
module EndToEnd {
  import opened Messages
  import opened SocketService
  import opened SessionController
  import BedrockService

  /** The first turn of a fresh session with the backend's adapter stores
      five entries: the user message, the first model's answer, that answer
      again under role "user", the second model's answer, and that answer
      again. */
  lemma FirstTurnTranscript(provider: BedrockService.ConverseRequest -> BedrockService.ProviderReply,
                            sessionId: string, message: string, clock: nat -> int)
    ensures var h := Turn(sessionId, message, [], clock, BedrockAdapter(provider)).history;
      && |h| == 5
      && h[0] == UserEntry(message, clock(0))
      && h[1] == Message("assistant", Some("deepseek1"), h[1].content, Some(clock(1)))
      && h[2] == Message("user", Some("deepseek1"), h[1].content, None)
      && h[3] == Message("assistant", Some("deepseek2"), h[3].content, Some(clock(2)))
      && h[4] == Message("user", Some("deepseek2"), h[3].content, None)
      && !IsBlank(h[1].content) && !IsBlank(h[3].content)
  {
    var adapter := BedrockAdapter(provider);
    var h1 := [] + [UserEntry(message, clock(0))];
    var r1 := ProcessModelSpec(Models[0], sessionId, adapter(Models[0], h1), clock(1));
    var h2 := h1 + OptionSeq(r1.assistant) + [AliasEntry(Models[0], r1.response)];
    var r2 := ProcessModelSpec(Models[1], sessionId, adapter(Models[1], h2), clock(2));
    TurnSteps(sessionId, message, [], clock, adapter);
    BedrockAdapterDirect(provider, Models[0], sessionId, h1, clock(1));
    BedrockAdapterDirect(provider, Models[1], sessionId, h2, clock(2));
    var a1, a2 := r1.assistant.value, r2.assistant.value;
    assert OptionSeq(r1.assistant) == [a1] && OptionSeq(r2.assistant) == [a2];
    FiveEntries(Turn(sessionId, message, [], clock, adapter).history, UserEntry(message, clock(0)),
                a1, AliasEntry(Models[0], r1.response), a2, AliasEntry(Models[1], r2.response));
  }

  /** The positions of a transcript built by appending five entries to an empty one. */
  lemma FiveEntries<T>(h: seq<T>, a: T, b: T, c: T, d: T, e: T)
    requires h == [] + [a] + [b] + [c] + [d] + [e]
    ensures |h| == 5 && h[0] == a && h[1] == b && h[2] == c && h[3] == d && h[4] == e
  {
  }

  /** Fetching the history after that turn, at a time later than the
      stamps of the turn, returns five entries, not one per model: the
      re-pushed copies carry no timestamp, are stamped with the fetch time,
      and so come after both assistant answers. */
  lemma FirstTurnFetchedHistory(provider: BedrockService.ConverseRequest -> BedrockService.ProviderReply,
                                sessionId: string, message: string, clock: nat -> int, now: int)
    requires clock(0) <= clock(1) <= clock(2) < now
    ensures var h := Turn(sessionId, message, [], clock, BedrockAdapter(provider)).history;
      var fetched := SortByTimestamp(Backfilled(h, now));
      && |h| == 5
      && |fetched| == 5 && fetched[0] == h[0] && fetched[1] == h[1] && fetched[2] == h[3]
      && fetched[3] == h[2].(timestamp := Some(now)) && fetched[4] == h[4].(timestamp := Some(now))
  {
    FirstTurnTranscript(provider, sessionId, message, clock);
    var h := Turn(sessionId, message, [], clock, BedrockAdapter(provider)).history;
    FetchOrder(h, clock(0), clock(1), clock(2), now);
  }

  /** The fetch order of a transcript shaped like the first turn's: two
      stamped answers after the stamped user message, each followed by an
      unstamped copy. */
  lemma FetchOrder(h: seq<Message>, c0: int, c1: int, c2: int, now: int)
    requires |h| == 5 && c0 <= c1 <= c2 < now
    requires h[0].timestamp == Some(c0) && h[1].timestamp == Some(c1) && h[3].timestamp == Some(c2)
    requires h[2].timestamp == None && h[4].timestamp == None
    ensures var f := SortByTimestamp(Backfilled(h, now));
      && |f| == 5 && f[0] == h[0] && f[1] == h[1] && f[2] == h[3]
      && f[3] == h[2].(timestamp := Some(now)) && f[4] == h[4].(timestamp := Some(now))
  {
    var b := Backfilled(h, now);
    assert b == [b[0], b[1], b[2], b[3], b[4]];
    assert b[0] == h[0] && b[1] == h[1] && b[3] == h[3];
    assert b[2] == h[2].(timestamp := Some(now)) && b[4] == h[4].(timestamp := Some(now));
    SortFive(b[0], b[1], b[2], b[3], b[4]);
    FiveElements(b[0], b[1], b[3], b[2], b[4]);
  }

  /** Five entries whose third is later than the fourth and the fifth is
      latest: the sort moves the fourth in front of the third. */
  lemma SortFive(u: Message, a1: Message, x1: Message, a2: Message, x2: Message)
    requires TimeOf(u) <= TimeOf(a1) <= TimeOf(a2) < TimeOf(x1) <= TimeOf(x2)
    ensures SortByTimestamp([u, a1, x1, a2, x2]) == [u, a1] + [a2, x1] + [x2]
  {
    var s4 := [u, a1] + [a2, x1];
    LastSplit([u, a1, x1, a2, x2], [u, a1, x1, a2], x2);
    FourElements(u, a1, a2, x1);
    calc {
      SortByTimestamp([u, a1, x1, a2, x2]);
      Insert(x2, SortByTimestamp([u, a1, x1, a2]));
      { SortFour(u, a1, x1, a2); }
      Insert(x2, s4);
      { InsertAtEnd(x2, s4); }
      s4 + [x2];
    }
  }





  /** Four entries whose third is later than the fourth: the sort moves the
      fourth in front of the third. */
  lemma SortFour(u: Message, a1: Message, x1: Message, a2: Message)
    requires TimeOf(u) <= TimeOf(a1) <= TimeOf(a2) < TimeOf(x1)
    ensures SortByTimestamp([u, a1, x1, a2]) == [u, a1] + [a2, x1]
  {
    var front := [u, a1];
    var b := [u, a1, x1, a2];
    assert b[..|b| - 1] == front + [x1] && b[|b| - 1] == a2;
    calc {
      SortByTimestamp([u, a1, x1, a2]);
      Insert(a2, SortByTimestamp(front + [x1]));
      { SortThree(u, a1, x1); }
      Insert(a2, front + [x1]);
      { InsertAfterPair(a2, u, a1, x1); }
      front + Insert(a2, [x1]);
      front + [a2, x1];
    }
  }

  /** Three entries already in time order are left as they are. */
  lemma SortThree(u: Message, a1: Message, x1: Message)
    requires TimeOf(u) <= TimeOf(a1) <= TimeOf(x1)
    ensures SortByTimestamp([u, a1] + [x1]) == [u, a1] + [x1]
  {
    var t := [u, a1] + [x1];
    assert t[0] == u && t[1] == a1 && t[2] == x1;
    assert SortedByTime(t);
    SortedInputUnchanged(t);
  }

  /** An entry not earlier than the first two of three but earlier than the
      third goes between them. */
  lemma InsertAfterPair(a2: Message, u: Message, a1: Message, x1: Message)
    requires TimeOf(u) <= TimeOf(a2) && TimeOf(a1) <= TimeOf(a2) < TimeOf(x1)
    ensures Insert(a2, [u, a1] + [x1]) == [u, a1] + [a2, x1]
  {
    var front := [u, a1];
    assert front[0] == u && front[1] == a1;
    calc {
      Insert(a2, front + [x1]);
      { InsertAfterPrefix(a2, front, [x1]); }
      front + Insert(a2, [x1]);
      { InsertBeforeOne(a2, x1); }
      front + [a2, x1];
    }
  }

  /** An entry earlier than the only one of a sequence goes in front of it. */
  lemma InsertBeforeOne(m: Message, x: Message)
    requires TimeOf(m) < TimeOf(x)
    ensures Insert(m, [x]) == [m, x]
  {
  }

  /** The positions of a five-element sequence built from two, two and one,
      stated over any element type: the same facts over transcript entries
      cost the solver far more. */
  lemma FiveElements<T>(a: T, b: T, c: T, d: T, e: T)
    ensures var f := [a, b] + [c, d] + [e];
      |f| == 5 && f[0] == a && f[1] == b && f[2] == c && f[3] == d && f[4] == e
  {
  }

  /** A non-empty sequence is its prefix followed by its last element. */
  lemma LastSplit<T>(s: seq<T>, init: seq<T>, last: T)
    requires s == init + [last]
    ensures s != [] && s[..|s| - 1] == init && s[|s| - 1] == last
  {
  }

  /** The positions of a four-element sequence built from two and two. */
  lemma FourElements<T>(a: T, b: T, c: T, d: T)
    ensures var f := [a, b] + [c, d];
      |f| == 4 && f[0] == a && f[1] == b && f[2] == c && f[3] == d
  {
  }
}
