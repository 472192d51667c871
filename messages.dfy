/** Values shared by the session store, the stream decoder and the orchestrator:
    the stored message record, JavaScript's notion of a blank string, string
    concatenation of a list of deltas and the fixed texts the backend emits. */
module Messages {

  datatype Option<+T> = None | Some(value: T)

  /** One stored transcript entry. `role` is the free-form role string the
      backend stores ("user", "assistant", anything else a client sends);
      `modelId` is present on entries a model produced; `timestamp` stands for
      the ISO time string, absent (or empty, hence falsy) when `None`. */
  datatype Message = Message(role: string, modelId: Option<string>, content: string, timestamp: Option<int>)

  /** The code points `String.prototype.trim` removes: WhiteSpace and
      LineTerminator of ECMA-262 (tab, vertical tab, form feed, space,
      no-break space, the byte order mark, the Zs space separators, LF, CR,
      line and paragraph separator). */
  predicate IsJsWhitespace(c: char) {
    c == '\U{0009}' || c == '\U{000B}' || c == '\U{000C}' || c == ' ' || c == '\U{00A0}' || c == '\U{FEFF}'
    || c == '\U{1680}' || ('\U{2000}' <= c <= '\U{200A}') || c == '\U{202F}' || c == '\U{205F}' || c == '\U{3000}'
    || c == '\n' || c == '\r' || c == '\U{2028}' || c == '\U{2029}'
  }

  /** `!s || s.trim() === ''`: the string is empty or whitespace only. */
  predicate IsBlank(s: string) {
    forall i :: 0 <= i < |s| ==> IsJsWhitespace(s[i])
  }

  predicate StartsWith(s: string, prefix: string) {
    |prefix| <= |s| && s[..|prefix|] == prefix
  }

  lemma AppendAssoc<T>(a: seq<T>, b: seq<T>, c: seq<T>)
    ensures a + b + c == a + (b + c)
  {
  }

  /** The strings of `ss` joined in order, as repeated `+=` builds them. */
  function Concat(ss: seq<string>): (r: string)
    ensures |r| == 0 <==> forall i :: 0 <= i < |ss| ==> ss[i] == ""
  {
    if ss == [] then "" else Concat(ss[..|ss| - 1]) + ss[|ss| - 1]
  }

  lemma {:induction false} ConcatAppend(a: seq<string>, b: seq<string>)
    ensures Concat(a + b) == Concat(a) + Concat(b)
    decreases |b|
  {
    if b == [] {
      assert a + b == a;
    } else {
      var init, last := b[..|b| - 1], b[|b| - 1];
      assert (a + b)[..|a + b| - 1] == a + init;
      assert (a + b)[|a + b| - 1] == last;
      ConcatAppend(a, init);
      AppendAssoc(Concat(a), Concat(init), last);
    }
  }

  /** Appending one string to the list appends it to the concatenation. */
  lemma ConcatPush(ss: seq<string>, s: string)
    ensures Concat(ss + [s]) == Concat(ss) + s
  {
    assert (ss + [s])[..|ss|] == ss;
  }

  /** Joined text is blank exactly when both parts are. */
  lemma BlankAppend(a: string, b: string)
    ensures IsBlank(a + b) <==> IsBlank(a) && IsBlank(b)
  {
    if IsBlank(a + b) {
      forall i | 0 <= i < |a| ensures IsJsWhitespace(a[i]) {
        assert a[i] == (a + b)[i];
      }
      forall i | 0 <= i < |b| ensures IsJsWhitespace(b[i]) {
        assert b[i] == (a + b)[|a| + i];
      }
    }
    if IsBlank(a) && IsBlank(b) {
      forall i | 0 <= i < |a + b| ensures IsJsWhitespace((a + b)[i]) {
        if i < |a| {
          assert (a + b)[i] == a[i];
        } else {
          assert (a + b)[i] == b[i - |a|];
        }
      }
    }
  }

  /** The accumulated text is blank exactly when every delta is: the
      placeholder replaces an answer made only of whitespace deltas. */
  lemma {:induction false} ConcatBlank(ss: seq<string>)
    ensures IsBlank(Concat(ss)) <==> forall i :: 0 <= i < |ss| ==> IsBlank(ss[i])
    decreases |ss|
  {
    if ss != [] {
      var init := ss[..|ss| - 1];
      ConcatBlank(init);
      BlankAppend(Concat(init), ss[|ss| - 1]);
      assert forall i :: 0 <= i < |init| ==> init[i] == ss[i];
    }
  }

  /** The text both the stream decoder and the orchestrator put in place of a
      blank answer, naming the model it came from. */
  function NoResponseText(model: string): (r: string)
    ensures !IsBlank(r)
  {
    var r := "No response was generated from " + model + NoResponseAdvice;
    assert !IsJsWhitespace(r[0]);
    r
  }

  /** The sentence the placeholder ends with. */
  const NoResponseAdvice := ". This could be due to an issue with the model configuration or the input provided."

  /** `Error: ${error.message || fallback}`: an empty message is replaced by
      the caller's fallback text. */
  function ErrorText(message: string, fallback: string): (r: string)
    ensures StartsWith(r, "Error: ") && !IsBlank(r)
    ensures message != "" ==> r[7..] == message
    ensures message == "" ==> r[7..] == fallback
  {
    var r := "Error: " + (if message != "" then message else fallback);
    assert !IsJsWhitespace(r[0]);
    r
  }
}
