/** The message list a chat turn sends to the model, and the two ways of shortening it
    (backend/app/services/context_compressor.py). */
module Transcript {
  import opened Options

  datatype Message =
    | System(text: string)
    | User(text: string)
    | Assistant(text: string, calls: seq<string>)
    | ToolResult(callId: string, text: string)

  ghost predicate Answers(results: seq<Message>, calls: seq<string>) {
    |results| == |calls| && forall i | 0 <= i < |calls| :: results[i].ToolResult? && results[i].callId == calls[i]
  }

  /** What providers demand: each assistant message with tool calls is followed by exactly one
      tool message a call, in order, and no tool message stands anywhere else. */
  ghost predicate WellFormed(t: seq<Message>)
    decreases |t|
  {
    t == [] ||
    match t[0]
    case ToolResult(_, _) => false
    case Assistant(_, calls) =>
      |calls| < |t| && Answers(t[1..1 + |calls|], calls) && WellFormed(t[1 + |calls|..])
    case _ => WellFormed(t[1..])
  }

  // ---------------------------------------------------------------- the compressors

  const KEEP_TAIL := 4

  function WithoutSystem(t: seq<Message>): (out: seq<Message>)
    ensures forall m | m in out :: m in t && !m.System?
  {
    if t == [] then []
    else if t[0].System? then WithoutSystem(t[1..])
    else [t[0]] + WithoutSystem(t[1..])
  }

  /** The first system message apart, everything else in order. */
  function Apart(t: seq<Message>): (parts: (seq<Message>, seq<Message>)) {
    if t == [] then ([], [])
    else if t[0].System? then ([t[0]], t[1..])
    else
      var rest := Apart(t[1..]);
      (rest.0, [t[0]] + rest.1)
  }

  /** The positions of the user messages. */
  function UserIndices(t: seq<Message>): (at: seq<nat>)
    ensures forall p | 0 <= p < |at| :: at[p] < |t| && t[at[p]].User?
  {
    if t == [] then []
    else
      var n := |t| - 1;
      UserIndices(t[..n]) + if t[n].User? then [n] else []
  }

  /** Where the kept tail of `t` starts, when there is something to summarise before it. */
  function Cut(t: seq<Message>): (at: Option<nat>)
    ensures at.Some? ==> UserIndices(t) != [] && at.value < |t|
    ensures at.Some? && |UserIndices(t)| >= 2 ==> t[at.value].User?
    ensures at.Some? && |UserIndices(t)| < 2 ==> at.value + KEEP_TAIL == |t|
  {
    var users := UserIndices(t);
    if users == [] then None
    else if |users| >= 2 then
      if users[0] + 1 < users[|users| - 1] then Some(users[|users| - 1]) else None
    else if |t| - users[0] - 1 > KEEP_TAIL then Some(|t| - KEEP_TAIL)
    else None
  }

  /** `f` and `l` are the first and the last user message of `t`. */
  ghost predicate UserSpan(t: seq<Message>, f: nat, l: nat) {
    && f <= l < |t| && t[f].User? && t[l].User?
    && forall i | 0 <= i < f || l < i < |t| :: !t[i].User?
  }

  lemma {:induction false} NoUserIndices(t: seq<Message>)
    requires forall i | 0 <= i < |t| :: !t[i].User?
    ensures UserIndices(t) == []
  {
    if t != [] { NoUserIndices(t[..|t| - 1]); }
  }

  lemma {:induction false} UserIndicesSpan(t: seq<Message>, f: nat, l: nat)
    requires UserSpan(t, f, l)
    ensures var users := UserIndices(t);
            users != [] && users[0] == f && users[|users| - 1] == l && (|users| >= 2 <==> f < l)
  {
    var n := |t| - 1;
    if l < n {
      UserIndicesSpan(t[..n], f, l);
    } else if f < l {
      var m := LastUserBefore(t, f, l);
      UserIndicesSpan(t[..n], f, m);
    } else {
      NoUserIndices(t[..n]);
    }
  }

  lemma LastUserBefore(t: seq<Message>, f: nat, l: nat) returns (m: nat)
    requires f < l <= |t| && t[f].User?
    ensures f <= m < l && t[m].User? && forall i | m < i < l :: !t[i].User?
  {
    m := l - 1;
    while !t[m].User?
      invariant f <= m < l && forall i | m < i < l :: !t[i].User?
      decreases m
    {
      m := m - 1;
    }
  }

  /** With several user messages the kept tail starts at the last one, if anything stands between
      it and the first; with one, it is the last four messages, if more than four follow it. */
  lemma CutIs(t: seq<Message>, f: nat, l: nat)
    requires UserSpan(t, f, l)
    ensures f < l ==> Cut(t) == if f + 1 < l then Some(l) else None
    ensures f == l ==> Cut(t) == if |t| - f - 1 > 4 then Some(|t| - 4) else None
  {
    UserIndicesSpan(t, f, l);
  }

  /** Without a user message nothing is cut. */
  lemma NoUserNoCut(t: seq<Message>)
    requires forall i | 0 <= i < |t| :: !t[i].User?
    ensures Cut(t) == None
  {
    NoUserIndices(t);
  }

  /** `maybe_compress_messages`: `full` when the estimate reached the threshold, `summary` what
      the summarising model wrote, if it answered. None when nothing was compressed. */
  function MaybeCompress(messages: seq<Message>, full: bool, summary: Option<string>): Option<seq<Message>> {
    var (system, rest) := Apart(messages);
    if !full || Cut(rest).None? || summary.None? then None
    else Some(system + [rest[UserIndices(rest)[0]], Assistant(summary.value, [])] + rest[Cut(rest).value..])
  }

  /** `hard_compress_messages`: everything but the system message becomes one user message. */
  function HardCompress(messages: seq<Message>, summary: string): Option<seq<Message>> {
    if WithoutSystem(messages) == [] then None
    else Some(Apart(messages).0 + [User(summary)])
  }

  // ---------------------------------------------------------------- what they do to a transcript

  lemma {:induction false} SuffixWellFormedIff(t: seq<Message>, i: nat)
    requires WellFormed(t) && i <= |t|
    ensures WellFormed(t[i..]) <==> i == |t| || !t[i].ToolResult?
    decreases |t|
  {
    if i == 0 {
      assert t[0..] == t;
    } else if t[0].Assistant? {
      var k := |t[0].calls|;
      if i <= k {
        assert t[1..1 + k][i - 1] == t[i];
      } else {
        assert t[1 + k..][i - 1 - k..] == t[i..];
        SuffixWellFormedIff(t[1 + k..], i - 1 - k);
      }
    } else {
      assert t[1..][i - 1..] == t[i..];
      SuffixWellFormedIff(t[1..], i - 1);
    }
  }

  lemma {:induction false} AppendWellFormed(a: seq<Message>, b: seq<Message>)
    requires WellFormed(a)
    ensures WellFormed(a + b) <==> WellFormed(b)
    decreases |a|
  {
    if a == [] {
      assert a + b == b;
    } else if a[0].Assistant? {
      var k := |a[0].calls|;
      assert (a + b)[1..1 + k] == a[1..1 + k];
      assert (a + b)[1 + k..] == a[1 + k..] + b;
      AppendWellFormed(a[1 + k..], b);
    } else {
      assert (a + b)[1..] == a[1..] + b;
      AppendWellFormed(a[1..], b);
    }
  }

  lemma {:induction false} WithoutSystemOfNone(t: seq<Message>)
    requires forall m | m in t :: !m.System?
    ensures WithoutSystem(t) == t
  {
    if t != [] {
      assert t[0] in t && forall m | m in t[1..] :: m in t;
      WithoutSystemOfNone(t[1..]);
    }
  }

  lemma {:induction false} WithoutSystemAppend(a: seq<Message>, b: seq<Message>)
    ensures WithoutSystem(a + b) == WithoutSystem(a) + WithoutSystem(b)
  {
    if a == [] {
      assert a + b == b;
    } else {
      assert (a + b)[1..] == a[1..] + b;
      WithoutSystemAppend(a[1..], b);
    }
  }

  lemma AnswersHaveNoSystem(results: seq<Message>, calls: seq<string>)
    requires Answers(results, calls)
    ensures WithoutSystem(results) == results
  {
    forall m | m in results ensures !m.System? {
      var i :| 0 <= i < |results| && results[i] == m;
    }
    WithoutSystemOfNone(results);
  }

  lemma GroupWellFormed(a: Message, results: seq<Message>)
    requires a.Assistant? && Answers(results, a.calls)
    ensures WellFormed([a] + results) && WithoutSystem([a] + results) == [a] + results
  {
    var group := [a] + results;
    assert group[1..] == results && group[1..1 + |a.calls|] == results && group[1 + |a.calls|..] == [];
    AnswersHaveNoSystem(results, a.calls);
  }

  /** Dropping system messages never splits a tool group. */
  lemma {:induction false} WithoutSystemWellFormed(t: seq<Message>)
    requires WellFormed(t)
    ensures WellFormed(WithoutSystem(t))
    decreases |t|
  {
    if t == [] {
    } else if t[0].Assistant? {
      var k := |t[0].calls|;
      var group, rest := [t[0]] + t[1..1 + k], t[1 + k..];
      GroupWellFormed(t[0], t[1..1 + k]);
      WithoutSystemWellFormed(rest);
      assert t == group + rest;
      WithoutSystemAppend(group, rest);
      AppendWellFormed(group, WithoutSystem(rest));
    } else {
      PlainFirst(t);
      WithoutSystemWellFormed(t[1..]);
    }
  }

  lemma PlainFirst(t: seq<Message>)
    requires t != [] && !t[0].Assistant? && !t[0].ToolResult?
    ensures WellFormed(WithoutSystem(t)) <==> WellFormed(WithoutSystem(t[1..]))
  {
    var rest := WithoutSystem(t[1..]);
    assert ([t[0]] + rest)[1..] == rest;
  }

  lemma {:induction false} FirstKept(t: seq<Message>)
    requires t != [] && !t[0].System?
    ensures WithoutSystem(t) != [] && WithoutSystem(t)[0] == t[0]
  {
  }

  /** What a turn makes of a soft compression of its messages under the system prompt. */
  function TurnCompressed(prompt: string, t: seq<Message>, full: bool, summary: Option<string>): Option<seq<Message>> {
    match MaybeCompress([System(prompt)] + t, full, summary)
    case None => None
    case Some(out) => Some(WithoutSystem(out))
  }

  predicate CutsInsideToolGroup(t: seq<Message>) {
    |UserIndices(t)| < 2 && |t| >= KEEP_TAIL && t[|t| - KEEP_TAIL].ToolResult?
  }

  /** The compressor keeps a well-formed transcript well-formed exactly when it does not cut a
      single-user conversation four messages before its end in the middle of a tool group. */
  lemma SoftCompressionKeepsWellFormedIff(prompt: string, t: seq<Message>, full: bool, summary: Option<string>)
    requires WellFormed(t) && TurnCompressed(prompt, t, full, summary).Some?
    ensures WellFormed(TurnCompressed(prompt, t, full, summary).value) <==> !CutsInsideToolGroup(t)
  {
    var cut, first := Cut(t).value, t[UserIndices(t)[0]];
    TurnShape(prompt, t, full, summary);
    HeadWellFormed(first, summary.value);
    AppendWellFormed([first, Assistant(summary.value, [])], WithoutSystem(t[cut..]));
    SuffixWellFormedIff(t, cut);
    if t[cut].ToolResult? {
      FirstKept(t[cut..]);
    } else {
      WithoutSystemWellFormed(t[cut..]);
    }
  }

  lemma TurnShape(prompt: string, t: seq<Message>, full: bool, summary: Option<string>)
    requires TurnCompressed(prompt, t, full, summary).Some?
    ensures Cut(t).Some? && Cut(t).value < |t| && summary.Some? && UserIndices(t) != []
    ensures TurnCompressed(prompt, t, full, summary).value
         == [t[UserIndices(t)[0]], Assistant(summary.value, [])] + WithoutSystem(t[Cut(t).value..])
  {
    var out := TurnParts(prompt, t, full, summary);
    var first := t[UserIndices(t)[0]];
    assert first.User?;
    WithoutPrompt(prompt, first, summary.value, t[Cut(t).value..]);
  }

  /** A soft compression leaves the first user message, the summary, and the tail from the cut on;
      it happens exactly when the messages are too many, can be cut, and were summarised. */
  lemma SoftCompressionIs(prompt: string, t: seq<Message>, full: bool, summary: Option<string>, f: nat, l: nat)
    requires UserSpan(t, f, l)
    ensures var out := TurnCompressed(prompt, t, full, summary);
            && (out.Some? <==> full && summary.Some? && Cut(t).Some?)
            && (out.Some? ==> out.value == [t[f], Assistant(summary.value, [])] + WithoutSystem(t[Cut(t).value..]))
  {
    assert ([System(prompt)] + t)[1..] == t;
    UserIndicesSpan(t, f, l);
    if TurnCompressed(prompt, t, full, summary).Some? { TurnShape(prompt, t, full, summary); }
  }

  lemma TurnParts(prompt: string, t: seq<Message>, full: bool, summary: Option<string>) returns (out: seq<Message>)
    requires TurnCompressed(prompt, t, full, summary).Some?
    ensures Cut(t).Some? && Cut(t).value < |t| && summary.Some? && UserIndices(t) != []
    ensures out == [System(prompt)] + [t[UserIndices(t)[0]], Assistant(summary.value, [])] + t[Cut(t).value..]
    ensures TurnCompressed(prompt, t, full, summary) == Some(WithoutSystem(out))
  {
    assert ([System(prompt)] + t)[1..] == t;
    out := MaybeCompress([System(prompt)] + t, full, summary).value;
  }

  lemma WithoutPrompt(prompt: string, first: Message, summary: string, tail: seq<Message>)
    requires first.User?
    ensures var head := [first, Assistant(summary, [])];
            WithoutSystem([System(prompt)] + head + tail) == head + WithoutSystem(tail)
  {
    var head := [first, Assistant(summary, [])];
    assert ([System(prompt)] + head + tail)[1..] == head + tail;
    WithoutSystemAppend(head, tail);
    WithoutSystemOfNone(head);
  }

  lemma HeadWellFormed(first: Message, summary: string)
    requires first.User?
    ensures WellFormed([first, Assistant(summary, [])])
  {
    var head := [first, Assistant(summary, [])];
    assert head[1..] == [Assistant(summary, [])];
    assert head[1..][1..] == [];
    assert WellFormed(head[1..]);
  }

  /** Hard compression always leaves one user message. */
  lemma HardCompressionIsOneUserMessage(prompt: string, t: seq<Message>, summary: string)
    requires HardCompress([System(prompt)] + t, summary).Some?
    ensures WithoutSystem(HardCompress([System(prompt)] + t, summary).value) == [User(summary)]
    ensures WellFormed([User(summary)])
  {
    var out := HardCompress([System(prompt)] + t, summary).value;
    assert out == [System(prompt)] + [User(summary)];
    assert out[1..] == [User(summary)];
    assert [User(summary)][1..] == [];
    WithoutSystemOfNone([User(summary)]);
  }

  function Results(calls: seq<string>): (out: seq<Message>)
    ensures Answers(out, calls)
  {
    if calls == [] then [] else [ToolResult(calls[0], "")] + Results(calls[1..])
  }

  /** A user's question and one answered round of tool calls. */
  function OneRound(question: string, calls: seq<string>): (t: seq<Message>)
    ensures |t| == 2 + |calls| && t[0] == User(question) && t[1] == Assistant("", calls) && t[2..] == Results(calls)
  {
    [User(question)] + ([Assistant("", calls)] + Results(calls))
  }

  lemma OneRoundWellFormed(question: string, calls: seq<string>)
    ensures WellFormed(OneRound(question, calls))
  {
    GroupWellFormed(Assistant("", calls), Results(calls));
    assert OneRound(question, calls)[1..] == [Assistant("", calls)] + Results(calls);
  }

  /** A first round is cut inside its group exactly when the model asked for four tools or more. */
  lemma ParallelCallsAreSplitIff(question: string, calls: seq<string>)
    ensures var t := OneRound(question, calls);
            && WellFormed(t)
            && (Cut(t).Some? <==> |calls| >= 4)
            && (CutsInsideToolGroup(t) <==> |calls| >= 4)
  {
    OneRoundWellFormed(question, calls);
    OnlyQuestionIsUser(question, calls);
    FourthFromTheEnd(question, calls);
  }

  lemma OnlyQuestionIsUser(question: string, calls: seq<string>)
    ensures UserIndices(OneRound(question, calls)) == [0]
  {
    var t := OneRound(question, calls);
    forall i | 0 < i < |t| ensures !t[i].User? { PastTheUser(t, calls, i); }
    OnlyFirstIsUser(t);
  }

  lemma FourthFromTheEnd(question: string, calls: seq<string>)
    ensures var t := OneRound(question, calls);
            |t| >= KEEP_TAIL && t[|t| - KEEP_TAIL].ToolResult? <==> |calls| >= KEEP_TAIL
  {
    var t := OneRound(question, calls);
    if |calls| >= KEEP_TAIL { PastTheUser(t, calls, |t| - KEEP_TAIL); }
  }

  lemma PastTheUser(t: seq<Message>, calls: seq<string>, i: nat)
    requires |t| == 2 + |calls| && t[1].Assistant? && t[2..] == Results(calls) && 0 < i < |t|
    ensures !t[i].User? && (i >= 2 ==> t[i].ToolResult?)
  {
    if i >= 2 { assert t[i] == t[2..][i - 2]; }
  }

  lemma {:induction false} OnlyFirstIsUser(t: seq<Message>)
    requires t != [] && t[0].User? && forall i | 0 < i < |t| :: !t[i].User?
    ensures UserIndices(t) == [0]
  {
    var n := |t| - 1;
    if n == 0 {
      assert t[..0] == [];
    } else {
      OnlyFirstIsUser(t[..n]);
    }
  }
}
