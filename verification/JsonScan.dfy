/** Finding JSON objects inside prose: `_embedded_json_objects` of backend/app/api/ai_assistant.py.

    `raw_decode` is a parameter: from a start position it gives the end of the value it read
    and whether that value is an object, or nothing. Its one property is that the end lies
    beyond the start.
 */
module JsonScan {
  import opened Options

  const MAX_ATTEMPTS := 200

  datatype Decoded = Decoded(end: nat, isObject: bool)

  datatype Span = Span(start: nat, end: nat)

  type Decoder = (string, nat) -> Option<Decoded>

  ghost predicate Advances(decode: Decoder, content: string) {
    forall p: nat | p < |content| && decode(content, p).Some? :: p < decode(content, p).value.end <= |content|
  }

  /** `content.find("{", from)`; None for -1. */
  function FindBrace(content: string, from: nat): (at: Option<nat>)
    ensures at.Some? ==> from <= at.value < |content| && content[at.value] == '{'
    ensures forall p | from <= p < (if at.Some? then at.value else |content|) :: content[p] != '{'
    decreases |content| - from
  {
    if from >= |content| then None
    else if content[from] == '{' then Some(from)
    else FindBrace(content, from + 1)
  }

  ghost function Braces(content: string): set<nat> { set p: nat | p < |content| && content[p] == '{' }

  /** A brace the scan passed over lies inside something it decoded. */
  ghost predicate Covered(decode: Decoder, content: string, tried: seq<nat>, p: nat) {
    exists i :: 0 <= i < |tried| && CoveredBy(decode, content, tried[i], p)
  }

  ghost predicate CoveredBy(decode: Decoder, content: string, t: nat, p: nat) {
    t < p && decode(content, t).Some? && p < decode(content, t).value.end
  }

  ghost predicate Increasing(tried: seq<nat>) { forall i, j | 0 <= i < j < |tried| :: tried[i] < tried[j] }

  /** Every brace before `stop` was tried or is covered. */
  ghost predicate NoneMissed(decode: Decoder, content: string, tried: seq<nat>, stop: nat) {
    forall p | p in Braces(content) && p < stop :: p in tried || Covered(decode, content, tried, p)
  }

  ghost predicate IsObjectAt(decode: Decoder, content: string, s: Span) {
    s.start < s.end && decode(content, s.start) == Some(Decoded(s.end, true))
  }

  /** The objects found are exactly those decoded at tried positions, in order, without overlap. */
  ghost predicate FoundFrom(decode: Decoder, content: string, tried: seq<nat>, found: seq<Span>) {
    && (forall k | 0 <= k < |found| :: found[k].start in tried && IsObjectAt(decode, content, found[k]))
    && (forall k, l | 0 <= k < l < |found| :: found[k].end <= found[l].start)
    && (forall i | 0 <= i < |tried| && decode(content, tried[i]).Some? && decode(content, tried[i]).value.isObject ::
          Span(tried[i], decode(content, tried[i]).value.end) in found)
  }

  /** The tried positions are braces before `stop`, and no decoded value reaches past it. */
  ghost predicate TriedBefore(decode: Decoder, content: string, tried: seq<nat>, stop: nat) {
    forall i | 0 <= i < |tried| ::
      && tried[i] in Braces(content) && tried[i] < stop
      && (decode(content, tried[i]).Some? ==> decode(content, tried[i]).value.end <= stop)
  }

  ghost predicate ScanInv(decode: Decoder, content: string, tried: seq<nat>, found: seq<Span>, stop: nat) {
    && Increasing(tried)
    && FoundFrom(decode, content, tried, found)
    && TriedBefore(decode, content, tried, stop)
    && NoneMissed(decode, content, tried, stop)
  }

  /** The position lies inside a value that decodes from an earlier opening brace. */
  ghost predicate Inside(decode: Decoder, content: string, p: nat) {
    exists q :: q in Braces(content) && CoveredBy(decode, content, q, p)
  }

  /** What the scan's result means without a look at its attempts: objects that decode at opening
      braces, disjoint and in order, and with few enough braces every one that is not inside
      another decoded value. */
  ghost predicate FindsObjects(decode: Decoder, content: string, found: seq<Span>) {
    && |found| <= 200
    && (forall k | 0 <= k < |found| :: found[k].start in Braces(content) && IsObjectAt(decode, content, found[k]))
    && (forall k, l | 0 <= k < l < |found| :: found[k].end <= found[l].start)
    && (|Braces(content)| <= 200 ==>
          forall p | p in Braces(content) && decode(content, p).Some? && decode(content, p).value.isObject ::
            Span(p, decode(content, p).value.end) in found || Inside(decode, content, p))
  }

  lemma ScanFindsObjects(decode: Decoder, content: string, tried: seq<nat>, found: seq<Span>, stop: nat)
    requires ScanInv(decode, content, tried, found, stop) && |found| <= |tried| <= MAX_ATTEMPTS
    requires stop == |content| || |tried| == MAX_ATTEMPTS
    ensures FindsObjects(decode, content, found)
  {
    forall k | 0 <= k < |found| ensures found[k].start in Braces(content) {
      assert found[k].start in tried;
      var i :| 0 <= i < |tried| && tried[i] == found[k].start;
    }
    if |Braces(content)| <= MAX_ATTEMPTS {
      NoBraceMissed(decode, content, tried, stop);
      forall p | p in Braces(content) && decode(content, p).Some? && decode(content, p).value.isObject
        ensures Span(p, decode(content, p).value.end) in found || Inside(decode, content, p)
      {
        if p in tried {
          var i :| 0 <= i < |tried| && tried[i] == p;
        } else {
          var i :| 0 <= i < |tried| && CoveredBy(decode, content, tried[i], p);
          assert tried[i] in Braces(content);
        }
      }
    }
  }

  /** The scan. Every opening brace before the point it stopped at was tried or lies inside a
      value it decoded; and it stopped at the end of the text or after 200 attempts. */
  method EmbeddedObjects(decode: Decoder, content: string) returns (found: seq<Span>, ghost tried: seq<nat>, ghost stop: nat)
    requires Advances(decode, content)
    ensures |tried| <= MAX_ATTEMPTS && ScanInv(decode, content, tried, found, stop)
    ensures stop == |content| || |tried| == MAX_ATTEMPTS
    ensures FindsObjects(decode, content, found)
  {
    found, tried := [], [];
    var start: Option<nat> := FindBrace(content, 0);
    var attempts := 0;
    while start.Some? && attempts < MAX_ATTEMPTS
      invariant |found| <= attempts == |tried| <= MAX_ATTEMPTS
      invariant start.Some? ==> start.value < |content| && content[start.value] == '{'
      invariant ScanInv(decode, content, tried, found, StopAt(content, start))
      decreases MAX_ATTEMPTS - attempts
    {
      attempts := attempts + 1;
      var at, decoded := start.value, decode(content, start.value);
      start := FindBrace(content, if decoded.Some? then decoded.value.end else at + 1);
      AttemptKeeps(decode, content, tried, found, at, start);
      if decoded.Some? && decoded.value.isObject {
        found := found + [Span(at, decoded.value.end)];
      }
      tried := tried + [at];
    }
    stop := StopAt(content, start);
    ScanFindsObjects(decode, content, tried, found, stop);
  }

  function StopAt(content: string, start: Option<nat>): nat { if start.Some? then start.value else |content| }

  lemma AttemptKeeps(decode: Decoder, content: string, tried: seq<nat>, found: seq<Span>, at: nat, next: Option<nat>)
    requires Advances(decode, content) && at < |content| && content[at] == '{'
    requires ScanInv(decode, content, tried, found, at)
    requires next == FindBrace(content, if decode(content, at).Some? then decode(content, at).value.end else at + 1)
    ensures ScanInv(decode, content, tried + [at], Added(decode, content, found, at), StopAt(content, next))
  {
    FoundMore(decode, content, tried, found, at);
    MissedNoMore(decode, content, tried, at, StopAt(content, next));
  }

  /** What the scan adds to its result for an attempt. */
  function Added(decode: Decoder, content: string, found: seq<Span>, at: nat): seq<Span> {
    var d := decode(content, at);
    if d.Some? && d.value.isObject then found + [Span(at, d.value.end)] else found
  }

  lemma FoundMore(decode: Decoder, content: string, tried: seq<nat>, found: seq<Span>, at: nat)
    requires Advances(decode, content) && at < |content|
    requires FoundFrom(decode, content, tried, found) && TriedBefore(decode, content, tried, at)
    ensures FoundFrom(decode, content, tried + [at], Added(decode, content, found, at))
  {
    EachFound(decode, content, tried, found, at);
    StillDisjoint(decode, content, tried, found, at);
    EachTriedObject(decode, content, tried, found, at);
  }

  lemma EachFound(decode: Decoder, content: string, tried: seq<nat>, found: seq<Span>, at: nat)
    requires Advances(decode, content) && at < |content| && FoundFrom(decode, content, tried, found)
    ensures var now := Added(decode, content, found, at);
            forall k | 0 <= k < |now| :: now[k].start in tried + [at] && IsObjectAt(decode, content, now[k])
  {
    var now := Added(decode, content, found, at);
    forall k | 0 <= k < |now| ensures now[k].start in tried + [at] && IsObjectAt(decode, content, now[k]) {
      if k < |found| { assert now[k] == found[k]; }
    }
  }

  lemma StillDisjoint(decode: Decoder, content: string, tried: seq<nat>, found: seq<Span>, at: nat)
    requires FoundFrom(decode, content, tried, found) && TriedBefore(decode, content, tried, at)
    ensures var now := Added(decode, content, found, at);
            forall k, l | 0 <= k < l < |now| :: now[k].end <= now[l].start
  {
    forall k | 0 <= k < |found| ensures found[k].end <= at {
      assert found[k].start in tried && IsObjectAt(decode, content, found[k]);
      var i :| 0 <= i < |tried| && tried[i] == found[k].start;
    }
  }

  lemma EachTriedObject(decode: Decoder, content: string, tried: seq<nat>, found: seq<Span>, at: nat)
    requires FoundFrom(decode, content, tried, found)
    ensures var now, more := Added(decode, content, found, at), tried + [at];
            forall i | 0 <= i < |more| && decode(content, more[i]).Some? && decode(content, more[i]).value.isObject ::
              Span(more[i], decode(content, more[i]).value.end) in now
  {
    var now, more := Added(decode, content, found, at), tried + [at];
    forall i | 0 <= i < |more| && decode(content, more[i]).Some? && decode(content, more[i]).value.isObject
      ensures Span(more[i], decode(content, more[i]).value.end) in now
    {
      if i < |tried| {
        assert more[i] == tried[i] && Span(tried[i], decode(content, tried[i]).value.end) in found;
      } else {
        assert more[i] == at && now[|found|] == Span(at, decode(content, at).value.end);
      }
    }
  }

  lemma MissedNoMore(decode: Decoder, content: string, tried: seq<nat>, at: nat, reached: nat)
    requires Advances(decode, content) && at < |content| && content[at] == '{'
    requires TriedBefore(decode, content, tried, at) && NoneMissed(decode, content, tried, at)
    requires var d := decode(content, at);
             var next := if d.Some? then d.value.end else at + 1;
             next <= reached <= |content| && forall p | next <= p < reached :: content[p] != '{'
    ensures TriedBefore(decode, content, tried + [at], reached) && NoneMissed(decode, content, tried + [at], reached)
  {
    var more := tried + [at];
    forall p | p in Braces(content) && p < reached && p !in more ensures Covered(decode, content, more, p) {
      if p < at {
        assert Covered(decode, content, tried, p);
        var i :| 0 <= i < |tried| && CoveredBy(decode, content, tried[i], p);
        assert more[i] == tried[i];
      } else {
        assert p != at by { assert more[|tried|] == at; }
        assert CoveredBy(decode, content, more[|tried|], p);
      }
    }
  }

  /** With at most 200 opening braces the scan misses none. */
  lemma NoBraceMissed(decode: Decoder, content: string, tried: seq<nat>, stop: nat)
    requires |Braces(content)| <= MAX_ATTEMPTS && Increasing(tried)
    requires TriedBefore(decode, content, tried, stop) && NoneMissed(decode, content, tried, stop)
    requires stop == |content| || |tried| == MAX_ATTEMPTS
    ensures forall p | p in Braces(content) :: p in tried || Covered(decode, content, tried, p)
  {
    if |tried| == MAX_ATTEMPTS {
      SizeOfIncreasing(tried);
      EqualWhenAsLarge(Positions(tried), Braces(content));
    }
  }

  ghost function Positions(tried: seq<nat>): (ps: set<nat>)
    ensures forall p :: p in ps <==> p in tried
  {
    if tried == [] then {} else Positions(tried[..|tried| - 1]) + {tried[|tried| - 1]}
  }

  lemma {:induction false} SizeOfIncreasing(tried: seq<nat>)
    requires Increasing(tried)
    ensures |Positions(tried)| == |tried|
  {
    if tried != [] {
      var n := |tried| - 1;
      SizeOfIncreasing(tried[..n]);
      assert tried[n] !in tried[..n];
    }
  }

  lemma EqualWhenAsLarge(a: set<nat>, b: set<nat>)
    requires a <= b && |a| >= |b|
    ensures a == b
  {
    assert b == a + (b - a);
    assert |b| == |a| + |b - a|;
  }
}
