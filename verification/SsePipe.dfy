/** Server-sent events with keepalives: `_sse` of backend/app/api/a2a.py and
    `_stream_sse_with_keepalive` of backend/app/api/ai_assistant.py.

    A producer reads the source and puts items for a consumer, which waits for each one with a
    timeout. Both pipes are this machine; they differ in the text of an event and in what a
    failing source puts (`Wire`). A step is what one side does between two awaits.
 */
module SsePipe {
  import opened Options

  datatype Error = A2A(code: int, message: string) | Other(name: string)

  datatype Item = Text(text: string) | Failure(error: Error) | End

  /** How reading the source stopped; `Interrupted` is a cancelled task, which no `except` catches. */
  datatype Ending = Exhausted | Failed(error: Error) | Interrupted

  datatype Output = Sent(text: string) | Keepalive

  datatype Consumer = Running | Finished | Raised(error: Error) | Closed

  datatype Wire<!Event> = Wire(text: Event -> string, failure: Error -> Item)

  /** A failure is an item of its own or one more text, never the end mark. */
  ghost predicate Proper<Event(!new)>(w: Wire<Event>) { forall e :: !w.failure(e).End? }

  /** The chunks are passed on as they are, and a failure is raised. */
  function KeepaliveWire(): Wire<string> { Wire((chunk: string) => chunk, (e: Error) => Failure(e)) }

  const INTERNAL := A2A(-32603, "The stream failed.")

  /** A failure becomes an error event; what is no A2A error is reported as internal. */
  function A2AWire<Event>(result: Event -> string, error: Error -> string): Wire<Event> {
    Wire(result, (e: Error) => Text(error(if e.A2A? then e else INTERNAL)))
  }

  datatype Pipe<Event> = Pipe(
    given: seq<Event>,        // what the source has yielded
    ending: Option<Ending>,   // how it stopped
    closed: bool,             // the end mark is on its way
    posted: seq<Item>,        // handed to the event loop, not yet in the queue
    queue: seq<Item>,
    out: seq<Output>,
    consumer: Consumer)

  function Opened<Event>(): Pipe<Event> { Pipe([], None, false, [], [], [], Running) }

  datatype Action<Event> =
    | Yield(event: Event) | Stop(ending: Ending) | Close   // the producer; Close is its `finally`
    | Deliver                                              // the event loop runs the next callback
    | Take | Timeout | Abandon                             // the consumer; Abandon is a client that left

  predicate Enabled<Event>(p: Pipe<Event>, a: Action<Event>) {
    match a
    case Yield(_) => p.ending == None
    case Stop(_) => p.ending == None
    case Close => p.ending.Some? && !p.closed
    case Deliver => p.posted != []
    case Take => p.consumer.Running? && p.queue != []
    case Timeout => p.consumer.Running?
    case Abandon => p.consumer.Running?
  }

  function Apply<Event>(w: Wire<Event>, p: Pipe<Event>, a: Action<Event>): Pipe<Event>
    requires Enabled(p, a)
  {
    match a
    case Yield(event) => p.(given := p.given + [event], posted := p.posted + [Text(w.text(event))])
    case Stop(ending) =>
      p.(ending := Some(ending), posted := p.posted + if ending.Failed? then [w.failure(ending.error)] else [])
    case Close => p.(closed := true, posted := p.posted + [End])
    case Deliver => p.(posted := p.posted[1..], queue := p.queue + [p.posted[0]])
    case Take =>
      var q := p.(queue := p.queue[1..]);
      (match p.queue[0]
       case End => q.(consumer := Finished)
       case Failure(e) => q.(consumer := Raised(e))
       case Text(text) => q.(out := p.out + [Sent(text)]))
    case Timeout => p.(out := p.out + [Keepalive])
    case Abandon => p.(consumer := Closed)
  }

  ghost predicate Run<Event>(w: Wire<Event>, p: Pipe<Event>, actions: seq<Action<Event>>, end: Pipe<Event>)
    decreases |actions|
  {
    if actions == [] then p == end
    else Enabled(p, actions[0]) && Run(w, Apply(w, p, actions[0]), actions[1..], end)
  }

  function Keepalives(out: seq<Output>): nat {
    if out == [] then 0 else Keepalives(out[..|out| - 1]) + if out[|out| - 1].Keepalive? then 1 else 0
  }

  function Timeouts<Event>(actions: seq<Action<Event>>): nat {
    if actions == [] then 0 else (if actions[0].Timeout? then 1 else 0) + Timeouts(actions[1..])
  }

  /** One keepalive goes out for each time the consumer waited in vain, and no other. */
  lemma {:induction false} KeepaliveForEachTimeout<Event>(w: Wire<Event>, p: Pipe<Event>, actions: seq<Action<Event>>, end: Pipe<Event>)
    requires Run(w, p, actions, end)
    ensures Keepalives(end.out) == Keepalives(p.out) + Timeouts(actions)
    decreases |actions|
  {
    if actions != [] {
      var q := Apply(w, p, actions[0]);
      if q.out != p.out { assert q.out[..|p.out|] == p.out; }
      KeepaliveForEachTimeout(w, q, actions[1..], end);
    }
  }

  // ---------------------------------------------------------------- what is on its way

  /** The output without its keepalives. */
  function Delivered(out: seq<Output>): seq<string> {
    if out == [] then []
    else Delivered(out[..|out| - 1]) + if out[|out| - 1].Sent? then [out[|out| - 1].text] else []
  }

  function Texts<Event>(w: Wire<Event>, given: seq<Event>): (texts: seq<string>)
    ensures |texts| == |given|
  {
    seq(|given|, i requires 0 <= i < |given| => w.text(given[i]))
  }

  function Items(texts: seq<string>): (items: seq<Item>)
    ensures |items| == |texts|
  {
    seq(|texts|, i requires 0 <= i < |texts| => Text(texts[i]))
  }

  /** Every item the source has caused so far, in order. */
  function Script<Event>(w: Wire<Event>, p: Pipe<Event>): seq<Item> {
    Items(Texts(w, p.given))
    + (if p.ending.Some? && p.ending.value.Failed? then [w.failure(p.ending.value.error)] else [])
    + if p.closed then [End] else []
  }

  /** What the consumer has taken out of the queue. */
  function Taken<Event>(p: Pipe<Event>): seq<Item> {
    Items(Delivered(p.out))
    + match p.consumer
      case Finished => [End]
      case Raised(e) => [Failure(e)]
      case _ => []
  }

  /** Nothing is lost, duplicated or reordered. */
  ghost predicate Inv<Event>(w: Wire<Event>, p: Pipe<Event>) {
    && Taken(p) + p.queue + p.posted == Script(w, p)
    && (p.closed ==> p.ending.Some?)
  }

  lemma DeliveredAppend(out: seq<Output>, o: Output)
    ensures Delivered(out + [o]) == Delivered(out) + if o.Sent? then [o.text] else []
  {
    assert (out + [o])[..|out|] == out;
  }

  lemma ItemsAppend(texts: seq<string>, text: string)
    ensures Items(texts + [text]) == Items(texts) + [Text(text)]
  {
  }

  lemma TextsAppend<Event>(w: Wire<Event>, given: seq<Event>, event: Event)
    ensures Texts(w, given + [event]) == Texts(w, given) + [w.text(event)]
  {
  }

  /** The producer's steps add the same item to the script and to what is posted. */
  lemma ProducerStep<Event>(w: Wire<Event>, p: Pipe<Event>, a: Action<Event>)
    requires Inv(w, p) && Enabled(p, a) && (a.Yield? || a.Stop? || a.Close?)
    ensures Inv(w, Apply(w, p, a))
  {
    var q := Apply(w, p, a);
    var item := if a.Yield? then [Text(w.text(a.event))]
                else if a.Close? then [End]
                else if a.ending.Failed? then [w.failure(a.ending.error)] else [];
    assert q.posted == p.posted + item && q.queue == p.queue && Taken(q) == Taken(p);
    assert Script(w, q) == Script(w, p) + item by {
      if a.Yield? {
        TextsAppend(w, p.given, a.event);
        ItemsAppend(Texts(w, p.given), w.text(a.event));
      }
    }
    assert Taken(p) + p.queue + (p.posted + item) == Taken(p) + p.queue + p.posted + item;
  }

  lemma DeliverStep<Event>(w: Wire<Event>, p: Pipe<Event>)
    requires Inv(w, p) && p.posted != []
    ensures Inv(w, Apply(w, p, Deliver))
  {
    var q := Apply(w, p, Deliver);
    assert p.posted == [p.posted[0]] + p.posted[1..];
    assert Taken(q) + q.queue + q.posted == Taken(p) + p.queue + p.posted;
  }

  lemma TakenGrows<Event>(w: Wire<Event>, p: Pipe<Event>)
    requires Enabled(p, Take)
    ensures Taken(Apply(w, p, Take)) == Taken(p) + [p.queue[0]]
  {
    var item := p.queue[0];
    if item.Text? {
      DeliveredAppend(p.out, Sent(item.text));
      ItemsAppend(Delivered(p.out), item.text);
    }
  }

  lemma TakeStep<Event>(w: Wire<Event>, p: Pipe<Event>)
    requires Inv(w, p) && Enabled(p, Take)
    ensures Inv(w, Apply(w, p, Take))
  {
    var q := Apply(w, p, Take);
    TakenGrows(w, p);
    FirstTaken(Taken(p), p.queue, p.posted);
  }

  lemma FirstTaken(taken: seq<Item>, queue: seq<Item>, posted: seq<Item>)
    requires queue != []
    ensures taken + [queue[0]] + queue[1..] + posted == taken + queue + posted
  {
    assert queue == [queue[0]] + queue[1..];
    assert taken + [queue[0]] + queue[1..] == taken + queue;
  }

  lemma StepKeepsInv<Event>(w: Wire<Event>, p: Pipe<Event>, a: Action<Event>)
    requires Inv(w, p) && Enabled(p, a)
    ensures Inv(w, Apply(w, p, a))
  {
    match a
    case Deliver => DeliverStep(w, p);
    case Take => TakeStep(w, p);
    case Timeout =>
      DeliveredAppend(p.out, Keepalive);
      assert Taken(Apply(w, p, a)) == Taken(p);
    case Abandon => assert Taken(Apply(w, p, a)) == Taken(p);
    case _ => ProducerStep(w, p, a);
  }

  lemma {:induction false} RunKeepsInv<Event>(w: Wire<Event>, p: Pipe<Event>, actions: seq<Action<Event>>, end: Pipe<Event>)
    requires Inv(w, p) && Run(w, p, actions, end)
    ensures Inv(w, end)
    decreases |actions|
  {
    if actions != [] {
      StepKeepsInv(w, p, actions[0]);
      RunKeepsInv(w, Apply(w, p, actions[0]), actions[1..], end);
    }
  }

  // ---------------------------------------------------------------- the theorems

  /** The texts a client of this source is due: one for each event, and one for a failure put as text. */
  function Due<Event>(w: Wire<Event>, p: Pipe<Event>): seq<string> {
    Texts(w, p.given)
    + if p.ending.Some? && p.ending.value.Failed? && w.failure(p.ending.value.error).Text?
      then [w.failure(p.ending.value.error).text] else []
  }

  /** Apart from keepalives the client has read a prefix of what it is due; a normal end means all
      of it, with no failure left unsaid; a raised failure is the source's own, after all its texts. */
  ghost predicate Faithful<Event>(w: Wire<Event>, p: Pipe<Event>) {
    && Delivered(p.out) <= Due(w, p)
    && (p.consumer.Finished? ==>
          && p.ending.Some? && p.closed && Delivered(p.out) == Due(w, p)
          && (p.ending.value.Failed? ==> w.failure(p.ending.value.error).Text?))
    && (p.consumer.Raised? ==>
          && p.ending.Some? && p.ending.value.Failed?
          && w.failure(p.ending.value.error) == Failure(p.consumer.error)
          && Delivered(p.out) == Texts(w, p.given))
  }

  /** The item of a failure that is not put as text. */
  function RaisedItem<Event>(w: Wire<Event>, p: Pipe<Event>): seq<Item> {
    if p.ending.Some? && p.ending.value.Failed? && !w.failure(p.ending.value.error).Text?
    then [w.failure(p.ending.value.error)] else []
  }

  lemma ScriptIsDue<Event>(w: Wire<Event>, p: Pipe<Event>)
    ensures Script(w, p) == Items(Due(w, p)) + RaisedItem(w, p) + if p.closed then [End] else []
  {
    if p.ending.Some? && p.ending.value.Failed? && w.failure(p.ending.value.error).Text? {
      ItemsAppend(Texts(w, p.given), w.failure(p.ending.value.error).text);
    }
  }

  /** Texts in front of a script that starts with other texts are a prefix of them. */
  lemma ItemsPrefix(a: seq<string>, b: seq<string>, rest: seq<Item>, tail: seq<Item>)
    requires Items(a) + rest == Items(b) + tail && (tail == [] || !tail[0].Text?)
    ensures a <= b
  {
    var items := Items(a) + rest;
    assert forall i | 0 <= i < |a| :: items[i] == Text(a[i]);
    assert tail != [] ==> items[|b|] == tail[0];
    assert |items| == |b| + |tail|;
    assert |a| <= |b|;
    forall i | 0 <= i < |a|
      ensures a[i] == b[i]
    {
      assert items[i] == Text(a[i]) && items[i] == Text(b[i]);
    }
  }

  /** Two scripts that differ at most after their texts hold the same texts. */
  lemma ItemsSame(a: seq<string>, b: seq<string>, rest: seq<Item>, tail: seq<Item>)
    requires Items(a) + rest == Items(b) + tail
    requires (tail == [] || !tail[0].Text?) && (rest == [] || !rest[0].Text?)
    ensures a == b && rest == tail
  {
    ItemsPrefix(a, b, rest, tail);
    ItemsPrefix(b, a, tail, rest);
    assert (Items(a) + rest)[|a|..] == rest && (Items(b) + tail)[|b|..] == tail;
  }

  /** Whatever the schedule, a stream is faithful to its source. */
  lemma StreamIsPrefix<Event(!new)>(w: Wire<Event>, actions: seq<Action<Event>>, p: Pipe<Event>)
    requires Proper(w) && Run(w, Opened(), actions, p)
    ensures Faithful(w, p)
  {
    assert Inv(w, Opened<Event>());
    RunKeepsInv(w, Opened(), actions, p);
    InvMeansPrefix(w, p);
  }

  /** The two sides of the invariant with the texts in front. */
  lemma InvSplit<Event(!new)>(w: Wire<Event>, p: Pipe<Event>) returns (last: seq<Item>, rest: seq<Item>, tail: seq<Item>)
    requires Proper(w) && Inv(w, p)
    ensures Items(Delivered(p.out)) + (last + rest) == Items(Due(w, p)) + tail
    ensures tail == [] || !tail[0].Text?
    ensures tail == RaisedItem(w, p) + if p.closed then [End] else []
    ensures p.consumer.Finished? ==> last == [End]
    ensures p.consumer.Raised? ==> last == [Failure(p.consumer.error)]
  {
    ScriptIsDue(w, p);
    last := match p.consumer
      case Finished => [End]
      case Raised(e) => [Failure(e)]
      case _ => [];
    rest := p.queue + p.posted;
    tail := RaisedItem(w, p) + if p.closed then [End] else [];
    assert Items(Delivered(p.out)) + (last + rest) == Taken(p) + p.queue + p.posted;
    assert Items(Due(w, p)) + tail == Script(w, p);
  }

  lemma InvMeansPrefix<Event(!new)>(w: Wire<Event>, p: Pipe<Event>)
    requires Proper(w) && Inv(w, p)
    ensures Faithful(w, p)
  {
    var last, rest, tail := InvSplit(w, p);
    ItemsPrefix(Delivered(p.out), Due(w, p), last + rest, tail);
    if p.consumer.Finished? || p.consumer.Raised? {
      ItemsSame(Delivered(p.out), Due(w, p), last + rest, tail);
      assert tail[0] == last[0];
    }
  }

  /** `_stream_sse_with_keepalive`: the output is the source's own chunks; when it ends normally
      they are all there and none failed, and when it raises they are all there first. */
  lemma KeepaliveStream(actions: seq<Action<string>>, p: Pipe<string>)
    requires Run(KeepaliveWire(), Opened(), actions, p)
    ensures Delivered(p.out) <= p.given
    ensures p.consumer.Finished? ==> p.given == Delivered(p.out) && (p.ending == Some(Exhausted) || p.ending == Some(Interrupted))
    ensures p.consumer.Finished? ==> (p.ending == Some(Exhausted) <==> p.ending != Some(Interrupted))
    ensures p.consumer.Raised? ==> p.given == Delivered(p.out) && p.ending == Some(Failed(p.consumer.error))
  {
    var w := KeepaliveWire();
    StreamIsPrefix(w, actions, p);
    assert Texts(w, p.given) == p.given;
    assert Due(w, p) == p.given;
  }

  /** A source that is cancelled ends the stream normally too, after any chunks it has yielded. */
  lemma InterruptedEndsNormally(p: Pipe<string>) returns (actions: seq<Action<string>>, end: Pipe<string>)
    requires p.ending.None? && !p.closed && p.consumer.Running? && p.posted == [] && p.queue == []
    ensures Run(KeepaliveWire(), p, actions, end)
    ensures end.consumer.Finished? && end.ending == Some(Interrupted) && end.given == p.given && end.out == p.out
  {
    var w := KeepaliveWire();
    var p1 := Apply(w, p, Stop(Interrupted));
    var p2 := Apply(w, p1, Close);
    var p3 := Apply(w, p2, Deliver);
    end := Apply(w, p3, Take);
    StepThen(w, p3, Take, [], end);
    StepThen(w, p2, Deliver, [Take] + [], end);
    StepThen(w, p1, Close, [Deliver] + ([Take] + []), end);
    StepThen(w, p, Stop(Interrupted), [Close] + ([Deliver] + ([Take] + [])), end);
    actions := [Stop(Interrupted)] + ([Close] + ([Deliver] + ([Take] + [])));
  }

  lemma StepThen<Event>(w: Wire<Event>, p: Pipe<Event>, a: Action<Event>, actions: seq<Action<Event>>, end: Pipe<Event>)
    requires Enabled(p, a) && Run(w, Apply(w, p, a), actions, end)
    ensures Run(w, p, [a] + actions, end)
  {
    assert ([a] + actions)[1..] == actions;
  }

  /** One run and then another. */
  lemma {:induction false} ThenRun<Event>(w: Wire<Event>, p: Pipe<Event>, first: seq<Action<Event>>, mid: Pipe<Event>,
                                          second: seq<Action<Event>>, end: Pipe<Event>)
    requires Run(w, p, first, mid) && Run(w, mid, second, end)
    ensures Run(w, p, first + second, end)
    decreases |first|
  {
    if first == [] {
      assert first + second == second;
    } else {
      ThenRun(w, Apply(w, p, first[0]), first[1..], mid, second, end);
      assert (first + second)[1..] == first[1..] + second;
    }
  }

  /** `_sse`: one text for every event, then at most one error text, then nothing; it never raises. */
  lemma A2AStream<Event(!new)>(result: Event -> string, error: Error -> string, actions: seq<Action<Event>>, p: Pipe<Event>)
    requires Run(A2AWire(result, error), Opened(), actions, p)
    ensures !p.consumer.Raised?
    ensures var texts := seq(|p.given|, i requires 0 <= i < |p.given| => result(p.given[i]));
      var failure := if p.ending.Some? && p.ending.value.Failed?
                     then [error(if p.ending.value.error.A2A? then p.ending.value.error else INTERNAL)] else [];
      && Delivered(p.out) <= texts + failure
      && (p.consumer.Finished? ==> Delivered(p.out) == texts + failure)
  {
    var w := A2AWire(result, error);
    StreamIsPrefix(w, actions, p);
    assert Texts(w, p.given) == seq(|p.given|, i requires 0 <= i < |p.given| => result(p.given[i]));
  }

  /** Once the consumer has stopped, the client is sent nothing more. */
  lemma {:induction false} StoppedIsSilent<Event>(w: Wire<Event>, p: Pipe<Event>, actions: seq<Action<Event>>, end: Pipe<Event>)
    requires !p.consumer.Running? && Run(w, p, actions, end)
    ensures end.out == p.out && end.consumer == p.consumer
    decreases |actions|
  {
    if actions != [] { StoppedIsSilent(w, Apply(w, p, actions[0]), actions[1..], end); }
  }

  /** Moves that are still owed once the source has stopped: each item is delivered and taken. */
  function Owed<Event>(p: Pipe<Event>): nat {
    (if p.closed then 0 else 3) + 2 * |p.posted| + |p.queue|
  }

  predicate Moves<Event>(a: Action<Event>) { a.Close? || a.Deliver? || a.Take? }

  /** A consumer that waits on a source that has stopped is never stuck, and every move but a
      timeout brings its end closer. */
  lemma WaitingConsumerMoves<Event(!new)>(w: Wire<Event>, p: Pipe<Event>)
    requires Proper(w) && Inv(w, p) && p.consumer.Running? && p.ending.Some?
    ensures Enabled(p, Close) || Enabled(p, Deliver) || Enabled(p, Take)
    ensures forall a :: Enabled(p, a) && Moves(a) ==> Owed(Apply(w, p, a)) < Owed(p)
  {
    var items := Items(Delivered(p.out));
    assert p.posted == [] && p.queue == [] ==> Taken(p) + p.queue + p.posted == items;
    assert p.closed ==> Script(w, p) != [] && Script(w, p)[|Script(w, p)| - 1] == End;
    assert forall i | 0 <= i < |items| :: items[i].Text?;
  }
}
