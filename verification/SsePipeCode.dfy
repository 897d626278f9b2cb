/** The two pipes' code on mutable fields: one method for each stretch between two awaits, each
    shown to be steps of the machine in `SsePipe`.
 */
module SsePipeCode {
  import opened Options
  import opened SsePipe

  /** What a put does to the queue when there is no event loop in between. */
  function Flushed<Event>(p: Pipe<Event>): Pipe<Event> { p.(queue := p.queue + p.posted, posted := []) }

  function Settled<Event>(direct: bool, p: Pipe<Event>): Pipe<Event> { if direct then Flushed(p) else p }

  /** A direct put is a delivery of everything posted. */
  lemma {:induction false} FlushedIsDelivered<Event>(w: Wire<Event>, p: Pipe<Event>)
    ensures Run(w, p, seq(|p.posted|, _ => Deliver), Flushed(p))
    decreases |p.posted|
  {
    var deliveries: seq<Action<Event>> := seq(|p.posted|, _ => Deliver);
    if p.posted == [] {
      assert Flushed(p) == p;
    } else {
      var q := Apply(w, p, Deliver);
      FlushedIsDelivered(w, q);
      assert deliveries[1..] == seq(|q.posted|, _ => Deliver);
      assert Flushed(q) == Flushed(p) by { assert [p.posted[0]] + p.posted[1..] == p.posted; }
    }
  }

  /** The step and, for a direct put, the delivery of what it posted. */
  function StepsOf<Event>(w: Wire<Event>, direct: bool, p: Pipe<Event>, a: Action<Event>): seq<Action<Event>>
    requires Enabled(p, a)
  {
    [a] + if direct then seq(|Apply(w, p, a).posted|, _ => Deliver) else []
  }

  lemma StepsAreRun<Event>(w: Wire<Event>, direct: bool, taken: seq<Action<Event>>, p: Pipe<Event>, a: Action<Event>)
    requires Run(w, Opened(), taken, p) && Enabled(p, a)
    ensures Run(w, Opened(), taken + StepsOf(w, direct, p, a), Settled(direct, Apply(w, p, a)))
  {
    var next := Apply(w, p, a);
    var last: seq<Action<Event>> := if direct then seq(|next.posted|, _ => Deliver) else [];
    if direct { FlushedIsDelivered(w, next); }
    StepThen(w, p, a, last, Settled(direct, next));
    ThenRun(w, Opened(), taken, p, [a] + last, Settled(direct, next));
  }

  class Stream<Event(!new)> {
    const wire: Wire<Event>
    const direct: bool  // `_sse` puts into the queue itself, the thread goes through its event loop
    ghost var given: seq<Event>
    ghost var ending: Option<Ending>
    ghost var closed: bool
    ghost var taken: seq<Action<Event>>
    var posted: seq<Item>
    var queue: seq<Item>
    var out: seq<Output>
    var consumer: Consumer

    ghost function Current(): Pipe<Event>
      reads this
    {
      Pipe(given, ending, closed, posted, queue, out, consumer)
    }

    /** A stream is a run of the machine. */
    ghost predicate Valid()
      reads this
    {
      Proper(wire) && (direct ==> posted == []) && Run(wire, Opened(), taken, Current())
    }

    ghost predicate Can(a: Action<Event>)
      reads this
    {
      Valid() && Enabled(Current(), a)
    }

    constructor (wire: Wire<Event>, direct: bool)
      requires Proper(wire)
      ensures Valid() && Current() == Opened() && this.wire == wire && this.direct == direct
    {
      this.wire, this.direct := wire, direct;
      given, ending, closed, posted, queue, out, consumer := [], None, false, [], [], [], Running;
      taken := [];
    }

    ghost method Take(a: Action<Event>, directly: bool, was: Pipe<Event>)
      requires Proper(wire) && (direct ==> posted == [])
      requires Run(wire, Opened(), taken, was) && Enabled(was, a) && Current() == Settled(directly, Apply(wire, was, a))
      modifies this`taken
      ensures Valid()
    {
      StepsAreRun(wire, directly, taken, was, a);
      taken := taken + StepsOf(wire, directly, was, a);
    }

    method Put(item: Item)
      requires direct ==> posted == []
      modifies this`posted, this`queue
      ensures posted == if direct then [] else old(posted) + [item]
      ensures queue == if direct then old(queue) + [item] else old(queue)
    {
      if direct {
        queue := queue + [item];
      } else {
        posted := posted + [item];
      }
    }

    /** One round of `async for` over the source: the client is due its text next. */
    method Pump(event: Event)
      requires Can(Yield(event))
      modifies this
      ensures Valid() && Current() == Settled(direct, Apply(wire, old(Current()), Yield(event)))
      ensures Due(wire, Current()) == Due(wire, old(Current())) + [wire.text(event)]
    {
      ghost var was := Current();
      TextsAppend(wire, given, event);
      Put(Text(wire.text(event)));
      given := given + [event];
      Take(Yield(event), direct, was);
    }

    /** The source stopped: the `except` clauses. A failure that is put as text is due next. */
    method PumpStops(how: Ending)
      requires Can(Stop(how))
      modifies this
      ensures Valid() && Current() == Settled(direct, Apply(wire, old(Current()), Stop(how)))
      ensures Due(wire, Current()) == Due(wire, old(Current()))
           + if how.Failed? && wire.failure(how.error).Text? then [wire.failure(how.error).text] else []
    {
      ghost var was := Current();
      if how.Failed? {
        Put(wire.failure(how.error));
      }
      ending := Some(how);
      Take(Stop(how), direct, was);
    }

    /** The `finally` clause: nothing more is due, and the end is in sight. */
    method PumpCloses()
      requires Can(Close)
      modifies this
      ensures Valid() && Current() == Settled(direct, Apply(wire, old(Current()), Close))
      ensures Due(wire, Current()) == Due(wire, old(Current())) && Owed(Current()) < Owed(old(Current()))
    {
      ghost var was := Current();
      Put(End);
      closed := true;
      Take(Close, direct, was);
    }

    /** The event loop runs the oldest callback of the thread: nothing is lost or overtaken on the
        way into the queue. */
    method RunCallback()
      requires Can(Deliver)
      modifies this
      ensures Valid() && Current() == Apply(wire, old(Current()), Deliver)
      ensures queue + posted == old(queue + posted) && |posted| + 1 == |old(posted)|
      ensures Owed(Current()) < Owed(old(Current()))
    {
      ghost var was := Current();
      queue := queue + [posted[0]];
      posted := posted[1..];
      assert was.queue + was.posted == queue + posted by { assert was.posted == [was.posted[0]] + posted; }
      Take(Deliver, false, was);
    }

    /** One round of the consumer's loop; `arrived` when the wait ended before its timeout. What
        the client has been sent is faithful to the source, above all when the loop ends. */
    method Round(arrived: bool) returns (again: bool)
      requires Can(if arrived then Action.Take else Timeout)
      modifies this
      ensures Valid() && Current() == Apply(wire, old(Current()), if arrived then Action.Take else Timeout)
      ensures (again <==> consumer.Running?) && Faithful(wire, Current())
    {
      ghost var was := Current();
      if !arrived {
        out := out + [Keepalive];
        again := true;
      } else {
        again := Consume();
      }
      Take(if arrived then Action.Take else Timeout, false, was);
      StreamIsPrefix(wire, taken, Current());
    }

    /** What the loop does with an item. */
    method Consume() returns (again: bool)
      requires queue != [] && consumer.Running?
      modifies this`queue, this`out, this`consumer
      ensures Current() == Apply(wire, old(Current()), Action.Take) && (again <==> consumer.Running?)
    {
      var item := queue[0];
      queue := queue[1..];
      match item
      case End =>
        consumer := Finished;
        return false;
      case Failure(e) =>
        consumer := Raised(e);
        return false;
      case Text(text) =>
        out := out + [Sent(text)];
        return true;
    }
  }
}
