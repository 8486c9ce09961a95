/**
  The testimonial carousel: an index that a five-second interval advances
  modulo the number of testimonials, and a row of dots that jump to an index.
 */
module TestimonialCarousel {

  /** The number of testimonials on the page. */
  const TestimonialCount: nat := 3

  /** `useState(0)` */
  const InitialIndex: nat := 0

  /** One interval tick: `(prev + 1) % testimonials.length`. */
  function Tick(current: nat, count: nat): (r: nat)
    requires count > 0
    ensures r < count
    ensures current + 1 < count ==> r == current + 1
    ensures current + 1 == count ==> r == 0
  {
    (current + 1) % count
  }

  /** `k` ticks in a row. */
  function Ticks(current: nat, count: nat, k: nat): nat
    requires count > 0
    decreases k
  {
    if k == 0 then current else Ticks(Tick(current, count), count, k - 1)
  }

  /** Ticks compose: `a` ticks then `b` ticks are `a + b` ticks. */
  lemma {:induction false} TicksCompose(current: nat, count: nat, a: nat, b: nat)
    requires count > 0
    ensures Ticks(Ticks(current, count, a), count, b) == Ticks(current, count, a + b)
    decreases a
  {
    if a > 0 {
      TicksCompose(Tick(current, count), count, a - 1, b);
    }
  }

  /** Before the end of the list, `k` ticks move forward by exactly `k`. */
  lemma {:induction false} TicksForward(current: nat, count: nat, k: nat)
    requires count > 0 && current + k < count
    ensures Ticks(current, count, k) == current + k
    decreases k
  {
    if k > 0 {
      TicksForward(current + 1, count, k - 1);
    }
  }

  /** From any index, the ticks up to the end of the list wrap around to the first testimonial. */
  lemma WrapToFirst(current: nat, count: nat)
    requires current < count
    ensures Ticks(current, count, count - current) == 0
  {
    var k := count - current - 1;
    TicksForward(current, count, k);
    TicksCompose(current, count, k, 1);
    assert Ticks(count - 1, count, 1) == Ticks(Tick(count - 1, count), count, 0);
  }

  /** After as many ticks as there are testimonials the carousel is back where it started. */
  lemma FullCycle(current: nat, count: nat)
    requires current < count
    ensures Ticks(current, count, count) == current
  {
    WrapToFirst(current, count);
    TicksCompose(current, count, count - current, current);
    TicksForward(0, count, current);
  }

  /** The carousel is periodic: `k + count` ticks land where `k` ticks do. */
  lemma Periodic(current: nat, count: nat, k: nat)
    requires current < count
    ensures Ticks(current, count, k + count) == Ticks(current, count, k)
  {
    FullCycle(current, count);
    TicksCompose(current, count, count, k);
  }

  /** Clicking dot `i` shows testimonial `i`. */
  function SelectDot(i: nat, count: nat): (r: nat)
    requires i < count
    ensures r == i && r < count
  {
    i
  }

  /** The dot at `i` is the wide, highlighted one. */
  predicate DotHighlighted(current: nat, i: nat)
  {
    i == current
  }

  /** With the index in range, exactly one dot is highlighted: the current one. */
  lemma ExactlyOneDot(current: nat, count: nat)
    requires current < count
    ensures (set i: nat | i < count && DotHighlighted(current, i)) == {current}
  {
  }

  datatype Event = IntervalTick | DotClicked(index: nat)

  function Run(current: nat, count: nat, events: seq<Event>): nat
    requires count > 0
    decreases |events|
  {
    if |events| == 0 then current
    else
      var next := match events[0]
        case IntervalTick => Tick(current, count)
        case DotClicked(i) => if i < count then SelectDot(i, count) else current;
      Run(next, count, events[1..])
  }

  /** From index 0, ticks and clicks on rendered dots never leave the range of testimonials. */
  lemma {:induction false} RunInRange(current: nat, count: nat, events: seq<Event>)
    requires count > 0 && current < count
    ensures Run(current, count, events) < count
    decreases |events|
  {
    if |events| > 0 {
      var next := match events[0]
        case IntervalTick => Tick(current, count)
        case DotClicked(i) => if i < count then SelectDot(i, count) else current;
      RunInRange(next, count, events[1..]);
    }
  }

  lemma PageCarousel(events: seq<Event>)
    ensures Run(InitialIndex, TestimonialCount, events) < TestimonialCount
    ensures Tick(TestimonialCount - 1, TestimonialCount) == 0
  {
    RunInRange(InitialIndex, TestimonialCount, events);
  }
}
