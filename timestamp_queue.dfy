/** The queue of falling-edge timestamps that the edge-watcher thread fills
    and the main-thread dispatcher drains: a ring buffer of IRQ_TS_Q_CAP
    32-bit microsecond values that drops its oldest entry when full and
    prints an overflow warning once per run of full pushes.

    The first half of the module gives the queue's meaning on values
    (QueueState, Pushed, Popped) and proves what the source promises about
    it; the class Queue is the ring buffer itself, proved against them. */
module TimestampQueue {
  import opened Common

  /** IRQ_TS_Q_CAP */
  const CAP: nat := 600

  /** The abstract queue: its entries, oldest first, and the static
      overflow_warned flag of tsq_push. */
  datatype QueueState = QueueState(items: seq<u32>, warned: bool)

  const Empty := QueueState([], false)

  predicate WellFormed(s: QueueState) {
    |s.items| <= CAP
  }

  /** Whether a push onto s prints the overflow warning. */
  predicate PushWarns(s: QueueState) {
    |s.items| == CAP && !s.warned
  }

  /** tsq_push on values: a full queue loses its oldest entry first. */
  function Pushed(s: QueueState, us: u32): (t: QueueState)
    requires WellFormed(s)
    ensures WellFormed(t)
  {
    if |s.items| == CAP then QueueState(s.items[1..] + [us], true)
    else QueueState(s.items + [us], false)
  }

  /** The entry tsq_pop hands out: the oldest one, or none. */
  function Front(s: QueueState): Option<u32> {
    if |s.items| == 0 then None else Some(s.items[0])
  }

  /** tsq_pop on values; the overflow flag is not touched by a pop. */
  function Popped(s: QueueState): QueueState {
    if |s.items| == 0 then s else QueueState(s.items[1..], s.warned)
  }

  /** The newest min(|q|, CAP) entries of q, in their original order. */
  function Window(q: seq<u32>): (w: seq<u32>)
    ensures |w| == if |q| <= CAP then |q| else CAP
  {
    if |q| <= CAP then q else q[|q| - CAP..]
  }

  /** Pushing a sequence of timestamps, one after another, with no pops. */
  function PushAll(s: QueueState, xs: seq<u32>): (t: QueueState)
    requires WellFormed(s)
    ensures WellFormed(t)
    decreases |xs|
  {
    if xs == [] then s else PushAll(Pushed(s, xs[0]), xs[1..])
  }

  /** How many overflow warnings those pushes print. */
  function WarningsPrinted(s: QueueState, xs: seq<u32>): nat
    requires WellFormed(s)
    decreases |xs|
  {
    if xs == [] then 0
    else (if PushWarns(s) then 1 else 0) + WarningsPrinted(Pushed(s, xs[0]), xs[1..])
  }

  /** Pushing one more value after a run of pushes. */
  lemma {:induction false} PushAllSnoc(s: QueueState, xs: seq<u32>, us: u32)
    requires WellFormed(s)
    ensures PushAll(s, xs + [us]) == Pushed(PushAll(s, xs), us)
    decreases |xs|
  {
    if xs == [] {
      assert xs + [us] == [us];
      assert [us][1..] == [];
    } else {
      PushAllSnoc(Pushed(s, xs[0]), xs[1..], us);
      assert (xs + [us])[1..] == xs[1..] + [us];
    }
  }

  /** Popping until tsq_pop reports an empty queue: the values handed out. */
  function Drain(s: QueueState): seq<u32>
    decreases |s.items|
  {
    match Front(s)
    case None => []
    case Some(us) => [us] + Drain(Popped(s))
  }

  /** A push on a queue that is not full appends the value at the back and
      keeps every existing entry where it was; a push on a full queue
      evicts exactly the oldest entry, appends the new one and keeps the
      length at CAP. */
  lemma PushedEntries(s: QueueState, us: u32)
    requires WellFormed(s)
    ensures |s.items| < CAP ==>
      |Pushed(s, us).items| == |s.items| + 1 &&
      (forall i :: 0 <= i < |s.items| ==> Pushed(s, us).items[i] == s.items[i]) &&
      Pushed(s, us).items[|s.items|] == us
    ensures |s.items| == CAP ==>
      |Pushed(s, us).items| == CAP &&
      (forall i :: 1 <= i < CAP ==> Pushed(s, us).items[i - 1] == s.items[i]) &&
      Pushed(s, us).items[CAP - 1] == us
  {
  }

  /** Every push leaves the newest CAP of all values ever held. */
  lemma PushedIsWindow(s: QueueState, us: u32)
    requires WellFormed(s)
    ensures Pushed(s, us).items == Window(s.items + [us])
  {
  }

  lemma {:induction false} WindowOfWindow(a: seq<u32>, b: seq<u32>)
    ensures Window(Window(a) + b) == Window(a + b)
  {
    if |a| > CAP {
      var w := a[|a| - CAP..];
      var n := |w + b|;
      assert (w + b)[n - CAP..] == (a + b)[|a + b| - CAP..];
    }
  }

  /** N pushes with no pops leave the last min(N', CAP) values in arrival
      order, where N' also counts what the queue held before. */
  lemma {:induction false} PushAllIsWindow(s: QueueState, xs: seq<u32>)
    requires WellFormed(s)
    ensures PushAll(s, xs).items == Window(s.items + xs)
    decreases |xs|
  {
    if xs == [] {
      assert s.items + xs == s.items;
    } else {
      var t := Pushed(s, xs[0]);
      PushAllIsWindow(t, xs[1..]);
      PushedIsWindow(s, xs[0]);
      WindowOfWindow(s.items + [xs[0]], xs[1..]);
      assert s.items + [xs[0]] + xs[1..] == s.items + xs;
    }
  }

  /** Starting from an empty queue, N pushes leave exactly the last
      min(N, CAP) of them, oldest first. */
  lemma FromEmpty(xs: seq<u32>)
    ensures PushAll(Empty, xs).items == Window(xs)
    ensures |PushAll(Empty, xs).items| == if |xs| <= CAP then |xs| else CAP
  {
    PushAllIsWindow(Empty, xs);
    assert [] + xs == xs;
  }

  /** The warning is printed at most once per run of full pushes: a run of
      pushes prints it exactly once if some push finds the queue full,
      unless the queue was already full and already warned about. */
  lemma {:induction false} WarningsOnce(s: QueueState, xs: seq<u32>)
    requires WellFormed(s)
    ensures WarningsPrinted(s, xs) ==
      if |s.items| + |xs| > CAP && !(|s.items| == CAP && s.warned) then 1 else 0
    decreases |xs|
  {
    if xs != [] {
      WarningsOnce(Pushed(s, xs[0]), xs[1..]);
    }
  }

  /** Pops hand out exactly the queued entries, oldest first. */
  lemma {:induction false} DrainIsFifo(s: QueueState)
    ensures Drain(s) == s.items
    decreases |s.items|
  {
    if |s.items| > 0 {
      DrainIsFifo(Popped(s));
    }
  }

  /** (t + i) % CAP for a slot t and an offset i of at most CAP, without
      the division. */
  function Slot(t: nat, i: nat): (k: nat)
    requires t < CAP && i <= CAP
    ensures k < CAP && k == (t + i) % CAP
  {
    if t + i < CAP then t + i else t + i - CAP
  }

  /** The ring buffer. Entry i of the queue (0 = oldest) lives in
      buf[(tail + i) % CAP]; head is where the next push writes. */
  class Queue {
    var buf: array<u32>
    var head: nat
    var tail: nat
    var count: nat
    /** The static overflow_warned flag of tsq_push. */
    var overflowWarned: bool

    ghost var Items: seq<u32>
    ghost var Repr: set<object>

    ghost predicate Valid()
      reads this, Repr
    {
      && Repr == {this, buf}
      && buf.Length == CAP
      && head < CAP && tail < CAP && count <= CAP
      && head == Slot(tail, count)
      && |Items| == count
      && forall i :: 0 <= i < count ==> Items[i] == buf[Slot(tail, i)]
    }

    ghost function State(): QueueState
      reads this
    {
      QueueState(Items, overflowWarned)
    }

    /** The static initialiser: head = tail = count = 0. */
    constructor ()
      ensures Valid() && fresh(Repr)
      ensures State() == Empty
    {
      buf := new u32[CAP](_ => 0);
      head, tail, count := 0, 0, 0;
      overflowWarned := false;
      Items := [];
      Repr := {this, buf};
    }

    /** tsq_push. `warned` tells whether this push printed the overflow warning. */
    method Push(us: u32) returns (warned: bool)
      requires Valid()
      modifies Repr
      ensures Valid() && Repr == old(Repr)
      ensures State() == Pushed(old(State()), us)
      ensures warned == PushWarns(old(State()))
    {
      if count == CAP {
        warned := !overflowWarned;
        if !overflowWarned {
          overflowWarned := true;
        }
        tail := (tail + 1) % CAP;
        count := count - 1;
        Items := Items[1..];
      } else {
        warned := false;
        overflowWarned := false;
      }
      buf[head] := us;
      head := (head + 1) % CAP;
      count := count + 1;
      Items := Items + [us];
    }

    /** tsq_pop: false on an empty queue, otherwise the oldest entry. */
    method Pop() returns (ok: bool, us: u32)
      requires Valid()
      modifies this
      ensures Valid() && Repr == old(Repr)
      ensures ok == (Front(old(State())) != None)
      ensures ok ==> Front(old(State())) == Some(us)
      ensures State() == Popped(old(State()))
    {
      ok := false;
      us := 0;
      if count > 0 {
        us := buf[tail];
        tail := (tail + 1) % CAP;
        count := count - 1;
        Items := Items[1..];
        ok := true;
      }
    }
  }
}
