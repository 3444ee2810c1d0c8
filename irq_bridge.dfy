/** The interrupt-to-main-loop bridge of interrupt.c: the GPIO resources,
    the worker thread's producer steps (push timestamps, raise the pending
    flag), the main-thread dispatcher irq_async_cb that drains the queue
    and services each burst until the line deasserts, the burst getters
    and the guarded teardown.

    The worker thread and the main thread are modelled as a sequential
    interleaving of their steps: every method of Bridge is one step of one
    of them. The level of the interrupt line is an oracle: `lineValue(k)`
    is what the k-th call of gpiod_line_request_get_value returns (a
    negative value is a read error, 0 is the active-low "asserted" level). */
module IrqBridge {
  import opened Common
  import TimestampQueue

  /** The safety cap of the burst loop in irq_async_cb. */
  const BURST_CAP: nat := 20000

  // ---------------------------------------------------------------------
  // Clock and edge timestamps

  /** monotonic_now_us32: seconds and nanoseconds of CLOCK_MONOTONIC folded
      into microseconds in uint64_t arithmetic, then cut to uint32_t; 0 when
      clock_gettime fails. */
  function MonotonicNowUs32(clockOk: bool, sec: nat, nsec: nat): (us: u32)
    ensures !clockOk ==> us == 0
    ensures clockOk ==> us == (sec * 1000000 + nsec / 1000) % TWO_32
  {
    if !clockOk then 0
    else
      var us64 := ((sec * 1000000) % TWO_64 + nsec / 1000) % TWO_64;
      Wrap64Then32(sec * 1000000, nsec / 1000);
      TruncU32(us64)
  }

  lemma {:induction false} Wrap64Then32(a: nat, b: nat)
    ensures ((a % TWO_64 + b) % TWO_64) % TWO_32 == (a + b) % TWO_32
  {
    ModWiden(a % TWO_64 + b);
    var q := a / TWO_64;
    assert a + b == (q * TWO_32) * TWO_32 + (a % TWO_64 + b);
    ModAddMultiple(a % TWO_64 + b, q * TWO_32);
  }

  /** One edge event as libgpiod reports it. */
  datatype EdgeEvent = EdgeEvent(falling: bool, timestampNs: nat)

  /** drain_edge_events pushes timestamp_ns / 1000, passed as uint32_t. */
  function EdgeTimestampUs(ns: nat): u32 {
    TruncU32(ns / 1000)
  }

  /** An edge stamped by the monotonic clock carries the same microsecond
      value the worker would read from monotonic_now_us32 at that instant. */
  lemma EdgeAgreesWithClock(sec: nat, nsec: nat)
    requires nsec < 1000000000
    ensures EdgeTimestampUs(sec * 1000000000 + nsec) == MonotonicNowUs32(true, sec, nsec)
  {
    assert sec * 1000000000 + nsec == (sec * 1000000) * 1000 + nsec;
    DivAddMultiple(sec * 1000000, nsec);
  }

  lemma {:induction false} DivAddMultiple(k: nat, r: nat)
    ensures (k * 1000 + r) / 1000 == k + r / 1000
  {
    var a := r / 1000;
    var b := r % 1000;
    assert r == a * 1000 + b;
    assert k * 1000 + r == (k + a) * 1000 + b;
  }

  /** The timestamps one drain pass pushes: one per falling edge, in order. */
  function FallingTimestamps(edges: seq<EdgeEvent>): (ts: seq<u32>)
    ensures |ts| <= |edges|
    ensures (forall i :: 0 <= i < |edges| ==> edges[i].falling) ==>
      |ts| == |edges| && forall i :: 0 <= i < |edges| ==> ts[i] == EdgeTimestampUs(edges[i].timestampNs)
    ensures (forall i :: 0 <= i < |edges| ==> !edges[i].falling) ==> ts == []
    ensures forall t :: t in ts ==>
      exists i :: 0 <= i < |edges| && edges[i].falling && t == EdgeTimestampUs(edges[i].timestampNs)
  {
    if edges == [] then []
    else
      var last := edges[|edges| - 1];
      FallingTimestamps(edges[..|edges| - 1]) +
        (if last.falling then [EdgeTimestampUs(last.timestampNs)] else [])
  }

  // ---------------------------------------------------------------------
  // Level reads and the burst loop

  /** irq_line_active for one read result: asserted (active-low) iff the
      line is requested and the read returned 0; no request or a read
      error counts as deasserted. */
  predicate LineActive(requested: bool, value: int) {
    requested && value == 0
  }

  /** The case table of irq_line_active, written out as documentation of
      LineActive: no request, a read error and a high level are all
      inactive, and only a requested line read low is active. */
  lemma LineActiveCases(requested: bool, value: int)
    ensures !requested ==> !LineActive(requested, value)
    ensures value < 0 ==> !LineActive(requested, value)
    ensures value > 0 ==> !LineActive(requested, value)
    ensures requested && value == 0 ==> LineActive(requested, value)
  {
  }

  /** How many level reads in a row, starting with read number `from` and
      taking at most `budget` of them, report the line asserted. */
  function AssertedRun(requested: bool, lineValue: nat -> int, from: nat, budget: nat): (k: nat)
    ensures k <= budget
    ensures forall j :: from <= j < from + k ==> LineActive(requested, lineValue(j))
    ensures k < budget ==> !LineActive(requested, lineValue(from + k))
    decreases budget
  {
    if budget == 0 || !LineActive(requested, lineValue(from)) then 0
    else 1 + AssertedRun(requested, lineValue, from + 1, budget - 1)
  }

  /** How often the do-while loop of irq_async_cb calls the service
      callback for one burst whose first level read is read number r0:
      once, and once more for every asserted read, at most BURST_CAP times. */
  function BurstCalls(requested: bool, lineValue: nat -> int, r0: nat): (n: nat)
    ensures 1 <= n <= BURST_CAP
  {
    1 + AssertedRun(requested, lineValue, r0, BURST_CAP - 1)
  }

  /** How many level reads that loop makes: one after every call except
      the BURST_CAP-th, where `--cap > 0` fails first. */
  function BurstReads(requested: bool, lineValue: nat -> int, r0: nat): (m: nat)
    ensures m < BURST_CAP
  {
    var k := AssertedRun(requested, lineValue, r0, BURST_CAP - 1);
    if k < BURST_CAP - 1 then k + 1 else k
  }

  /** The loop stops at the first read that reports deasserted, and only
      there or at the cap: every read before the last call was asserted,
      and the read after the last call (if any) was not. */
  lemma BurstStopsAtFirstDeassert(requested: bool, lineValue: nat -> int, r0: nat)
    ensures var n := BurstCalls(requested, lineValue, r0);
      && (forall j :: r0 <= j < r0 + n - 1 ==> LineActive(requested, lineValue(j)))
      && (n < BURST_CAP ==> !LineActive(requested, lineValue(r0 + n - 1)))
      && BurstReads(requested, lineValue, r0) == (if n < BURST_CAP then n else n - 1)
  {
  }

  /** k asserted reads followed by a deasserted one give exactly 1 + k
      calls: 5 asserted reads, then deasserted, give 6 calls. */
  lemma BurstOfAssertedReads(requested: bool, lineValue: nat -> int, r0: nat, k: nat)
    requires k < BURST_CAP - 1
    requires forall j :: r0 <= j < r0 + k ==> LineActive(requested, lineValue(j))
    requires !LineActive(requested, lineValue(r0 + k))
    ensures BurstCalls(requested, lineValue, r0) == k + 1
    ensures BurstReads(requested, lineValue, r0) == k + 1
  {
  }

  /** A line stuck low is serviced exactly BURST_CAP times, then the loop
      gives up. */
  lemma StuckLowHitsCap(lineValue: nat -> int, r0: nat)
    requires forall j :: r0 <= j ==> lineValue(j) == 0
    ensures BurstCalls(true, lineValue, r0) == BURST_CAP
    ensures BurstReads(true, lineValue, r0) == BURST_CAP - 1
  {
  }

  function Repeat<T>(x: T, n: nat): (r: seq<T>)
    ensures |r| == n && forall i :: 0 <= i < n ==> r[i] == x
  {
    if n == 0 then [] else Repeat(x, n - 1) + [x]
  }

  /** What a run of irq_async_cb does for a queue content `items`: what the
      service callback sees from irq_current_burst at each of its calls,
      and the read counter afterwards. */
  datatype DispatchOutcome = DispatchOutcome(seen: seq<Option<u32>>, levelReads: nat)

  function Dispatch(items: seq<u32>, hasCallback: bool, requested: bool,
                    lineValue: nat -> int, r0: nat): (d: DispatchOutcome)
    decreases |items|
  {
    if items == [] then DispatchOutcome([], r0)
    else
      var calls := if hasCallback then BurstCalls(requested, lineValue, r0) else 0;
      var used := if hasCallback then BurstReads(requested, lineValue, r0) else 0;
      var rest := Dispatch(items[1..], hasCallback, requested, lineValue, r0 + used);
      DispatchOutcome(Repeat(Some(items[0]), calls) + rest.seen, rest.levelReads)
  }

  /** With a callback registered every popped timestamp is serviced at
      least once and at most BURST_CAP times, and the callback always sees
      an active burst; without one nothing is called and the line is not
      read. */
  lemma {:induction false} DispatchBounds(items: seq<u32>, hasCallback: bool, requested: bool,
                                          lineValue: nat -> int, r0: nat)
    ensures var d := Dispatch(items, hasCallback, requested, lineValue, r0);
      && (hasCallback ==> |items| <= |d.seen| <= BURST_CAP * |items|)
      && (!hasCallback ==> d.seen == [] && d.levelReads == r0)
      && (forall i :: 0 <= i < |d.seen| ==> d.seen[i].Some? && d.seen[i].value in items)
    decreases |items|
  {
    if items != [] {
      var calls := if hasCallback then BurstCalls(requested, lineValue, r0) else 0;
      var used := if hasCallback then BurstReads(requested, lineValue, r0) else 0;
      DispatchBounds(items[1..], hasCallback, requested, lineValue, r0 + used);
      var rest := Dispatch(items[1..], hasCallback, requested, lineValue, r0 + used);
      var d := Dispatch(items, hasCallback, requested, lineValue, r0);
      assert d.seen == Repeat(Some(items[0]), calls) + rest.seen;
      forall i | 0 <= i < |d.seen|
        ensures d.seen[i].Some? && d.seen[i].value in items
      {
        if i >= calls {
          assert d.seen[i] == rest.seen[i - calls];
          assert rest.seen[i - calls].value in items[1..];
        }
      }
    }
  }

  /** How often each popped timestamp is serviced, in queue order: one
      burst per timestamp when a callback is registered, none without. */
  function CallCounts(items: seq<u32>, hasCallback: bool, requested: bool,
                      lineValue: nat -> int, r0: nat): (counts: seq<nat>)
    ensures |counts| == |items|
    ensures forall i :: 0 <= i < |counts| ==>
      if hasCallback then 1 <= counts[i] <= BURST_CAP else counts[i] == 0
    decreases |items|
  {
    if items == [] then []
    else
      var used := if hasCallback then BurstReads(requested, lineValue, r0) else 0;
      [if hasCallback then BurstCalls(requested, lineValue, r0) else 0] +
        CallCounts(items[1..], hasCallback, requested, lineValue, r0 + used)
  }

  /** A sequence of calls made of one block per timestamp: counts[i]
      consecutive calls, each seeing items[i]. */
  function Blocks(items: seq<u32>, counts: seq<nat>): (s: seq<Option<u32>>)
    requires |counts| == |items|
    decreases |items|
  {
    if items == [] then [] else Repeat(Some(items[0]), counts[0]) + Blocks(items[1..], counts[1..])
  }

  /** The callback's calls fall into one block per popped timestamp, in
      queue order: the calls for one timestamp all come before those of
      the next, and there are CallCounts of them. */
  lemma {:induction false} DispatchIsBlocks(items: seq<u32>, hasCallback: bool, requested: bool,
                                            lineValue: nat -> int, r0: nat)
    ensures Dispatch(items, hasCallback, requested, lineValue, r0).seen ==
            Blocks(items, CallCounts(items, hasCallback, requested, lineValue, r0))
    decreases |items|
  {
    if items != [] {
      var used := if hasCallback then BurstReads(requested, lineValue, r0) else 0;
      DispatchIsBlocks(items[1..], hasCallback, requested, lineValue, r0 + used);
    }
  }

  // ---------------------------------------------------------------------
  // GPIO resources and teardown

  /** The fields of ints_s: descriptors, and whether chip, line request and
      edge-event buffer are held (non-NULL). */
  datatype Gpio = Gpio(fd: int, stopEfd: int, chip: bool, req: bool, evbuf: bool, offset: nat)

  const Unset := Gpio(-1, -1, false, false, false, 0)

  datatype Resource = StopEventFd | EdgeEventBuffer | LineRequest | Chip

  /** What teardown_interrupts releases, in its order: each resource only
      if it is held. */
  function Released(g: Gpio): (rs: seq<Resource>)
    ensures StopEventFd in rs <==> g.stopEfd >= 0
    ensures EdgeEventBuffer in rs <==> g.evbuf
    ensures LineRequest in rs <==> g.req
    ensures Chip in rs <==> g.chip
  {
    (if g.stopEfd >= 0 then [StopEventFd] else []) +
    (if g.evbuf then [EdgeEventBuffer] else []) +
    (if g.req then [LineRequest] else []) +
    (if g.chip then [Chip] else [])
  }

  /** ints_s after teardown_interrupts; fd and offset are left as they were. */
  function TornDown(g: Gpio): (t: Gpio)
    ensures t.stopEfd < 0 && !t.evbuf && !t.req && !t.chip
    ensures t.fd == g.fd && t.offset == g.offset
    ensures Released(t) == []
  {
    Gpio(g.fd, if g.stopEfd >= 0 then -1 else g.stopEfd, false, false, false, g.offset)
  }

  /** A second teardown releases nothing and changes nothing. */
  lemma TeardownTwice(g: Gpio)
    ensures TornDown(TornDown(g)) == TornDown(g)
    ensures Released(TornDown(g)) == []
  {
  }

  /** The path setup_interrupts opens: a name without '/' is taken to be
      a bare chip name under /dev/, cut to the 63 characters the 64-byte
      buffer holds; any other name is used as it is. */
  function ChipPath(name: string): (path: string)
    ensures '/' in name ==> path == name
    ensures '/' !in name ==> path <= "/dev/" + name && |path| == Min(5 + |name|, 63)
  {
    if '/' in name then name
    else
      var full := "/dev/" + name;
      if |full| <= 63 then full else full[..63]
  }

  function Min(a: int, b: int): int {
    if a <= b then a else b
  }

  /** What the library calls inside setup_interrupts return: whether the
      chip opened, each configuration object was created, the line
      settings were added and the line was requested, the descriptor of
      the request, whether the edge-event buffer was created, and the
      descriptor eventfd returned. */
  datatype SetupResults = SetupResults(
    chipOk: bool, settingsOk: bool, lineCfgOk: bool, addOk: bool, reqCfgOk: bool,
    reqOk: bool, fd: int, evbufOk: bool, efd: int)

  /** Whether setup_interrupts gets as far as its line-request step. */
  predicate Configured(res: SetupResults) {
    res.chipOk && res.settingsOk && res.lineCfgOk && res.addOk && res.reqCfgOk
  }

  predicate SetupOk(res: SetupResults) {
    Configured(res) && res.reqOk && res.fd >= 0 && res.evbufOk && res.efd >= 0
  }

  /** The guard of start_irq_worker. */
  predicate StartArgsValid(g: Gpio, loopGiven: bool, callbackGiven: bool) {
    g.req && g.fd >= 0 && g.stopEfd >= 0 && loopGiven && callbackGiven
  }

  // ---------------------------------------------------------------------
  // The shared state of interrupt.c

  class Bridge {
    var gpio: Gpio
    /** The atomic `pending` flag: a wake is in flight. */
    var pending: bool
    var queue: TimestampQueue.Queue
    /** current_burst_us and current_burst_active */
    var burstUs: u32
    var burstActive: bool
    /** on_main_cb != NULL */
    var hasCallback: bool
    /** The level-read oracle and how many reads were made so far. */
    const lineValue: nat -> int
    var readCount: nat

    /** What irq_current_burst reports to the service callback at each of
        its calls, in call order. */
    ghost var seen: seq<Option<u32>>
    /** Every value stored to current_burst_us, in order. */
    ghost var bursts: seq<u32>
    ghost var Repr: set<object>

    ghost predicate Valid()
      reads this, Repr
    {
      && queue in Repr
      && Repr == {this} + queue.Repr
      && this !in queue.Repr
      && queue.Valid()
      && !burstActive
    }

    /** No queued timestamp is stranded: whenever the queue holds
        something, a wake is in flight. */
    ghost predicate NoStranded()
      reads this, queue
    {
      queue.Items != [] ==> pending
    }

    /** Program start: static initialisers, line value oracle given. */
    constructor (lineValue: nat -> int)
      ensures Valid() && fresh(Repr)
      ensures gpio == Unset && !pending && !hasCallback && readCount == 0
      ensures queue.State() == TimestampQueue.Empty
      ensures this.lineValue == lineValue
      ensures seen == [] && bursts == [] && NoStranded()
    {
      gpio := Unset;
      pending := false;
      queue := new TimestampQueue.Queue();
      burstUs := 0;
      burstActive := false;
      hasCallback := false;
      this.lineValue := lineValue;
      readCount := 0;
      seen := [];
      bursts := [];
      new;
      Repr := {this} + queue.Repr;
    }

    /** irq_current_burst: nothing for a NULL output location or an inactive
        burst, otherwise the burst timestamp. */
    function CurrentBurst(outGiven: bool): (r: Option<u32>)
      reads this
      ensures r.Some? <==> outGiven && burstActive
      ensures r.Some? ==> r.value == burstUs
    {
      if outGiven && burstActive then Some(burstUs) else None
    }

    /** irq_line_active: one call, consuming one oracle value. The oracle
        index counts calls: without a requested line the call returns
        inactive before reading, and the value it skips is ignored. */
    method ReadLine() returns (active: bool)
      modifies this`readCount
      ensures readCount == old(readCount) + 1
      ensures active == LineActive(gpio.req, lineValue(old(readCount)))
    {
      active := LineActive(gpio.req, lineValue(readCount));
      readCount := readCount + 1;
    }

    /** One drain pass of the worker thread: push one timestamp per falling
        edge, then raise `pending`; a wake is sent only if none was in
        flight. */
    method EdgePass(edges: seq<EdgeEvent>) returns (wakeSent: bool)
      requires Valid()
      modifies Repr
      ensures Valid() && Repr == old(Repr)
      ensures queue.State() == TimestampQueue.PushAll(old(queue.State()), FallingTimestamps(edges))
      ensures pending && wakeSent == !old(pending)
      ensures NoStranded()
      ensures gpio == old(gpio) && hasCallback == old(hasCallback) && readCount == old(readCount)
      ensures seen == old(seen) && bursts == old(bursts)
    {
      var i := 0;
      while i < |edges|
        invariant 0 <= i <= |edges|
        invariant Valid() && Repr == old(Repr)
        invariant queue.State() == TimestampQueue.PushAll(old(queue.State()), FallingTimestamps(edges[..i]))
        invariant pending == old(pending)
        invariant gpio == old(gpio) && hasCallback == old(hasCallback) && readCount == old(readCount)
        invariant seen == old(seen) && bursts == old(bursts)
      {
        assert edges[..i + 1][..i] == edges[..i];
        ghost var before := FallingTimestamps(edges[..i]);
        if edges[i].falling {
          var _ := queue.Push(EdgeTimestampUs(edges[i].timestampNs));
          TimestampQueue.PushAllSnoc(old(queue.State()), before, EdgeTimestampUs(edges[i].timestampNs));
        } else {
          assert before + [] == before;
        }
        i := i + 1;
      }
      assert edges[..|edges|] == edges;
      wakeSent := !pending;
      pending := true;
    }

    /** The prologue of irq_wait_thread: if the line is already asserted,
        push the current time and raise `pending`, so an interrupt raised
        before the thread started is not lost. */
    method WorkerPrologue(nowUs: u32) returns (wakeSent: bool)
      requires Valid()
      modifies Repr
      ensures Valid() && Repr == old(Repr)
      ensures readCount == old(readCount) + 1
      ensures LineActive(gpio.req, lineValue(old(readCount))) ==>
        queue.State() == TimestampQueue.Pushed(old(queue.State()), nowUs) &&
        pending && wakeSent == !old(pending)
      ensures !LineActive(gpio.req, lineValue(old(readCount))) ==>
        queue.State() == old(queue.State()) && pending == old(pending) && !wakeSent
      ensures old(NoStranded()) ==> NoStranded()
      ensures gpio == old(gpio) && hasCallback == old(hasCallback)
      ensures seen == old(seen) && bursts == old(bursts)
    {
      wakeSent := false;
      var active := ReadLine();
      if active {
        var _ := queue.Push(nowUs);
        wakeSent := !pending;
        pending := true;
      }
    }

    /** The capped do-while loop of irq_async_cb: call the service callback,
        then read the level, until a read reports deasserted or the cap of
        BURST_CAP calls is used up. */
    method CallUntilDeasserted()
      requires hasCallback && burstActive
      modifies this`seen, this`readCount
      ensures seen == old(seen) + Repeat(Some(burstUs), BurstCalls(gpio.req, lineValue, old(readCount)))
      ensures readCount == old(readCount) + BurstReads(gpio.req, lineValue, old(readCount))
    {
      ghost var r0, req := readCount, gpio.req;
      ghost var k := AssertedRun(req, lineValue, r0, BURST_CAP - 1);
      ghost var m := BurstReads(req, lineValue, r0);
      var cap: int := BURST_CAP;
      var again := true;
      while again
        invariant req == gpio.req
        invariant 0 <= BURST_CAP - cap <= k + 1
        invariant again == (BURST_CAP - cap <= k)
        invariant again ==> readCount == r0 + (BURST_CAP - cap)
        invariant !again ==> readCount == r0 + m
        invariant seen == old(seen) + Repeat(Some(burstUs), BURST_CAP - cap)
        decreases cap
      {
        ghost var n := BURST_CAP - cap;
        seen := seen + [CurrentBurst(true)];
        assert Repeat(Some(burstUs), n + 1) == Repeat(Some(burstUs), n) + [Some(burstUs)];
        cap := cap - 1;
        if cap > 0 {
          assert n < k ==> LineActive(req, lineValue(r0 + n));
          assert n == k ==> !LineActive(req, lineValue(r0 + n)) && m == n + 1;
          again := ReadLine();
        } else {
          again := false;
        }
      }
    }

    /** The body of the `while (tsq_pop(&ts))` loop for one timestamp: set
        the burst, run the callback loop if a callback is registered, clear
        the burst. */
    method ServiceBurst(ts: u32)
      requires Valid()
      modifies this`burstUs, this`burstActive, this`bursts, this`seen, this`readCount
      ensures Valid()
      ensures burstUs == ts
      ensures bursts == old(bursts) + [ts]
      ensures seen == old(seen) +
        Repeat(Some(ts), if hasCallback then BurstCalls(gpio.req, lineValue, old(readCount)) else 0)
      ensures readCount == old(readCount) +
        (if hasCallback then BurstReads(gpio.req, lineValue, old(readCount)) else 0)
    {
      burstUs := ts;
      burstActive := true;
      bursts := bursts + [ts];
      if hasCallback {
        CallUntilDeasserted();
      } else {
        assert seen + Repeat(Some(ts), 0) == seen;
      }
      burstActive := false;
    }

    /** The calls seen so far plus what dispatching `left` from read r0 on
        will add make up `target`, and that dispatch ends at read `reads0`. */
    static ghost predicate Accounts(before: seq<Option<u32>>, left: seq<u32>, hasCallback: bool,
                                    requested: bool, lineValue: nat -> int, r0: nat,
                                    target: seq<Option<u32>>, reads0: nat)
    {
      var d := Dispatch(left, hasCallback, requested, lineValue, r0);
      before + d.seen == target && d.levelReads == reads0
    }

    /** One turn of the drain loop on values: servicing ts, which adds its
        calls to what was seen and its reads to the counter, turns the
        account of [ts] + rest into the account of rest. */
    static lemma {:induction false} DrainStep(before: seq<Option<u32>>, after: seq<Option<u32>>,
                                              ts: u32, rest: seq<u32>,
                                              hasCallback: bool, requested: bool,
                                              lineValue: nat -> int, r0: nat, r1: nat,
                                              target: seq<Option<u32>>, reads0: nat)
      requires Accounts(before, [ts] + rest, hasCallback, requested, lineValue, r0, target, reads0)
      requires after == before +
        Repeat(Some(ts), if hasCallback then BurstCalls(requested, lineValue, r0) else 0)
      requires r1 == r0 + (if hasCallback then BurstReads(requested, lineValue, r0) else 0)
      ensures Accounts(after, rest, hasCallback, requested, lineValue, r1, target, reads0)
    {
      assert ([ts] + rest)[1..] == rest;
    }

    /** One evaluation of the condition `tsq_pop(&ts)` of the drain loop of
        irq_async_cb and, when it yields a timestamp, one run of its body. */
    method PopAndService() returns (ok: bool)
      requires Valid()
      modifies this`burstUs, this`burstActive, this`bursts, this`seen, this`readCount, queue
      ensures Valid()
      ensures queue.overflowWarned == old(queue.overflowWarned)
      ensures ok == (old(queue.Items) != [])
      ensures !ok ==> queue.Items == [] && bursts == old(bursts) && seen == old(seen) &&
                      readCount == old(readCount)
      ensures ok ==>
        var ts := old(queue.Items)[0];
        && queue.Items == old(queue.Items)[1..]
        && bursts == old(bursts) + [ts]
        && seen == old(seen) +
             Repeat(Some(ts), if hasCallback then BurstCalls(gpio.req, lineValue, old(readCount)) else 0)
        && readCount == old(readCount) +
             (if hasCallback then BurstReads(gpio.req, lineValue, old(readCount)) else 0)
    {
      var ts;
      ok, ts := queue.Pop();
      if ok {
        ServiceBurst(ts);
      }
    }

    /** The `while (tsq_pop(&ts))` loop of irq_async_cb: pop and service
        every queued timestamp, oldest first, until the queue is empty. */
    method DrainQueue()
      requires Valid()
      modifies this`burstUs, this`burstActive, this`bursts, this`seen, this`readCount, queue
      ensures Valid()
      ensures queue.State() == TimestampQueue.QueueState([], old(queue.State()).warned)
      ensures bursts == old(bursts) + old(queue.Items)
      ensures var d := Dispatch(old(queue.Items), hasCallback, gpio.req, lineValue, old(readCount));
        seen == old(seen) + d.seen && readCount == d.levelReads
    {
      ghost var items0, cb, req, lv := queue.Items, hasCallback, gpio.req, lineValue;
      ghost var d0 := Dispatch(items0, cb, req, lv, readCount);
      ghost var target, reads0 := seen + d0.seen, d0.levelReads;
      var more := true;
      while more
        invariant Valid()
        invariant cb == hasCallback && req == gpio.req && lv == lineValue
        invariant queue.overflowWarned == old(queue.overflowWarned)
        invariant !more ==> queue.Items == []
        invariant bursts + queue.Items == old(bursts) + items0
        invariant Accounts(seen, queue.Items, cb, req, lv, readCount, target, reads0)
        decreases |queue.Items| + (if more then 1 else 0)
      {
        ghost var items, b0, s0, r := queue.Items, bursts, seen, readCount;
        more := PopAndService();
        if more {
          assert items == [items[0]] + queue.Items;
          SnocAssoc(b0, items[0], queue.Items);
          DrainStep(s0, seen, items[0], queue.Items, cb, req, lv, r, readCount, target, reads0);
        }
      }
      assert bursts + [] == bursts;
      assert seen + [] == seen;
    }

    static lemma SnocAssoc<T>(a: seq<T>, x: T, b: seq<T>)
      ensures a + ([x] + b) == (a + [x]) + b
    {
    }

    /** irq_async_cb: test-and-clear `pending`; a duplicate wake (pending
        already clear) does nothing; otherwise drain the queue. */
    method AsyncCallback()
      requires Valid()
      modifies Repr
      ensures Valid() && Repr == old(Repr)
      ensures !old(pending) ==> unchanged(this, queue, queue.buf)
      ensures old(pending) ==>
        && !pending
        && queue.State() == TimestampQueue.QueueState([], old(queue.State()).warned)
        && bursts == old(bursts) + old(queue.Items)
        && var d := Dispatch(old(queue.Items), hasCallback, gpio.req, lineValue, old(readCount));
           seen == old(seen) + d.seen && readCount == d.levelReads
      ensures old(NoStranded()) ==> NoStranded() && queue.Items == []
      ensures gpio == old(gpio) && hasCallback == old(hasCallback)
    {
      if !pending {
        return;
      }
      pending := false;
      DrainQueue();
    }

    /** start_irq_worker: reject bad state or arguments; otherwise register
        the callback and clear `pending`, then the event-loop handle and the
        thread may still fail to start. */
    method StartWorker(loopGiven: bool, callbackGiven: bool, asyncInitOk: bool, threadOk: bool)
      returns (rc: int)
      requires Valid()
      modifies this
      ensures Valid() && Repr == old(Repr) && queue == old(queue)
      ensures !StartArgsValid(gpio, loopGiven, callbackGiven) ==> rc == -1 && unchanged(this)
      ensures StartArgsValid(gpio, loopGiven, callbackGiven) ==>
        hasCallback && !pending && rc == (if asyncInitOk && threadOk then 0 else -1)
      ensures gpio == old(gpio) && readCount == old(readCount)
      ensures seen == old(seen) && bursts == old(bursts)
    {
      if !StartArgsValid(gpio, loopGiven, callbackGiven) {
        return -1;
      }
      hasCallback := true;
      pending := false;
      if !asyncInitOk {
        return -1;
      }
      if !threadOk {
        return -1;
      }
      return 0;
    }

    /** setup_interrupts: open the chip, configure the line for falling
        edges, request it, take its descriptor, create the edge-event
        buffer and the stop eventfd. Each failure releases what this call
        acquired before it and returns -1; success returns the descriptor
        and leaves a state in which the worker may start. */
    method SetupInterrupts(lineNum: nat, res: SetupResults) returns (rc: int)
      requires Valid()
      modifies this`gpio
      ensures Valid()
      ensures rc == (if SetupOk(res) then res.fd else -1)
      ensures SetupOk(res) ==>
        gpio == Gpio(res.fd, res.efd, true, true, true, lineNum) && StartArgsValid(gpio, true, true)
      ensures !SetupOk(res) ==>
        && !gpio.chip
        && (forall r :: r in Released(gpio) ==> r in Released(old(gpio)))
        && gpio.offset == (if res.chipOk && res.settingsOk && res.lineCfgOk && res.addOk then lineNum else old(gpio.offset))
        && gpio.fd == (if Configured(res) && res.reqOk then res.fd else old(gpio.fd))
    {
      gpio := gpio.(chip := res.chipOk);
      if !res.chipOk {
        return -1;
      }
      if !res.settingsOk || !res.lineCfgOk || !res.addOk {
        gpio := gpio.(chip := false);
        return -1;
      }
      gpio := gpio.(offset := lineNum);
      if !res.reqCfgOk {
        gpio := gpio.(chip := false);
        return -1;
      }
      gpio := gpio.(req := res.reqOk);
      if !res.reqOk {
        gpio := gpio.(chip := false);
        return -1;
      }
      gpio := gpio.(fd := res.fd);
      if res.fd < 0 {
        gpio := gpio.(req := false, chip := false);
        return -1;
      }
      gpio := gpio.(evbuf := res.evbufOk);
      if !res.evbufOk {
        gpio := gpio.(req := false, chip := false);
        return -1;
      }
      gpio := gpio.(stopEfd := res.efd);
      if res.efd < 0 {
        gpio := gpio.(evbuf := false, req := false, chip := false);
        return -1;
      }
      return res.fd;
    }

    /** teardown_interrupts */
    method Teardown() returns (released: seq<Resource>)
      requires Valid()
      modifies this`gpio
      ensures Valid()
      ensures gpio == TornDown(old(gpio))
      ensures released == Released(old(gpio))
    {
      released := Released(gpio);
      gpio := TornDown(gpio);
    }
  }

  /** From program start, a successful setup_interrupts lets
      start_irq_worker start the worker, and the line is then read. */
  method SetupThenStart(lineValue: nat -> int) returns (b: Bridge, rc: int)
    ensures rc == 0 && b.hasCallback && b.gpio.req && b.gpio.fd == 5
  {
    b := new Bridge(lineValue);
    var fd := b.SetupInterrupts(17, SetupResults(true, true, true, true, true, true, 5, true, 6));
    rc := b.StartWorker(true, true, true, true);
  }
}
