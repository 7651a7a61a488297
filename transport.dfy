/** The I2C character device the driver talks to, seen from user space:
    `write` hands the kernel a frame and reports how many bytes went out,
    `read` asks for a number of bytes and reports how many arrived, and the
    driver may sleep between the two.

    The device on the other end is modelled by how much it will still take
    (`budget`, in bytes written) and what it will still answer (`pending`,
    the bytes later reads return, in order). A transfer that cannot be
    served in full is short; the driver treats a short transfer as fatal. */
module Transport {
  import opened Errors

  function Min(a: nat, b: nat): (m: nat)
    ensures m <= a && m <= b && (m == a || m == b)
  {
    if a <= b then a else b
  }

  /** What the driver asks of the bus. */
  datatype Request =
    | Send(frame: seq<bv8>)
    | Pause(micros: nat)
    | Fetch(count: nat)

  /** What happened on the bus: the frame written and how many of its bytes
      were accepted, a sleep, or the number of bytes asked for and those
      that arrived. */
  datatype Event =
    | Wrote(frame: seq<bv8>, accepted: nat)
    | Slept(micros: nat)
    | Got(count: nat, bytes: seq<bv8>)

  /** What the device on the other end will still take and still answer. */
  datatype Link = Link(budget: nat, pending: seq<bv8>)

  /** The event one request produces and the link after it. */
  datatype Step = Step(event: Event, after: Link)

  /** The events a script produces, in order, and the link after them. */
  datatype Run = Run(events: seq<Event>, after: Link)

  /** The request an event answers. */
  function Answers(e: Event): Request
  {
    match e
    case Wrote(frame, _) => Send(frame)
    case Slept(us) => Pause(us)
    case Got(count, _) => Fetch(count)
  }

  /** A transfer that moved fewer bytes than asked for. */
  predicate Short(e: Event)
  {
    match e
    case Wrote(frame, accepted) => accepted != |frame|
    case Slept(_) => false
    case Got(count, bytes) => |bytes| != count
  }

  predicate NoShort(events: seq<Event>)
  {
    forall i :: 0 <= i < |events| ==> !Short(events[i])
  }

  /** Serve one request: a write goes out as far as the budget allows, a
      read returns as many pending bytes as there are, up to the count. */
  function Transfer(link: Link, q: Request): Step
  {
    match q
    case Send(frame) =>
      var n := Min(|frame|, link.budget);
      Step(Wrote(frame, n), Link(link.budget - n, link.pending))
    case Pause(us) =>
      Step(Slept(us), link)
    case Fetch(count) =>
      var n := Min(count, |link.pending|);
      Step(Got(count, link.pending[..n]), Link(link.budget, link.pending[n..]))
  }

  /** A transfer answers its request; it is short exactly when the request
      asks for more than the link has; a write spends budget on the bytes it
      accepted and nothing else, a read takes its bytes off the front of
      what is pending and nothing else, and a pause changes nothing. */
  lemma {:induction false} TransferMeaning(link: Link, q: Request)
    ensures var r := Transfer(link, q);
      && Answers(r.event) == q
      && (Short(r.event) <==>
            (q.Send? && link.budget < |q.frame|) || (q.Fetch? && |link.pending| < q.count))
      && (r.event.Wrote? ==>
            && r.event.accepted <= |q.frame|
            && r.event.accepted <= link.budget
            && r.after == Link(link.budget - r.event.accepted, link.pending))
      && (r.event.Got? ==>
            && r.event.bytes + r.after.pending == link.pending
            && r.after.budget == link.budget)
      && (r.event.Slept? ==> r.after == link)
  {
    if q.Fetch? {
      var n := Min(q.count, |link.pending|);
      assert link.pending[..n] + link.pending[n..] == link.pending;
    }
  }

  /** Serve the requests of a script in order, stopping after the first
      short transfer: the driver gives up there. */
  function Perform(link: Link, script: seq<Request>): Run
    decreases |script|
  {
    if script == [] then Run([], link)
    else
      var st := Transfer(link, script[0]);
      if Short(st.event) then Run([st.event], st.after)
      else
        var rest := Perform(st.after, script[1..]);
        Run([st.event] + rest.events, rest.after)
  }

  /** Bytes a script writes, counting every frame in full. */
  function SendDemand(script: seq<Request>): nat
    decreases |script|
  {
    if script == [] then 0
    else (if script[0].Send? then |script[0].frame| else 0) + SendDemand(script[1..])
  }

  /** Bytes a script reads, counting every request in full. */
  function FetchDemand(script: seq<Request>): nat
    decreases |script|
  {
    if script == [] then 0
    else (if script[0].Fetch? then script[0].count else 0) + FetchDemand(script[1..])
  }

  /** Bytes the device accepted, over all writes. */
  function Accepted(events: seq<Event>): nat
    decreases |events|
  {
    if events == [] then 0
    else (if events[0].Wrote? then events[0].accepted else 0) + Accepted(events[1..])
  }

  /** Bytes that arrived, over all reads, in arrival order. */
  function Received(events: seq<Event>): seq<bv8>
    decreases |events|
  {
    if events == [] then []
    else (if events[0].Got? then events[0].bytes else []) + Received(events[1..])
  }

  /** Every event answers the request at its position; the run is as long as
      the script unless it was cut short, and then only its last event is
      short. */
  lemma {:induction false} PerformFollowsScript(link: Link, script: seq<Request>)
    ensures var r := Perform(link, script);
      && |r.events| <= |script|
      && (script != [] ==> r.events != [])
      && (forall i :: 0 <= i < |r.events| ==> Answers(r.events[i]) == script[i])
      && (forall i :: 0 <= i < |r.events| - 1 ==> !Short(r.events[i]))
      && (|r.events| < |script| ==> Short(r.events[|r.events| - 1]))
    decreases |script|
  {
    if script != [] {
      var st := Transfer(link, script[0]);
      if !Short(st.event) {
        PerformFollowsScript(st.after, script[1..]);
        var rest := Perform(st.after, script[1..]);
        var r := Perform(link, script);
        assert r.events == [st.event] + rest.events;
        forall i | 0 <= i < |r.events|
          ensures Answers(r.events[i]) == script[i]
        {
          if i > 0 {
            assert r.events[i] == rest.events[i - 1];
          }
        }
        forall i | 0 <= i < |r.events| - 1
          ensures !Short(r.events[i])
        {
          if i > 0 {
            assert r.events[i] == rest.events[i - 1];
          }
        }
      }
    }
  }

  lemma {:induction false} AcceptedCons(e: Event, rest: seq<Event>)
    ensures Accepted([e] + rest) == (if e.Wrote? then e.accepted else 0) + Accepted(rest)
  {
    assert ([e] + rest)[1..] == rest;
  }

  lemma {:induction false} ReceivedCons(e: Event, rest: seq<Event>)
    ensures Received([e] + rest) == (if e.Got? then e.bytes else []) + Received(rest)
  {
    assert ([e] + rest)[1..] == rest;
  }

  /** Nothing is lost or reordered: the bytes that arrived, followed by what
      is still pending, are what was pending before; and the bytes accepted
      plus the remaining budget are the budget before. */
  lemma {:induction false} PerformConserves(link: Link, script: seq<Request>)
    ensures var r := Perform(link, script);
      Received(r.events) + r.after.pending == link.pending
      && Accepted(r.events) + r.after.budget == link.budget
    decreases |script|
  {
    if script != [] {
      var st := Transfer(link, script[0]);
      var r := Perform(link, script);
      if Short(st.event) {
        assert r.events == [st.event] + [];
        AcceptedCons(st.event, []);
        ReceivedCons(st.event, []);
      } else {
        PerformConserves(st.after, script[1..]);
        var rest := Perform(st.after, script[1..]);
        AcceptedCons(st.event, rest.events);
        ReceivedCons(st.event, rest.events);
        if st.event.Got? {
          calc {
            Received(r.events) + r.after.pending;
            st.event.bytes + (Received(rest.events) + rest.after.pending);
            st.event.bytes + st.after.pending;
          }
        }
      }
    }
  }

  /** A script runs to the end without a short transfer exactly when the
      device takes every byte written and has every byte read; then each
      write went out whole, each read came back whole, and the link lost
      exactly the script's demand. */
  lemma {:induction false} PerformSucceedsIff(link: Link, script: seq<Request>)
    ensures var r := Perform(link, script);
      NoShort(r.events) <==> SendDemand(script) <= link.budget && FetchDemand(script) <= |link.pending|
    ensures var r := Perform(link, script);
      NoShort(r.events) ==>
        |r.events| == |script|
        && r.after == Link(link.budget - SendDemand(script), link.pending[FetchDemand(script)..])
    decreases |script|
  {
    if script != [] {
      var st := Transfer(link, script[0]);
      var r := Perform(link, script);
      assert r.events[0] == st.event;
      if Short(st.event) {
        assert !NoShort(r.events);
        ShortHeadExceeds(link, script);
      } else {
        PerformSucceedsIff(st.after, script[1..]);
        var rest := Perform(st.after, script[1..]);
        NoShortCons(st.event, rest.events);
        StepDemand(link, script);
      }
    }
  }

  lemma {:induction false} NoShortCons(e: Event, rest: seq<Event>)
    ensures NoShort([e] + rest) <==> !Short(e) && NoShort(rest)
  {
    if !Short(e) && NoShort(rest) {
      forall i | 0 <= i < |[e] + rest|
        ensures !Short(([e] + rest)[i])
      {
        if i > 0 {
          assert ([e] + rest)[i] == rest[i - 1];
        }
      }
    }
    if NoShort([e] + rest) {
      assert ([e] + rest)[0] == e;
      forall i | 0 <= i < |rest|
        ensures !Short(rest[i])
      {
        assert ([e] + rest)[i + 1] == rest[i];
      }
    }
  }

  /** Two runs back to back have no short transfer exactly when neither
      has one. */
  lemma {:induction false} NoShortAppend(a: seq<Event>, b: seq<Event>)
    ensures NoShort(a + b) <==> NoShort(a) && NoShort(b)
  {
    if NoShort(a + b) {
      forall i | 0 <= i < |a|
        ensures !Short(a[i])
      {
        assert (a + b)[i] == a[i];
      }
      forall i | 0 <= i < |b|
        ensures !Short(b[i])
      {
        assert (a + b)[|a| + i] == b[i];
      }
    }
  }

  /** A short first transfer means the script demands more than the link
      has. */
  lemma {:induction false} ShortHeadExceeds(link: Link, script: seq<Request>)
    requires script != []
    requires Short(Transfer(link, script[0]).event)
    ensures !(SendDemand(script) <= link.budget && FetchDemand(script) <= |link.pending|)
  {
  }

  /** After an untruncated first transfer, the remaining demand compares to
      the remaining link as the whole demand compares to the whole link. */
  lemma {:induction false} StepDemand(link: Link, script: seq<Request>)
    requires script != []
    requires !Short(Transfer(link, script[0]).event)
    ensures var after := Transfer(link, script[0]).after;
      && (SendDemand(script) <= link.budget && FetchDemand(script) <= |link.pending|
          <==> SendDemand(script[1..]) <= after.budget && FetchDemand(script[1..]) <= |after.pending|)
      && after.budget - SendDemand(script[1..]) == link.budget - SendDemand(script)
      && (FetchDemand(script) <= |link.pending| ==>
            after.pending[FetchDemand(script[1..])..] == link.pending[FetchDemand(script)..])
  {
    var st := Transfer(link, script[0]);
    if st.event.Got? {
      var n := script[0].count;
      assert st.event.bytes == link.pending[..n];
      assert st.after.pending == link.pending[n..];
    }
  }

  /** Running two scripts back to back: the first runs alone, and the second
      runs from where the first left the link, unless the first was cut
      short. */
  lemma {:induction false} PerformAppend(link: Link, a: seq<Request>, b: seq<Request>)
    ensures var ra := Perform(link, a);
      var rb := Perform(ra.after, b);
      Perform(link, a + b) == if NoShort(ra.events) then Run(ra.events + rb.events, rb.after) else ra
    decreases |a|
  {
    var ra := Perform(link, a);
    if a == [] {
      assert a + b == b;
      assert ra.events + Perform(ra.after, b).events == Perform(ra.after, b).events;
    } else {
      var st := Transfer(link, a[0]);
      assert (a + b)[0] == a[0];
      assert (a + b)[1..] == a[1..] + b;
      if Short(st.event) {
        assert ra.events[0] == st.event;
      } else {
        PerformAppend(st.after, a[1..], b);
        var rest := Perform(st.after, a[1..]);
        NoShortCons(st.event, rest.events);
        var rb := Perform(rest.after, b);
        assert ([st.event] + rest.events) + rb.events == [st.event] + (rest.events + rb.events);
      }
    }
  }

  /** A driver operation that ran `script` from link `before` and log
      `log0`, with one failure message per request, has left log `log`,
      link `after` and outcome `o`: the log grew by exactly the script's
      run, the link is where the run left it, the operation passed exactly
      when no transfer was short, and a failure names the request it
      stopped at. */
  ghost predicate Completed(before: Link, log0: seq<Event>, script: seq<Request>, messages: seq<string>,
                            log: seq<Event>, after: Link, o: Outcome)
  {
    var run := Perform(before, script);
    && log == log0 + run.events
    && after == run.after
    && (o.Pass? <==> NoShort(run.events))
    && (o.Pass? ==> |run.events| == |script|)
    && (o.Fail? ==> 0 < |run.events| <= |messages|
                    && o.failure == TransportError(messages[|run.events| - 1]))
  }

  /** An operation that failed part-way through the first of two scripts
      has completed both, failing at the same place. */
  lemma {:induction false} CompletedFail(before: Link, log0: seq<Event>, a: seq<Request>, b: seq<Request>,
                                         ma: seq<string>, mb: seq<string>,
                                         log: seq<Event>, after: Link, f: Failure)
    requires |ma| == |a|
    requires Completed(before, log0, a, ma, log, after, Fail(f))
    ensures Completed(before, log0, a + b, ma + mb, log, after, Fail(f))
  {
    PerformSequenced(before, a, b, ma, mb, log0);
  }

  /** An operation that passed the first of two scripts and then ran the
      second from where it left off has completed both, with the second's
      outcome. */
  lemma {:induction false} CompletedThen(before: Link, log0: seq<Event>, a: seq<Request>, b: seq<Request>,
                                         ma: seq<string>, mb: seq<string>,
                                         log1: seq<Event>, middle: Link,
                                         log: seq<Event>, after: Link, o: Outcome)
    requires |ma| == |a|
    requires Completed(before, log0, a, ma, log1, middle, Pass)
    requires Completed(middle, log1, b, mb, log, after, o)
    ensures Completed(before, log0, a + b, ma + mb, log, after, o)
  {
    PerformSequenced(before, a, b, ma, mb, log0);
  }

  /** Two scripts run back to back, each with a failure message per
      request: where the first is cut short, the whole run is the first's
      run and the message is the first's; otherwise the whole run carries
      on with the second, is short exactly when the second is, and a failure
      there is reported with the second's message. */
  lemma {:induction false} PerformSequenced(link: Link, a: seq<Request>, b: seq<Request>,
                                            ma: seq<string>, mb: seq<string>, log: seq<Event>)
    requires |ma| == |a|
    ensures var ra := Perform(link, a); var r := Perform(link, a + b);
      !NoShort(ra.events) ==>
        && r == ra
        && !NoShort(r.events)
        && (0 < |ra.events| <= |ma| ==> 0 < |r.events| <= |ma + mb| && (ma + mb)[|r.events| - 1] == ma[|ra.events| - 1])
    ensures var ra := Perform(link, a); var rb := Perform(ra.after, b); var r := Perform(link, a + b);
      NoShort(ra.events) && |ra.events| == |a| ==>
        && log + ra.events + rb.events == log + r.events
        && |r.events| == |ra.events| + |rb.events|
        && r.after == rb.after
        && (NoShort(r.events) <==> NoShort(rb.events))
        && (0 < |rb.events| <= |mb| ==> 0 < |r.events| <= |ma + mb| && (ma + mb)[|r.events| - 1] == mb[|rb.events| - 1])
  {
    PerformAppend(link, a, b);
    var ra := Perform(link, a);
    var rb := Perform(ra.after, b);
    if NoShort(ra.events) {
      NoShortAppend(ra.events, rb.events);
      assert log + ra.events + rb.events == log + (ra.events + rb.events);
    }
  }

  /** A script whose first request is cut short ends there. */
  lemma {:induction false} PerformCutShort(link: Link, script: seq<Request>)
    requires script != [] && Short(Transfer(link, script[0]).event)
    ensures Perform(link, script) == Run([Transfer(link, script[0]).event], Transfer(link, script[0]).after)
    ensures !NoShort(Perform(link, script).events)
  {
    assert Perform(link, script).events[0] == Transfer(link, script[0]).event;
  }

  /** A one-request script produces exactly that request's event. */
  lemma {:induction false} PerformOne(link: Link, script: seq<Request>)
    requires |script| == 1
    ensures Perform(link, script) == Run([Transfer(link, script[0]).event], Transfer(link, script[0]).after)
    ensures NoShort(Perform(link, script).events) <==> !Short(Transfer(link, script[0]).event)
  {
    var t0 := Transfer(link, script[0]);
    assert script[1..] == [];
    assert [t0.event] + [] == [t0.event];
    assert Perform(link, script).events[0] == t0.event;
  }

  /** A two-request script whose first request goes through produces both
      events. */
  lemma {:induction false} PerformTwo(link: Link, script: seq<Request>)
    requires |script| == 2 && !Short(Transfer(link, script[0]).event)
    ensures var t0 := Transfer(link, script[0]); var t1 := Transfer(t0.after, script[1]);
      Perform(link, script) == Run([t0.event, t1.event], t1.after)
    ensures NoShort(Perform(link, script).events) <==>
      !Short(Transfer(Transfer(link, script[0]).after, script[1]).event)
  {
    var t0 := Transfer(link, script[0]);
    PerformOne(t0.after, script[1..]);
    var t1 := Transfer(t0.after, script[1]);
    assert [t0.event] + [t1.event] == [t0.event, t1.event];
    assert Perform(link, script).events[1] == t1.event;
  }

  /** A three-request script whose first two requests go through produces
      all three events. */
  lemma {:induction false} PerformThree(link: Link, script: seq<Request>)
    requires |script| == 3 && !Short(Transfer(link, script[0]).event)
    requires !Short(Transfer(Transfer(link, script[0]).after, script[1]).event)
    ensures var t0 := Transfer(link, script[0]); var t1 := Transfer(t0.after, script[1]);
      var t2 := Transfer(t1.after, script[2]);
      Perform(link, script) == Run([t0.event, t1.event, t2.event], t2.after)
    ensures var t1 := Transfer(Transfer(link, script[0]).after, script[1]);
      NoShort(Perform(link, script).events) <==> !Short(Transfer(t1.after, script[2]).event)
  {
    var t0 := Transfer(link, script[0]);
    PerformTwo(t0.after, script[1..]);
    assert script[1..][0] == script[1] && script[1..][1] == script[2];
    var t1 := Transfer(t0.after, script[1]);
    var t2 := Transfer(t1.after, script[2]);
    assert [t0.event] + [t1.event, t2.event] == [t0.event, t1.event, t2.event];
    assert Perform(link, script).events[2] == t2.event;
  }

  /** The bus handle: everything that went over it so far, and what the
      device on the other end will still take and answer. */
  class Bus {
    var log: seq<Event>
    var budget: nat
    var pending: seq<bv8>

    function State(): Link
      reads this
    {
      Link(budget, pending)
    }

    constructor(budget: nat, pending: seq<bv8>)
      ensures log == []
      ensures State() == Link(budget, pending)
    {
      log := [];
      this.budget := budget;
      this.pending := pending;
    }

    /** `write(fd, frame, |frame|)`: the number of bytes that went out. */
    method Write(frame: seq<bv8>) returns (written: nat)
      modifies this
      ensures var st := Transfer(old(State()), Send(frame));
        && written == st.event.accepted
        && log == old(log) + [st.event]
        && State() == st.after
      ensures written == Min(|frame|, old(budget))
    {
      written := Min(|frame|, budget);
      budget := budget - written;
      log := log + [Wrote(frame, written)];
    }

    /** `usleep(micros)`. */
    method Sleep(micros: nat)
      modifies this
      ensures log == old(log) + [Slept(micros)]
      ensures State() == old(State())
    {
      log := log + [Slept(micros)];
    }

    /** `read(fd, buffer, count)`: the bytes that arrived. */
    method Read(count: nat) returns (bytes: seq<bv8>)
      modifies this
      ensures var st := Transfer(old(State()), Fetch(count));
        && bytes == st.event.bytes
        && log == old(log) + [st.event]
        && State() == st.after
      ensures bytes + pending == old(pending)
      ensures |bytes| == Min(count, |old(pending)|)
    {
      var n := Min(count, |pending|);
      bytes := pending[..n];
      pending := pending[n..];
      log := log + [Got(count, bytes)];
      assert bytes + pending == old(pending);
    }
  }
}
