/** The class of src/mediafire_sdk/utils/timed_events.hpp, over the values of module EventQueue. */
module TimedEvents {
  import opened Basics
  import opened EventQueue

  class TimedEvents<E> {
    var data: seq<Entry<E>>
    var running: bool
    var armed: Option<Time>
    var posted: nat
    var pass: Option<Time>

    ghost function View(): Queue<E>
      reads this
    {
      Queue(data, running, armed, posted, pass)
    }

    constructor ()
      ensures View() == Empty()
    {
      data, running, armed, posted, pass := [], true, None, 0, None;
    }

    method Add(due: Time, event: E)
      modifies this
      ensures View() == EventQueue.Add(old(View()), due, event)
    {
      data := Insert(data, Entry(due, event));
      posted := posted + 1;
    }

    method Size() returns (n: nat)
      ensures n == |View().data|
    {
      n := |data|;
    }

    /** ResetTimer is entered from the io_service and reads the clock. */
    method BeginReset(now: Time)
      requires posted > 0
      modifies this
      ensures View() == EventQueue.BeginPass(old(View()), now)
    {
      posted := posted - 1;
      pass := Some(now);
    }

    /** One turn of ResetTimer's loop: the next due event, or none after re-arming the timer. */
    method TakeDue() returns (front: Option<E>)
      requires pass.Some?
      modifies this
      ensures front.Some? <==> CanDeliver(old(View()))
      ensures front.Some? ==> front.value == old(data[0].event) && View() == Deliver(old(View()))
      ensures front.None? ==> View() == EndPass(old(View()))
    {
      if running && data != [] {
        if data[0].due <= pass.value {
          front := Some(data[0].event);
          data := data[1..];
          return;
        }
        armed := Some(data[0].due);
      }
      front := None;
      pass := None;
    }

    /** ResetTimer as a whole, when the event processor leaves this queue alone: the events due
        by `now` are processed earliest first, ties in insertion order, and the timer is set for
        the first entry that remains. */
    method ResetTimer(now: Time) returns (processed: seq<E>)
      requires posted > 0
      modifies this
      ensures processed == Events(DueEvents(old(View()), now))
      ensures View() == AfterPass(old(View()), now)
    {
      ghost var start := View();
      ghost var due := DueEvents(start, now);
      BeginReset(now);
      processed := [];
      var front := TakeDue();
      while front.Some?
        invariant |processed| <= |due| && processed == Events(due[..|processed|])
        invariant front.Some? ==>
          && |processed| < |due| && front.value == due[|processed|].event
          && View() == Queue(start.data[|processed| + 1..], true, start.armed, start.posted - 1, Some(now))
        invariant front.None? ==> |processed| == |due| && View() == AfterPass(start, now)
        decreases |due| - |processed|
      {
        processed := processed + [front.value];
        front := TakeDue();
      }
    }

    /** Every pending event leaves and is posted to the event processor with an error. */
    method CancelAll() returns (cancelled: seq<E>)
      modifies this
      ensures cancelled == Events(old(data))
      ensures View() == EventQueue.CancelAll(old(View()))
    {
      armed := None;
      cancelled := [];
      while data != []
        invariant running == old(running) && posted == old(posted) && pass == old(pass) && armed == None
        invariant |data| <= |old(data)| && data == old(data)[|old(data)| - |data|..]
        invariant cancelled == Events(old(data)[..|old(data)| - |data|])
        decreases |data|
      {
        cancelled := cancelled + [data[0].event];
        data := data[1..];
      }
    }

    method Stop() returns (cancelled: seq<E>)
      modifies this
      ensures cancelled == Events(old(data))
      ensures View() == EventQueue.Stop(old(View()))
    {
      running := false;
      cancelled := CancelAll();
    }
  }
}
