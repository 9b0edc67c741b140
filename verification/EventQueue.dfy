/** src/mediafire_sdk/utils/timed_events.hpp as a value: one asio timer shared by many timed
    events, with the smallest steps the io_service can interleave. Module TimedEvents holds the
    class, whose loops are proved against these functions. */
module EventQueue {
  import opened Basics

  datatype Entry<E> = Entry(due: Time, event: E)

  /** `data` is the multimap in iteration order; `armed` is the pending asynchronous wait;
      `posted` counts ResetTimer calls queued on the io_service, including expired waits whose
      handler is already queued; `pass` is the `now` captured by a ResetTimer that is running. */
  datatype Queue<E> = Queue(
    data: seq<Entry<E>>,
    running: bool,
    armed: Option<Time>,
    posted: nat,
    pass: Option<Time>)

  function Empty<E>(): Queue<E> { Queue([], true, None, 0, None) }

  ghost predicate Ordered<E>(data: seq<Entry<E>>) {
    forall i, j | 0 <= i < j < |data| :: data[i].due <= data[j].due
  }

  /** The number of leading entries due at or before `t`: the multimap's upper bound of `t`. */
  function UpperBound<E>(data: seq<Entry<E>>, t: Time): (k: nat)
    ensures k <= |data|
    ensures forall i | 0 <= i < k :: data[i].due <= t
    ensures k < |data| ==> t < data[k].due
  {
    if data == [] || t < data[0].due then 0 else 1 + UpperBound(data[1..], t)
  }

  /** Multimap insertion: after every entry with an equal key. */
  function Insert<E>(data: seq<Entry<E>>, entry: Entry<E>): (r: seq<Entry<E>>)
    ensures |r| == |data| + 1
  {
    if data == [] || entry.due < data[0].due then [entry] + data
    else [data[0]] + Insert(data[1..], entry)
  }

  /** In other words, at the upper bound of its key. */
  lemma {:induction false} InsertAtUpperBound<E>(data: seq<Entry<E>>, entry: Entry<E>)
    ensures var k := UpperBound(data, entry.due); Insert(data, entry) == data[..k] + [entry] + data[k..]
  {
    if data != [] && data[0].due <= entry.due {
      var k := UpperBound(data[1..], entry.due);
      InsertAtUpperBound(data[1..], entry);
      assert data[..k + 1] == [data[0]] + data[1..][..k];
      assert data[k + 1..] == data[1..][k..];
    }
  }

  lemma {:induction false} InsertMember<E>(data: seq<Entry<E>>, entry: Entry<E>, e: Entry<E>)
    ensures e in Insert(data, entry) <==> e in data || e == entry
  {
    if data != [] && data[0].due <= entry.due {
      InsertMember(data[1..], entry, e);
      assert data == [data[0]] + data[1..];
    }
  }

  lemma {:induction false} InsertAddsOne<E>(data: seq<Entry<E>>, entry: Entry<E>)
    ensures multiset(Insert(data, entry)) == multiset(data) + multiset{entry}
  {
    if data != [] && data[0].due <= entry.due {
      InsertAddsOne(data[1..], entry);
      assert data == [data[0]] + data[1..];
    }
  }

  lemma {:induction false} InsertKeepsOrder<E>(data: seq<Entry<E>>, entry: Entry<E>)
    requires Ordered(data)
    ensures Ordered(Insert(data, entry))
  {
    if data != [] && data[0].due <= entry.due {
      var rest := Insert(data[1..], entry);
      InsertKeepsOrder(data[1..], entry);
      forall j | 0 <= j < |rest| ensures data[0].due <= rest[j].due {
        InsertMember(data[1..], entry, rest[j]);
        if rest[j] in data[1..] {
          var i :| 0 <= i < |data| - 1 && data[1..][i] == rest[j];
          assert data[i + 1] == rest[j];
        }
      }
    }
  }

  function Add<E>(q: Queue<E>, due: Time, event: E): Queue<E> {
    q.(data := Insert(q.data, Entry(due, event)), posted := q.posted + 1)
  }

  /** The asynchronous wait elapses and its handler is queued. */
  function Expire<E>(q: Queue<E>): Queue<E> { q.(armed := None, posted := q.posted + 1) }

  /** A queued ResetTimer starts and reads the clock. */
  function BeginPass<E>(q: Queue<E>, now: Time): Queue<E>
    requires q.posted > 0
  {
    q.(posted := q.posted - 1, pass := Some(now))
  }

  /** The running pass has a due event at the front. */
  predicate CanDeliver<E>(q: Queue<E>) {
    q.pass.Some? && q.running && q.data != [] && q.data[0].due <= q.pass.value
  }

  /** The front event leaves the queue and is handed to the event processor. */
  function Deliver<E>(q: Queue<E>): Queue<E>
    requires CanDeliver(q)
  {
    q.(data := q.data[1..])
  }

  /** Nothing more is due: wait for the front entry if there is one. */
  function EndPass<E>(q: Queue<E>): Queue<E>
    requires q.pass.Some? && !CanDeliver(q)
  {
    q.(pass := None, armed := if q.running && q.data != [] then Some(q.data[0].due) else q.armed)
  }

  /** All entries leave; each is posted to the event processor with an error. */
  function CancelAll<E>(q: Queue<E>): Queue<E> { q.(data := [], armed := None) }

  function Stop<E>(q: Queue<E>): Queue<E> { CancelAll(q.(running := false)) }

  /** No lost wake-up: something will look at the front entry no later than it is due. */
  ghost predicate Awake<E>(q: Queue<E>) {
    q.running && q.data != [] ==>
      q.posted > 0 || q.pass.Some? || (q.armed.Some? && q.armed.value <= q.data[0].due)
  }

  ghost predicate Valid<E>(q: Queue<E>) { Ordered(q.data) && Awake(q) }

  lemma AddKeepsValid<E>(q: Queue<E>, due: Time, event: E)
    requires Valid(q)
    ensures Valid(Add(q, due, event))
  {
    InsertKeepsOrder(q.data, Entry(due, event));
  }

  /** The event processor never sees more than this from one ResetTimer that nothing interrupts. */
  function DueEvents<E>(q: Queue<E>, now: Time): seq<Entry<E>> {
    if q.running then q.data[..UpperBound(q.data, now)] else []
  }

  /** The queue after such a ResetTimer. */
  function AfterPass<E>(q: Queue<E>, now: Time): Queue<E>
    requires q.posted > 0
  {
    var rest := q.(data := q.data[|DueEvents(q, now)|..], posted := q.posted - 1, pass := None);
    if q.running && rest.data != [] then rest.(armed := Some(rest.data[0].due)) else rest
  }

  function Events<E>(data: seq<Entry<E>>): (r: seq<E>)
    ensures |r| == |data|
  {
    seq(|data|, i requires 0 <= i < |data| => data[i].event)
  }

  /** No posted ResetTimer can start, no pass is running and no armed wait has elapsed: the
      io_service has nothing left to do for this queue until the clock moves. */
  predicate Idle<E>(q: Queue<E>, now: Time) {
    q.posted == 0 && q.pass.None? && !(q.armed.Some? && q.armed.value <= now)
  }

  lemma FrontIsDueFirst<E>(data: seq<Entry<E>>, e: Entry<E>)
    requires Ordered(data) && e in data
    ensures data[0].due <= e.due
  {
  }
}
