/** src/mediafire_sdk/utils/container_algorithms.hpp: two sorted containers are repartitioned into
    what only the first holds, what only the second holds, and what both hold. */
module ContainerAlgorithms {

  type Less<!T> = (T, T) -> bool

  /** What the comparison has to be; equality is the container's own operator==. */
  ghost predicate StrictTotal<T(!new)>(less: Less<T>) {
    && (forall x :: !less(x, x))
    && (forall x, y, z :: less(x, y) && less(y, z) ==> less(x, z))
    && (forall x, y :: x == y || less(x, y) || less(y, x))
  }

  /** Sorted, with duplicates. */
  ghost predicate Sorted<T>(s: seq<T>, less: Less<T>) {
    forall i, j | 0 <= i < j < |s| :: s[i] == s[j] || less(s[i], s[j])
  }

  ghost predicate StrictlySorted<T>(s: seq<T>, less: Less<T>) {
    forall i, j | 0 <= i < j < |s| :: less(s[i], s[j])
  }

  /** std::unique: each run of equal elements is cut to one. */
  function Deduped<T(==)>(s: seq<T>): seq<T> {
    if s == [] then []
    else
      var n := |s| - 1;
      if n > 0 && s[n - 1] == s[n] then Deduped(s[..n]) else Deduped(s[..n]) + [s[n]]
  }

  /** The elements of `s` that `t` does not hold, in order. */
  function Without<T(==)>(s: seq<T>, t: seq<T>): seq<T> {
    if s == [] then []
    else
      var n := |s| - 1;
      if s[n] in t then Without(s[..n], t) else Without(s[..n], t) + [s[n]]
  }

  /** The elements of `s` that `t` holds too. */
  function Common<T(==)>(s: seq<T>, t: seq<T>): seq<T> {
    if s == [] then []
    else
      var n := |s| - 1;
      if s[n] in t then Common(s[..n], t) + [s[n]] else Common(s[..n], t)
  }

  class Container<T(==)> {
    var items: seq<T>

    constructor (s: seq<T>)
      ensures items == s
    {
      items := s;
    }

    method PushBack(x: T)
      modifies this
      ensures items == old(items) + [x]
    {
      items := items + [x];
    }

    /** std::unique, in place: the first `end` items are the result, the others are left over. */
    method Unique() returns (end: nat)
      modifies this
      ensures end <= |items| == |old(items)| && items[..end] == Deduped(old(items))
    {
      end := 0;
      ghost var start := items;
      for next := 0 to |items|
        invariant |items| == |start| && end <= next && items[next..] == start[next..]
        invariant items[..end] == Deduped(start[..next])
        invariant next > 0 ==> end > 0 && items[end - 1] == start[next - 1]
      {
        assert start[..next + 1][..next] == start[..next];
        assert items[next] == start[next];
        if end == 0 || items[end - 1] != items[next] {
          items := items[end := items[next]];
          end := end + 1;
        }
      }
      assert start[..|start|] == start;
    }
  }

  lemma TakeOne<T>(s: seq<T>, t: seq<T>, i: nat)
    requires i < |s|
    ensures Without(s[..i + 1], t) == if s[i] in t then Without(s[..i], t) else Without(s[..i], t) + [s[i]]
    ensures Common(s[..i + 1], t) == if s[i] in t then Common(s[..i], t) + [s[i]] else Common(s[..i], t)
  {
    assert s[..i + 1][..i] == s[..i];
  }

  /** An item that is before everything the other side has left is not on the other side. */
  lemma NotShared<T(!new)>(x: T, t: seq<T>, j: nat, less: Less<T>)
    requires StrictTotal(less) && StrictlySorted(t, less) && j <= |t|
    requires forall k | 0 <= k < j :: less(t[k], x)
    requires j < |t| ==> less(x, t[j])
    ensures x !in t
  {
    forall k | 0 <= k < |t| ensures t[k] != x {
      assert !less(x, x);
      if k > j { assert less(t[j], t[k]); }
    }
  }

  /** The merge loop's state: everything passed on one side is before everything left on the other. */
  ghost predicate Merged<T>(u: seq<T>, v: seq<T>, i: nat, j: nat, less: Less<T>) {
    && i <= |u| && j <= |v|
    && (forall p, q | 0 <= p < i && j <= q < |v| :: less(u[p], v[q]))
    && (forall p, q | 0 <= p < j && i <= q < |u| :: less(v[p], u[q]))
  }

  lemma AdvanceFirst<T(!new)>(u: seq<T>, v: seq<T>, i: nat, j: nat, less: Less<T>)
    requires StrictTotal(less) && StrictlySorted(u, less) && StrictlySorted(v, less)
    requires Merged(u, v, i, j, less) && i < |u| && (j < |v| ==> less(u[i], v[j]))
    ensures Merged(u, v, i + 1, j, less) && u[i] !in v
  {
    NotShared(u[i], v, j, less);
    forall p, q | 0 <= p < i + 1 && j <= q < |v| ensures less(u[p], v[q]) {
      if p == i && q > j { assert less(v[j], v[q]); }
    }
  }

  lemma AdvanceBoth<T(!new)>(u: seq<T>, v: seq<T>, i: nat, j: nat, less: Less<T>)
    requires StrictTotal(less) && StrictlySorted(u, less) && StrictlySorted(v, less)
    requires Merged(u, v, i, j, less) && i < |u| && j < |v| && u[i] == v[j]
    ensures Merged(u, v, i + 1, j + 1, less)
  {
  }

  /** The merge loop's invariant: what it has passed, and what it has saved of that. */
  ghost predicate Saved<T(!new)>(u: seq<T>, v: seq<T>, i: nat, j: nat, less: Less<T>,
                                 onlyU: seq<T>, onlyV: seq<T>, both: seq<T>)
  {
    && Merged(u, v, i, j, less)
    && onlyU == Without(u[..i], v) && onlyV == Without(v[..j], u) && both == Common(u[..i], v)
  }

  lemma BothTaken<T(!new)>(u: seq<T>, v: seq<T>, i: nat, j: nat, less: Less<T>,
                           onlyU: seq<T>, onlyV: seq<T>, both: seq<T>)
    requires StrictTotal(less) && StrictlySorted(u, less) && StrictlySorted(v, less)
    requires Saved(u, v, i, j, less, onlyU, onlyV, both) && i < |u| && j < |v| && u[i] == v[j]
    ensures Saved(u, v, i + 1, j + 1, less, onlyU, onlyV, both + [u[i]])
  {
    AdvanceBoth(u, v, i, j, less);
    TakeOne(u, v, i);
    TakeOne(v, u, j);
  }

  lemma FirstTaken<T(!new)>(u: seq<T>, v: seq<T>, i: nat, j: nat, less: Less<T>,
                            onlyU: seq<T>, onlyV: seq<T>, both: seq<T>)
    requires StrictTotal(less) && StrictlySorted(u, less) && StrictlySorted(v, less)
    requires Saved(u, v, i, j, less, onlyU, onlyV, both) && i < |u| && (j < |v| ==> less(u[i], v[j]))
    ensures Saved(u, v, i + 1, j, less, onlyU + [u[i]], onlyV, both)
  {
    AdvanceFirst(u, v, i, j, less);
    TakeOne(u, v, i);
  }

  lemma SecondTaken<T(!new)>(u: seq<T>, v: seq<T>, i: nat, j: nat, less: Less<T>,
                             onlyU: seq<T>, onlyV: seq<T>, both: seq<T>)
    requires StrictTotal(less) && StrictlySorted(u, less) && StrictlySorted(v, less)
    requires Saved(u, v, i, j, less, onlyU, onlyV, both) && j < |v| && (i < |u| ==> less(v[j], u[i]))
    ensures Saved(u, v, i, j + 1, less, onlyU, onlyV + [v[j]], both)
  {
    AdvanceFirst(v, u, j, i, less);
    TakeOne(v, u, j);
  }

  /** Once the other side has run out, the rest of the first goes to its own result. */
  lemma {:induction false} FirstRestTaken<T(!new)>(u: seq<T>, v: seq<T>, i: nat, less: Less<T>,
                                                   onlyU: seq<T>, onlyV: seq<T>, both: seq<T>)
    requires StrictTotal(less) && StrictlySorted(u, less) && StrictlySorted(v, less)
    requires Saved(u, v, i, |v|, less, onlyU, onlyV, both)
    ensures onlyU + u[i..] == Without(u, v) && onlyV == Without(v, u) && both == Common(u, v)
    decreases |u| - i
  {
    if i < |u| {
      FirstTaken(u, v, i, |v|, less, onlyU, onlyV, both);
      FirstRestTaken(u, v, i + 1, less, onlyU + [u[i]], onlyV, both);
      assert onlyU + u[i..] == (onlyU + [u[i]]) + u[i + 1..];
    } else {
      assert u[..i] == u && v[..|v|] == v && onlyU + u[i..] == onlyU;
    }
  }

  lemma {:induction false} SecondRestTaken<T(!new)>(u: seq<T>, v: seq<T>, j: nat, less: Less<T>,
                                                    onlyU: seq<T>, onlyV: seq<T>, both: seq<T>)
    requires StrictTotal(less) && StrictlySorted(u, less) && StrictlySorted(v, less)
    requires Saved(u, v, |u|, j, less, onlyU, onlyV, both)
    ensures onlyU == Without(u, v) && onlyV + v[j..] == Without(v, u) && both == Common(u, v)
    decreases |v| - j
  {
    if j < |v| {
      SecondTaken(u, v, |u|, j, less, onlyU, onlyV, both);
      SecondRestTaken(u, v, j + 1, less, onlyU, onlyV + [v[j]], both);
      assert onlyV + v[j..] == (onlyV + [v[j]]) + v[j + 1..];
    } else {
      assert u[..|u|] == u && v[..j] == v && onlyV + v[j..] == onlyV;
    }
  }

  lemma RestTaken<T(!new)>(u: seq<T>, v: seq<T>, i: nat, j: nat, less: Less<T>,
                           onlyU: seq<T>, onlyV: seq<T>, both: seq<T>)
    requires StrictTotal(less) && StrictlySorted(u, less) && StrictlySorted(v, less)
    requires Saved(u, v, i, j, less, onlyU, onlyV, both) && (i == |u| || j == |v|)
    ensures onlyU + u[i..] == Without(u, v) && onlyV + v[j..] == Without(v, u) && both == Common(u, v)
  {
    if j == |v| {
      FirstRestTaken(u, v, i, less, onlyU, onlyV, both);
      assert onlyV + v[j..] == onlyV;
    } else {
      SecondRestTaken(u, v, j, less, onlyU, onlyV, both);
      assert onlyU + u[i..] == onlyU;
    }
  }

  lemma SliceOfPrefix<T>(s: seq<T>, from: nat, end: nat)
    requires from <= end <= |s|
    ensures s[from..end] == s[..end][from..]
  {
  }

  /** Anything left over is copied. */
  method CopyRest<T(==)>(from: Container<T>, it: nat, end: nat, to: Container<T>)
    requires it <= end <= |from.items| && from != to
    modifies to
    ensures to.items == old(to.items) + from.items[it..end]
  {
    for i := it to end
      invariant to.items == old(to.items) + from.items[it..i]
    {
      to.PushBack(from.items[i]);
    }
  }

  /** What stays on either side, and what both have. */
  datatype Parts<T> = Parts(onlyA: seq<T>, onlyB: seq<T>, both: seq<T>)

  function Joined<T>(p: Parts<T>, q: Parts<T>): Parts<T> {
    Parts(p.onlyA + q.onlyA, p.onlyB + q.onlyB, p.both + q.both)
  }

  /** Where each item goes, for any comparison and in any order. */
  function Divided<T(==)>(u: seq<T>, v: seq<T>, less: Less<T>): Parts<T>
    decreases |u| + |v|
  {
    if u == [] || v == [] then Parts(u, v, [])
    else if u[0] == v[0] then Joined(Parts([], [], [u[0]]), Divided(u[1..], v[1..], less))
    else if less(u[0], v[0]) then Joined(Parts([u[0]], [], []), Divided(u[1..], v, less))
    else Joined(Parts([], [v[0]], []), Divided(u, v[1..], less))
  }

  lemma JoinedTwice<T>(p: Parts<T>, q: Parts<T>, rest: Parts<T>)
    ensures Joined(p, Joined(q, rest)) == Joined(Joined(p, q), rest)
  {
  }

  /** One turn of the loop that divides the rests from `i` and `j` on. */
  lemma DividesOne<T>(u: seq<T>, v: seq<T>, i: nat, j: nat, less: Less<T>, done: Parts<T>)
    requires i < |u| && j < |v|
    ensures Joined(done, Divided(u[i..], v[j..], less))
         == if u[i] == v[j] then
              Joined(done.(both := done.both + [u[i]]), Divided(u[i + 1..], v[j + 1..], less))
            else if less(u[i], v[j]) then
              Joined(done.(onlyA := done.onlyA + [u[i]]), Divided(u[i + 1..], v[j..], less))
            else
              Joined(done.(onlyB := done.onlyB + [v[j]]), Divided(u[i..], v[j + 1..], less))
  {
    assert u[i..][1..] == u[i + 1..] && v[j..][1..] == v[j + 1..];
    var one := if u[i] == v[j] then Parts([], [], [u[i]]) else if less(u[i], v[j]) then Parts([u[i]], [], [])
               else Parts([], [v[j]], []);
    var rest := if u[i] == v[j] then Divided(u[i + 1..], v[j + 1..], less)
                else if less(u[i], v[j]) then Divided(u[i + 1..], v[j..], less)
                else Divided(u[i..], v[j + 1..], less);
    JoinedTwice(done, one, rest);
    NothingAdded(done);
  }

  lemma NothingAdded<T>(p: Parts<T>)
    ensures p.onlyA + [] == p.onlyA && p.onlyB + [] == p.onlyB && p.both + [] == p.both
  {
  }

  /** The loop in which the two sides run against each other. */
  method Merge<T(==)>(a: Container<T>, aEnd: nat, b: Container<T>, bEnd: nat, compare: Less<T>,
                      aUnique: Container<T>, bUnique: Container<T>, intersection: Container<T>)
    returns (i: nat, j: nat, ghost both: seq<T>)
    requires aEnd <= |a.items| && bEnd <= |b.items|
    requires a !in {aUnique, bUnique, intersection} && b !in {aUnique, bUnique, intersection}
    requires aUnique != bUnique && aUnique != intersection && bUnique != intersection
    requires aUnique.items == [] && bUnique.items == []
    modifies aUnique, bUnique, intersection
    ensures i <= aEnd && j <= bEnd && (i == aEnd || j == bEnd)
    ensures intersection.items == old(intersection.items) + both
    ensures Divided(a.items[..aEnd], b.items[..bEnd], compare)
         == Parts(aUnique.items + a.items[..aEnd][i..], bUnique.items + b.items[..bEnd][j..], both)
  {
    ghost var u, v := a.items[..aEnd], b.items[..bEnd];
    i, j, both := 0, 0, [];
    assert u[0..] == u && v[0..] == v;
    while i != aEnd && j != bEnd
      invariant i <= aEnd && j <= bEnd && intersection.items == old(intersection.items) + both
      invariant Divided(u, v, compare)
             == Joined(Parts(aUnique.items, bUnique.items, both), Divided(u[i..], v[j..], compare))
      decreases aEnd + bEnd - i - j
    {
      var x, y := a.items[i], b.items[j];
      DividesOne(u, v, i, j, compare, Parts(aUnique.items, bUnique.items, both));
      if x == y {
        intersection.PushBack(x);
        both := both + [x];
        i, j := i + 1, j + 1;
      } else if compare(x, y) {
        aUnique.PushBack(x);
        i := i + 1;
      } else {
        bUnique.PushBack(y);
        j := j + 1;
      }
    }
    NothingAdded(Parts(aUnique.items, bUnique.items, both));
  }

  /** The merge loop and the two loops after it. */
  method Distribute<T(==)>(a: Container<T>, aEnd: nat, b: Container<T>, bEnd: nat, compare: Less<T>,
                           aUnique: Container<T>, bUnique: Container<T>, intersection: Container<T>)
    requires aEnd <= |a.items| && bEnd <= |b.items|
    requires a !in {aUnique, bUnique, intersection} && b !in {aUnique, bUnique, intersection}
    requires aUnique != bUnique && aUnique != intersection && bUnique != intersection
    requires aUnique.items == [] && bUnique.items == []
    modifies aUnique, bUnique, intersection
    ensures var d := Divided(a.items[..aEnd], b.items[..bEnd], compare);
      aUnique.items == d.onlyA && bUnique.items == d.onlyB && intersection.items == old(intersection.items) + d.both
  {
    var i, j, both := Merge(a, aEnd, b, bEnd, compare, aUnique, bUnique, intersection);
    SliceOfPrefix(a.items, i, aEnd);
    SliceOfPrefix(b.items, j, bEnd);
    CopyRest(a, i, aEnd, aUnique);
    CopyRest(b, j, bEnd, bUnique);
  }

  /** For any inputs and any comparison; module members below say what it amounts to for sorted inputs. */
  method RepartitionIntersection<T(==)>(sortedA: Container<T>, sortedB: Container<T>,
                                        intersection: Container<T>, compare: Less<T>)
    requires sortedA != sortedB && sortedA != intersection && sortedB != intersection
    modifies sortedA, sortedB, intersection
    ensures var d := Divided(Deduped(old(sortedA.items)), Deduped(old(sortedB.items)), compare);
      && sortedA.items == d.onlyA && sortedB.items == d.onlyB
      && intersection.items == old(intersection.items) + d.both
  {
    var aEnd := sortedA.Unique();
    var bEnd := sortedB.Unique();
    var aUnique := new Container<T>([]);
    var bUnique := new Container<T>([]);
    Distribute(sortedA, aEnd, sortedB, bEnd, compare, aUnique, bUnique, intersection);
    sortedA.items, aUnique.items := aUnique.items, sortedA.items;
    sortedB.items, bUnique.items := bUnique.items, sortedB.items;
  }

  /** Whatever the comparison, no item is lost or made up. */
  lemma FrontCounts<T>(s: seq<T>)
    requires s != []
    ensures multiset(s) == multiset{s[0]} + multiset(s[1..])
  {
    assert s == [s[0]] + s[1..];
  }

  lemma {:induction false} DividedKeepsAll<T>(u: seq<T>, v: seq<T>, less: Less<T>)
    ensures var d := Divided(u, v, less);
      multiset(d.onlyA) + multiset(d.both) == multiset(u) && multiset(d.onlyB) + multiset(d.both) == multiset(v)
    decreases |u| + |v|
  {
    if u != [] && v != [] {
      FrontCounts(u);
      FrontCounts(v);
      if u[0] == v[0] { DividedKeepsAll(u[1..], v[1..], less); }
      else if less(u[0], v[0]) { DividedKeepsAll(u[1..], v, less); }
      else { DividedKeepsAll(u, v[1..], less); }
    }
  }

  lemma {:induction false} DividedFrom<T(!new)>(u: seq<T>, v: seq<T>, i: nat, j: nat, less: Less<T>, done: Parts<T>)
    requires StrictTotal(less) && StrictlySorted(u, less) && StrictlySorted(v, less)
    requires Saved(u, v, i, j, less, done.onlyA, done.onlyB, done.both)
    ensures Joined(done, Divided(u[i..], v[j..], less)) == Parts(Without(u, v), Without(v, u), Common(u, v))
    decreases |u| - i + |v| - j
  {
    if i == |u| || j == |v| {
      RestTaken(u, v, i, j, less, done.onlyA, done.onlyB, done.both);
      NothingAdded(done);
    } else {
      DividesOne(u, v, i, j, less, done);
      if u[i] == v[j] {
        BothTaken(u, v, i, j, less, done.onlyA, done.onlyB, done.both);
        DividedFrom(u, v, i + 1, j + 1, less, done.(both := done.both + [u[i]]));
      } else if less(u[i], v[j]) {
        FirstTaken(u, v, i, j, less, done.onlyA, done.onlyB, done.both);
        DividedFrom(u, v, i + 1, j, less, done.(onlyA := done.onlyA + [u[i]]));
      } else {
        SecondTaken(u, v, i, j, less, done.onlyA, done.onlyB, done.both);
        DividedFrom(u, v, i, j + 1, less, done.(onlyB := done.onlyB + [v[j]]));
      }
    }
  }

  /** In strict order, the division is by membership. */
  lemma DividedIsExact<T(!new)>(u: seq<T>, v: seq<T>, less: Less<T>)
    requires StrictTotal(less) && StrictlySorted(u, less) && StrictlySorted(v, less)
    ensures Divided(u, v, less) == Parts(Without(u, v), Without(v, u), Common(u, v))
  {
    assert u[..0] == [] && v[..0] == [] && u[0..] == u && v[0..] == v;
    DividedFrom(u, v, 0, 0, less, Parts([], [], []));
    JoinedNothing(Divided(u, v, less));
  }

  lemma JoinedNothing<T>(p: Parts<T>)
    ensures Joined(Parts([], [], []), p) == p
  {
  }

  // ---- what the three results are

  lemma {:induction false} DedupedIsStrict<T(!new)>(s: seq<T>, less: Less<T>)
    requires StrictTotal(less) && Sorted(s, less)
    ensures StrictlySorted(Deduped(s), less)
    ensures forall x :: x in Deduped(s) <==> x in s
    ensures s != [] ==> Deduped(s) != [] && Deduped(s)[|Deduped(s)| - 1] == s[|s| - 1]
  {
    if s != [] {
      var n := |s| - 1;
      DedupedIsStrict(s[..n], less);
      assert s == s[..n] + [s[n]];
      if n > 0 && s[n - 1] != s[n] {
        var d := Deduped(s[..n]);
        assert less(d[|d| - 1], s[n]);
        forall k | 0 <= k < |d| ensures less(d[k], s[n]) {
          if k < |d| - 1 { assert less(d[k], d[|d| - 1]); }
        }
      }
    }
  }

  lemma {:induction false} FilteredElements<T(!new)>(s: seq<T>, t: seq<T>)
    ensures forall x :: x in Without(s, t) <==> x in s && x !in t
    ensures forall x :: x in Common(s, t) <==> x in s && x in t
  {
    if s != [] {
      FilteredElements(s[..|s| - 1], t);
      assert s == s[..|s| - 1] + [s[|s| - 1]];
    }
  }

  lemma {:induction false} FilteredIsSorted<T(!new)>(s: seq<T>, t: seq<T>, less: Less<T>)
    requires StrictlySorted(s, less)
    ensures StrictlySorted(Without(s, t), less) && StrictlySorted(Common(s, t), less)
  {
    if s != [] {
      var n := |s| - 1;
      FilteredIsSorted(s[..n], t, less);
      FilteredElements(s[..n], t);
      forall k | 0 <= k < |Without(s[..n], t)| ensures less(Without(s[..n], t)[k], s[n]) {
        assert Without(s[..n], t)[k] in s[..n];
      }
      forall k | 0 <= k < |Common(s[..n], t)| ensures less(Common(s[..n], t)[k], s[n]) {
        assert Common(s[..n], t)[k] in s[..n];
      }
    }
  }

  /** For sorted inputs, duplicates allowed, the results are strictly sorted, they are the two
      differences and the intersection, no element is in two of them, and together they hold every
      element. */
  lemma Repartitioned<T(!new)>(a: seq<T>, b: seq<T>, less: Less<T>)
    requires StrictTotal(less) && Sorted(a, less) && Sorted(b, less)
    ensures var d := Divided(Deduped(a), Deduped(b), less);
      && StrictlySorted(d.onlyA, less) && StrictlySorted(d.onlyB, less) && StrictlySorted(d.both, less)
      && (forall x :: x in d.onlyA <==> x in a && x !in b)
      && (forall x :: x in d.onlyB <==> x in b && x !in a)
      && (forall x :: x in d.both <==> x in a && x in b)
  {
    DedupedIsStrict(a, less);
    DedupedIsStrict(b, less);
    DividedIsExact(Deduped(a), Deduped(b), less);
    FilteredElements(Deduped(a), Deduped(b));
    FilteredElements(Deduped(b), Deduped(a));
    FilteredIsSorted(Deduped(a), Deduped(b), less);
    FilteredIsSorted(Deduped(b), Deduped(a), less);
  }
}
