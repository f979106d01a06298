/** What the two schedulers of gateway/modelCapacity.ts share: counter maps whose
    missing entries read as zero, optional bounds and the outcome of a request. */
module Counters {

  /** Users and tokens are only ever compared for equality, so a number stands for each
      string; zero stands for the empty string, the one the code treats as absent. */
  type Name = nat

  /** A request is named by the order of its arrival. */
  type Id = nat

  datatype Bound = AtMost(limit: nat) | Unbounded {
    predicate Reached(x: int) { AtMost? && x >= limit }
    predicate Allows(x: int) { AtMost? ==> x <= limit }
  }

  /** How the promise of one request settled. */
  datatype Outcome = Granted | Rejected(status: nat)

  type Counter = map<Name, nat>

  function Count(m: Counter, k: Name): nat { if k in m then m[k] else 0 }

  function Inc(m: Counter, k: Name): (r: Counter)
    ensures forall j :: Count(r, j) == Count(m, j) + if j == k then 1 else 0
  {
    m[k := Count(m, k) + 1]
  }

  function Dec(m: Counter, k: Name): (r: Counter)
    ensures forall j :: Count(r, j) == if j == k && Count(m, j) > 0 then Count(m, j) - 1 else Count(m, j)
  {
    var current := if k in m then m[k] else 1;
    var next := if current > 0 then current - 1 else 0;
    if next == 0 then m - {k} else m[k := next]
  }

  predicate Distinct<T(==)>(xs: seq<T>) {
    forall i, j :: 0 <= i < j < |xs| ==> xs[i] != xs[j]
  }

  /** Taking one element out of a duplicate-free list and optionally putting it back last. */
  lemma DistinctRotate<T>(xs: seq<T>, k: nat, back: bool)
    requires Distinct(xs) && k < |xs|
    ensures var ys := xs[k + 1..] + xs[..k] + (if back then [xs[k]] else []);
            && Distinct(ys)
            && (forall x :: x in ys <==> x in xs && (back || x != xs[k]))
  {
  }

  lemma DistinctRemove<T>(xs: seq<T>, k: nat)
    requires Distinct(xs) && k < |xs|
    ensures Distinct(xs[..k] + xs[k + 1..])
    ensures forall x :: x in xs[..k] + xs[k + 1..] <==> x in xs && x != xs[k]
  {
  }

  /** A list after its first k elements went to the end one by one. */
  function Turned<T>(xs: seq<T>, k: nat): seq<T>
    requires k <= |xs|
  {
    xs[k..] + xs[..k]
  }

  lemma TurnOnce<T>(xs: seq<T>, k: nat)
    requires k < |xs|
    ensures Turned(xs, k) == [xs[k]] + (xs[k + 1..] + xs[..k])
    ensures xs[k + 1..] + xs[..k] + [xs[k]] == Turned(xs, k + 1)
  {
    assert xs[k..] == [xs[k]] + xs[k + 1..] && xs[..k + 1] == xs[..k] + [xs[k]];
  }

  lemma TurnedFully<T>(xs: seq<T>)
    ensures Turned(xs, 0) == Turned(xs, |xs|) == xs
  {
  }

  function IndexOf<T(==)>(xs: seq<T>, x: T): (i: nat)
    ensures i <= |xs|
    ensures i < |xs| ==> xs[i] == x
    ensures x !in xs[..i]
    ensures i == |xs| <==> x !in xs
  {
    if xs == [] then 0
    else if xs[0] == x then 0
    else
      assert xs == [xs[0]] + xs[1..];
      var i := 1 + IndexOf(xs[1..], x);
      assert xs[..i] == [xs[0]] + xs[1..][..i - 1];
      i
  }

  /** Later settlements contain the earlier ones unchanged. */
  ghost predicate Extends(a: map<Id, Outcome>, b: map<Id, Outcome>) {
    forall id :: id in a ==> id in b && b[id] == a[id]
  }

  lemma ExtendsFresh(a: map<Id, Outcome>, id: Id, o: Outcome)
    requires id !in a
    ensures Extends(a, a[id := o])
  {
  }

  lemma ExtendsInsert(a: map<Id, Outcome>, b: map<Id, Outcome>, id: Id, o: Outcome)
    requires Extends(a[id := o], b) && id !in a
    ensures Extends(a, b)
  {
    forall x | x in a ensures x in b && b[x] == a[x] { assert x in a[id := o]; }
  }
}
