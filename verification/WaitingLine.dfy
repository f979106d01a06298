/** The waiting line that both schedulers of gateway/modelCapacity.ts keep: one queue per
    user (`pendingByUser`) and the round-robin order of the users (`waitingUsers`). */
module WaitingLine {
  import opened Sums
  import opened Counters

  /** A request that waits; `lane` tells the two classes of the MiMo scheduler apart. */
  datatype Waiter<L> = Waiter(id: Id, user: Name, token: Name, lane: L)

  type Queues<L> = map<Name, seq<Waiter<L>>>

  /** `order` is the iteration order of `pendingByUser`, a JavaScript Map: a user goes to
      its end when its queue is created and leaves it when the queue is deleted. */
  datatype Line<L> = Line(pending: Queues<L>, order: seq<Name>, waiting: seq<Name>)

  function Queue<L>(line: Line<L>, user: Name): seq<Waiter<L>> {
    if user in line.pending then line.pending[user] else []
  }

  ghost predicate Lists<L>(users: seq<Name>, pending: Queues<L>) {
    Distinct(users) && forall u :: u in users <==> u in pending
  }

  /** Both lists hold, without duplicates, exactly the users with a non-empty queue. */
  ghost predicate WellQueued<L(!new)>(line: Line<L>) {
    && Lists(line.waiting, line.pending)
    && Lists(line.order, line.pending)
    && (forall u :: u in line.pending ==> line.pending[u] != [])
  }

  function Without<T>(xs: seq<T>, i: nat): seq<T>
    requires i < |xs|
  {
    xs[..i] + xs[i + 1..]
  }

  /** Takes a user out of a list of users, as indexOf and splice do. */
  function Drop(users: seq<Name>, user: Name): seq<Name> {
    var i := IndexOf(users, user);
    if i < |users| then Without(users, i) else users
  }

  // ---- Operations ----

  function Enqueue<L>(line: Line<L>, w: Waiter<L>): Line<L> {
    if w.user in line.pending
    then line.(pending := line.pending[w.user := line.pending[w.user] + [w]])
    else Line(line.pending[w.user := [w]], line.order + [w.user], line.waiting + [w.user])
  }

  /** Serves the i-th request of the k-th user, who goes last if more of its work waits. */
  function ServeAt<L>(line: Line<L>, k: nat, i: nat): Line<L>
    requires k < |line.waiting| && i < |Queue(line, line.waiting[k])|
  {
    var user := line.waiting[k];
    var rest := Without(line.pending[user], i);
    var others := line.waiting[k + 1..] + line.waiting[..k];
    if rest != [] then Line(line.pending[user := rest], line.order, others + [user])
    else Line(line.pending - {user}, Drop(line.order, user), others)
  }

  /** Takes a request out of the line without serving it. */
  function Remove<L>(line: Line<L>, user: Name, i: nat): Line<L>
    requires i < |Queue(line, user)|
  {
    var rest := Without(line.pending[user], i);
    if rest != [] then line.(pending := line.pending[user := rest])
    else Line(line.pending - {user}, Drop(line.order, user), Drop(line.waiting, user))
  }

  function Position<L>(q: seq<Waiter<L>>, id: Id): (i: nat)
    ensures i <= |q|
    ensures i < |q| ==> q[i].id == id
    ensures forall j :: 0 <= j < i ==> q[j].id != id
  {
    if q == [] || q[0].id == id then 0 else 1 + Position(q[1..], id)
  }

  predicate IsPending<L>(line: Line<L>, user: Name, id: Id) {
    Position(Queue(line, user), id) < |Queue(line, user)|
  }

  // ---- How many requests wait ----

  function Lengths<L>(pending: Queues<L>): map<Name, int> {
    map u | u in pending :: |pending[u]|
  }

  ghost function Queued<L>(line: Line<L>): int { Total(Lengths(line.pending)) }

  function InLane<L(==)>(q: seq<Waiter<L>>, lane: L): nat {
    if q == [] then 0 else (if q[0].lane == lane then 1 else 0) + InLane(q[1..], lane)
  }

  function LaneLengths<L(==)>(pending: Queues<L>, lane: L): map<Name, int> {
    map u | u in pending :: InLane(pending[u], lane)
  }

  ghost function LaneQueued<L>(line: Line<L>, lane: L): int { Total(LaneLengths(line.pending, lane)) }

  lemma {:induction false} InLaneWithout<L>(q: seq<Waiter<L>>, i: nat, lane: L)
    requires i < |q|
    ensures InLane(q, lane) == InLane(Without(q, i), lane) + if q[i].lane == lane then 1 else 0
  {
    if i == 0 {
      assert Without(q, 0) == q[1..];
    } else {
      InLaneWithout(q[1..], i - 1, lane);
      assert Without(q, i) == [q[0]] + Without(q[1..], i - 1);
    }
  }

  lemma {:induction false} InLaneAppend<L>(q: seq<Waiter<L>>, w: Waiter<L>, lane: L)
    ensures InLane(q + [w], lane) == InLane(q, lane) + if w.lane == lane then 1 else 0
  {
    if q != [] {
      InLaneAppend(q[1..], w, lane);
      assert q + [w] == [q[0]] + (q[1..] + [w]);
    }
  }

  /** A change of one user's queue changes the totals by what that queue gains or loses. */
  lemma QueuedChange<L>(a: Line<L>, b: Line<L>, user: Name, lane: L)
    requires a.pending - {user} == b.pending - {user}
    ensures Queued(b) - |Queue(b, user)| == Queued(a) - |Queue(a, user)|
    ensures LaneQueued(b, lane) - InLane(Queue(b, user), lane) == LaneQueued(a, lane) - InLane(Queue(a, user), lane)
  {
    QueuedSplit(a, user, lane);
    QueuedSplit(b, user, lane);
  }

  lemma QueuedSplit<L>(a: Line<L>, user: Name, lane: L)
    ensures Queued(a) == |Queue(a, user)| + Total(Lengths(a.pending - {user}))
    ensures LaneQueued(a, lane) == InLane(Queue(a, user), lane) + Total(LaneLengths(a.pending - {user}, lane))
  {
    assert Lengths(a.pending) - {user} == Lengths(a.pending - {user});
    assert LaneLengths(a.pending, lane) - {user} == LaneLengths(a.pending - {user}, lane);
    if user in a.pending {
      TotalSplit(Lengths(a.pending), user);
      TotalSplit(LaneLengths(a.pending, lane), user);
    } else {
      assert a.pending - {user} == a.pending;
    }
  }

  lemma QueuedNonNegative<L>(a: Line<L>, lane: L)
    ensures 0 <= Queued(a) && 0 <= LaneQueued(a, lane)
  {
    TotalNonNegative(Lengths(a.pending));
    TotalNonNegative(LaneLengths(a.pending, lane));
  }

  lemma NothingQueued<L>(lane: L)
    ensures Queued(Line<L>.Line(map[], [], [])) == 0 && LaneQueued(Line<L>.Line(map[], [], []), lane) == 0
  {
    var none: Queues<L> := map[];
    assert Lengths(none) == map[];
    assert LaneLengths(none, lane) == map[];
  }

  // ---- The line keeps its shape ----

  lemma EmptyWellQueued<L(!new)>()
    ensures WellQueued(Line<L>.Line(map[], [], []))
  {
  }

  lemma DropLists<L>(users: seq<Name>, pending: Queues<L>, user: Name)
    requires Lists(users, pending)
    ensures Lists(Drop(users, user), pending - {user})
  {
    hide Distinct;
    var i := IndexOf(users, user);
    if i < |users| { DistinctRemove(users, i); }
  }

  lemma AppendLists<L>(users: seq<Name>, pending: Queues<L>, user: Name, q: seq<Waiter<L>>)
    requires Lists(users, pending) && user !in pending
    ensures Lists(users + [user], pending[user := q])
  {
    assert user !in users;
  }

  lemma EnqueueAppends<L>(line: Line<L>, w: Waiter<L>)
    ensures Enqueue(line, w).pending - {w.user} == line.pending - {w.user}
    ensures forall u :: Queue(Enqueue(line, w), u) == if u == w.user then Queue(line, u) + [w] else Queue(line, u)
  {
  }

  lemma EnqueueKeepsLine<L(!new)>(line: Line<L>, w: Waiter<L>)
    requires WellQueued(line)
    ensures WellQueued(Enqueue(line, w))
  {
    if w.user !in line.pending {
      AppendLists(line.waiting, line.pending, w.user, [w]);
      AppendLists(line.order, line.pending, w.user, [w]);
    }
  }

  lemma ServeAtKeepsLine<L(!new)>(line: Line<L>, k: nat, i: nat)
    requires WellQueued(line) && k < |line.waiting| && i < |Queue(line, line.waiting[k])|
    ensures WellQueued(ServeAt(line, k, i))
  {
    var user := line.waiting[k];
    DistinctRotate(line.waiting, k, |line.pending[user]| > 1);
    DropLists(line.order, line.pending, user);
  }

  lemma RemoveKeepsLine<L(!new)>(line: Line<L>, user: Name, i: nat)
    requires WellQueued(line) && i < |Queue(line, user)|
    ensures WellQueued(Remove(line, user, i))
  {
    DropLists(line.order, line.pending, user);
    DropLists(line.waiting, line.pending, user);
  }

  // ---- Places in the line ----

  lemma IndexAtMost<T>(xs: seq<T>, x: T, q: nat)
    requires q < |xs| && xs[q] == x
    ensures IndexOf(xs, x) <= q
  {
    hide IndexOf;
    forall j | 0 <= j < IndexOf(xs, x) ensures xs[j] != x { assert xs[..IndexOf(xs, x)][j] == xs[j]; }
  }

  lemma WithoutShifts(v: seq<Name>, i: nat, p: nat)
    requires i < |v| && p < |v| && i != p
    ensures IndexOf(Without(v, i), v[p]) <= p
  {
    hide IndexOf;
    IndexAtMost(Without(v, i), v[p], if p > i then p - 1 else p);
  }

  lemma DropNeverPushes(v: seq<Name>, gone: Name, user: Name)
    requires user in v && gone != user
    ensures IndexOf(Drop(v, gone), user) <= IndexOf(v, user)
  {
    var i, p := IndexOf(v, gone), IndexOf(v, user);
    hide IndexOf, Without;
    if i < |v| { WithoutShifts(v, i, p); }
  }

  lemma DropForgets(v: seq<Name>, user: Name)
    requires Distinct(v)
    ensures user !in Drop(v, user)
  {
    var i := IndexOf(v, user);
    if i < |v| { DistinctRemove(v, i); }
  }

  // ---- The names in the line ----

  /** The i-th request in the queue of `user` is the one named `id`. */
  predicate WaitsAt<L>(line: Line<L>, user: Name, i: nat, id: Id) {
    i < |Queue(line, user)| && Queue(line, user)[i].id == id
  }

  /** A request waits in one place at most, in its own user's queue, and only while its
      promise is open. */
  ghost predicate Named<L(!new)>(line: Line<L>, settled: map<Id, Outcome>, next: Id) {
    && (forall u, i: nat, id: Id {:trigger WaitsAt(line, u, i, id)} :: WaitsAt(line, u, i, id) ==>
          Queue(line, u)[i].user == u && id < next && id !in settled)
    && (forall u, i: nat, v, j: nat, id: Id {:trigger WaitsAt(line, u, i, id), WaitsAt(line, v, j, id)} ::
          WaitsAt(line, u, i, id) && WaitsAt(line, v, j, id) ==> u == v && i == j)
  }

  lemma EmptyNamed<L(!new)>()
    ensures Named(Line<L>.Line(map[], [], []), map[], 0)
  {
    var line: Line<L> := Line(map[], [], []);
    forall u, i: nat, id: Id ensures !WaitsAt(line, u, i, id) {
    }
  }

  /** Settling fresh requests leaves the names in the line alone. */
  lemma SettleKeepsNamed<L(!new)>(line: Line<L>, settled: map<Id, Outcome>, next: Id, o: Outcome)
    requires Named(line, settled, next)
    ensures Named(line, settled[next := o], next + 1)
  {
  }

  lemma EnqueueKeepsNamed<L(!new)>(line: Line<L>, settled: map<Id, Outcome>, w: Waiter<L>)
    requires Named(line, settled, w.id) && w.id !in settled
    ensures Named(Enqueue(line, w), settled, w.id + 1)
  {
    var b := Enqueue(line, w);
    forall u, i: nat, id: Id | WaitsAt(b, u, i, id)
      ensures WaitsAt(line, u, i, id) || (u == w.user && i == |Queue(line, u)| && id == w.id)
    {
    }
  }

  /** A request that leaves the line and settles leaves every other name in place. */
  lemma LeaveKeepsNamed<L(!new)>(line: Line<L>, b: Line<L>, settled: map<Id, Outcome>, next: Id, user: Name,
                                 gone: nat, o: Outcome)
    requires Named(line, settled, next) && gone < |Queue(line, user)|
    requires forall v :: Queue(b, v) == if v == user then Without(Queue(line, v), gone) else Queue(line, v)
    ensures Named(b, settled[Queue(line, user)[gone].id := o], next)
    ensures Queue(line, user)[gone].id < next && Queue(line, user)[gone].id !in settled
    ensures Queue(line, user)[gone].user == user
  {
    assert WaitsAt(line, user, gone, Queue(line, user)[gone].id);
    forall u, i: nat, id: Id | WaitsAt(b, u, i, id)
      ensures WaitsAt(line, u, if u == user && i >= gone then i + 1 else i, id)
    {
    }
  }
}
