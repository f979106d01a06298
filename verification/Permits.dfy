/** The counters of active work that both schedulers of gateway/modelCapacity.ts keep, and
    the permits they count: a permit is held until its closure's `released` flag is set. */
module Permits {
  import opened Counters

  datatype Holder<L> = Holder(user: Name, token: Name, lane: L)

  datatype Tally<L> = Tally(active: nat, byUser: Counter, byToken: Counter, held: map<Id, Holder<L>>)

  function Grant<L>(t: Tally<L>, id: Id, h: Holder<L>): Tally<L> {
    Tally(t.active + 1, Inc(t.byUser, h.user), Inc(t.byToken, h.token), t.held[id := h])
  }

  function Free<L>(t: Tally<L>, id: Id): Tally<L>
    requires id in t.held
  {
    var h := t.held[id];
    Tally(if t.active > 0 then t.active - 1 else 0, Dec(t.byUser, h.user), Dec(t.byToken, h.token), t.held - {id})
  }

  function OfUser<L>(held: map<Id, Holder<L>>, user: Name): set<Id> {
    set id | id in held && held[id].user == user
  }

  function OfToken<L>(held: map<Id, Holder<L>>, token: Name): set<Id> {
    set id | id in held && held[id].token == token
  }

  /** The counters are the truth: they equal the numbers of held permits. */
  ghost predicate Counted<L>(t: Tally<L>) {
    && t.active == |t.held|
    && (forall n: Name :: Count(t.byUser, n) == |OfUser(t.held, n)|)
    && (forall n: Name :: Count(t.byToken, n) == |OfToken(t.held, n)|)
  }

  lemma NothingCounted<L>()
    ensures Counted(Tally<L>.Tally(0, map[], map[], map[]))
  {
    var none: map<Id, Holder<L>> := map[];
    forall n: Name ensures |OfUser(none, n)| == 0 && |OfToken(none, n)| == 0 {
      assert OfUser(none, n) == {} && OfToken(none, n) == {};
    }
  }

  lemma UserInsert<L>(held: map<Id, Holder<L>>, id: Id, h: Holder<L>, n: Name)
    requires id !in held
    ensures |OfUser(held[id := h], n)| == |OfUser(held, n)| + if h.user == n then 1 else 0
  {
    var after := held[id := h];
    if h.user == n { assert OfUser(after, n) == OfUser(held, n) + {id}; }
    else { assert OfUser(after, n) == OfUser(held, n); }
  }

  lemma TokenInsert<L>(held: map<Id, Holder<L>>, id: Id, h: Holder<L>, n: Name)
    requires id !in held
    ensures |OfToken(held[id := h], n)| == |OfToken(held, n)| + if h.token == n then 1 else 0
  {
    var after := held[id := h];
    if h.token == n { assert OfToken(after, n) == OfToken(held, n) + {id}; }
    else { assert OfToken(after, n) == OfToken(held, n); }
  }

  lemma HeldRemove<L>(held: map<Id, Holder<L>>, id: Id, n: Name)
    requires id in held
    ensures |OfUser(held - {id}, n)| == |OfUser(held, n)| - if held[id].user == n then 1 else 0
    ensures |OfToken(held - {id}, n)| == |OfToken(held, n)| - if held[id].token == n then 1 else 0
  {
    assert OfUser(held - {id}, n) == OfUser(held, n) - {id};
    assert OfToken(held - {id}, n) == OfToken(held, n) - {id};
  }

  lemma GrantKeepsCounted<L>(t: Tally<L>, id: Id, h: Holder<L>)
    requires Counted(t) && id !in t.held
    ensures Counted(Grant(t, id, h))
  {
    forall n: Name
      ensures Count(Inc(t.byUser, h.user), n) == |OfUser(t.held[id := h], n)|
      ensures Count(Inc(t.byToken, h.token), n) == |OfToken(t.held[id := h], n)|
    {
      UserInsert(t.held, id, h, n);
      TokenInsert(t.held, id, h, n);
    }
  }

  lemma FreeKeepsCounted<L>(t: Tally<L>, id: Id)
    requires Counted(t) && id in t.held
    ensures Counted(Free(t, id))
    ensures t.active > 0
    ensures forall n: Name :: Count(Free(t, id).byUser, n) == Count(t.byUser, n) - if n == t.held[id].user then 1 else 0
    ensures forall n: Name ::
              Count(Free(t, id).byToken, n) == Count(t.byToken, n) - if n == t.held[id].token then 1 else 0
  {
    var h := t.held[id];
    forall n: Name
      ensures Count(Dec(t.byUser, h.user), n) == |OfUser(t.held - {id}, n)|
              == Count(t.byUser, n) - if n == h.user then 1 else 0
      ensures Count(Dec(t.byToken, h.token), n) == |OfToken(t.held - {id}, n)|
              == Count(t.byToken, n) - if n == h.token then 1 else 0
    {
      HeldRemove(t.held, id, n);
    }
  }
}
