/** The collision phase of a tick on string ids: the pair keys of the handled set, the
    records stored under their own ids, and the player pass of one player against the
    others told on the bookkeeping alone. */
module PhysicsPairs {
  import opened Types
  import opened PhysicsCommon
  import opened PhysicsPlayer
  import opened PairOrder

  /** The pair keys of the handled set determine their two ids. (Ids containing the
      separator can break this.) */
  ghost predicate PairKeysDistinct(ids: seq<string>) {
    KeysDistinct(PairKey, ids)
  }

  /** Every key of `order` holds a record with that id. */
  ghost predicate IdsAreKeys(players: map<string, Player>, order: seq<string>) {
    forall k :: k in order ==> k in players && players[k].id == k
  }

  /** A key order without repeated keys has no element twice. */
  lemma DistinctUnique(s: seq<string>)
    requires Distinct(s)
    ensures Unique(s)
  {
  }

  /** Only the ids matter to IdsAreKeys. */
  lemma IdsKept(a: map<string, Player>, b: map<string, Player>, order: seq<string>)
    requires IdsAreKeys(a, order) && SameIds(a, b)
    ensures IdsAreKeys(b, order)
  {
  }

  /** For records stored under their own ids, the handled set and the collision list of
      a player pass are its bookkeeping, and the ids stay the keys. */
  lemma {:induction false} PlayerPassBooks(cs: Callees, s: PassState, self: string,
                                           others: seq<string>, dt: real)
    requires IdsAreKeys(s.players, [self] + others) && 0.0 < dt
    ensures var r := PlayerPass(cs, s, self, others, dt);
      && Books(r.handled, r.collided)
         == BooksPass(PairKey, Books(s.handled, s.collided), self, others)
      && IdsAreKeys(r.players, [self] + others)
    decreases |others|
  {
    assert self in [self] + others;
    var r := PlayerPass(cs, s, self, others, dt);
    if |others| > 0 {
      var init, last := others[..|others| - 1], others[|others| - 1];
      assert forall k :: k in [self] + init ==> k in [self] + others;
      assert last in [self] + others;
      PlayerPassBooks(cs, s, self, init, dt);
      var prev := PlayerPass(cs, s, self, init, dt);
      assert r == PlayerStep(cs, prev, self, last, dt);
      assert prev.players[self].id == self && prev.players[last].id == last;
      PlayerStepBooks(cs, prev, self, last, dt);
    }
    IdsKept(s.players, r.players, [self] + others);
  }
}
