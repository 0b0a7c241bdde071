/**
 * A player's hand: a counter holding one integer per resource kind, with
 * all-or-nothing withdrawal.
 */
module CatanPlayer {
  import opened CatanResources

  type Counts = map<Resource, int>

  /** A count is held for every resource kind. */
  predicate Total(h: Counts) {
    forall r: Resource :: r in h
  }

  predicate NonNegative(m: map<Resource, int>) {
    forall r :: r in m ==> m[r] >= 0
  }

  /** The quantity a request lists for `r`; an unlisted resource is zero. */
  function Amount(m: map<Resource, int>, r: Resource): int {
    if r in m then m[r] else 0
  }

  /** The counts after adding each listed quantity. */
  function Credit(h: Counts, m: map<Resource, int>): (c: Counts)
    ensures c.Keys == h.Keys
  {
    map r | r in h :: h[r] + Amount(m, r)
  }

  /** The counts after taking each listed quantity away. */
  function Deduct(h: Counts, m: map<Resource, int>): (c: Counts)
    ensures c.Keys == h.Keys
  {
    map r | r in h :: h[r] - Amount(m, r)
  }

  /** Every listed quantity is at most the count held. */
  predicate Covers(h: Counts, m: map<Resource, int>)
    requires Total(h)
  {
    forall r :: r in m ==> m[r] <= h[r]
  }

  /** Taking away what was just added restores the counts. */
  lemma DeductUndoesCredit(h: Counts, m: map<Resource, int>)
    ensures Deduct(Credit(h, m), m) == h
  {
    var c := Credit(h, m);
    assert forall r :: r in h ==> Deduct(c, m)[r] == c[r] - Amount(m, r) == h[r];
  }

  /** Adding back what was just taken restores the counts. */
  lemma CreditUndoesDeduct(h: Counts, m: map<Resource, int>)
    ensures Credit(Deduct(h, m), m) == h
  {
    var d := Deduct(h, m);
    assert forall r :: r in h ==> Credit(d, m)[r] == d[r] + Amount(m, r) == h[r];
  }

  /** After adding non-negative quantities, the same quantities can be taken. */
  lemma CreditCovers(h: Counts, m: map<Resource, int>)
    requires Total(h) && NonNegative(h) && NonNegative(m)
    ensures Total(Credit(h, m)) && Covers(Credit(h, m), m)
  {
  }

  /** An all-or-nothing withdrawal never drives a count below zero. */
  lemma DeductKeepsNonNegative(h: Counts, m: map<Resource, int>)
    requires Total(h) && NonNegative(h) && Covers(h, m)
    ensures NonNegative(Deduct(h, m))
  {
    forall r | r in Deduct(h, m) ensures Deduct(h, m)[r] >= 0 {
      if r in m {
        assert m[r] <= h[r];
      }
    }
  }

  /** Adding non-negative quantities keeps every count non-negative. */
  lemma CreditKeepsNonNegative(h: Counts, m: map<Resource, int>)
    requires NonNegative(h) && NonNegative(m)
    ensures NonNegative(Credit(h, m))
  {
  }

  /** The effect of listing the first `done` keys, one more key at a time. */
  lemma CreditStep(h: Counts, m: map<Resource, int>, todo: set<Resource>, r: Resource)
    requires r in todo && r in m && r in h
    ensures Credit(h, m - (todo - {r})) == Credit(h, m - todo)[r := Credit(h, m - todo)[r] + m[r]]
  {
  }

  lemma DeductStep(h: Counts, m: map<Resource, int>, todo: set<Resource>, r: Resource)
    requires r in todo && r in m && r in h
    ensures Deduct(h, m - (todo - {r})) == Deduct(h, m - todo)[r := Deduct(h, m - todo)[r] - m[r]]
  {
  }

  /** An empty request changes nothing. */
  lemma CreditNothing(h: Counts, m: map<Resource, int>)
    ensures Credit(h, m - m.Keys) == h && Deduct(h, m - m.Keys) == h
  {
    assert m - m.Keys == map[];
  }

  /** The counts an empty hand starts with. */
  function Empty(): (h: Counts)
    ensures Total(h) && forall r :: h[r] == 0
  {
    var h := map[Resource.Wheat := 0, Resource.Stone := 0, Resource.Mud := 0, Resource.Wood := 0, Resource.Sheep := 0];
    assert forall r: Resource :: r in h by {
      forall r: Resource ensures r in h {
        if r.Wheat? {
        } else if r.Stone? {
        } else if r.Mud? {
        } else if r.Wood? {
        } else {
          assert r.Sheep?;
        }
      }
    }
    h
  }

  /**
   * The hand scenarios of tests/test_player.py, on the counts: single
   * additions, a take, a take of too much (not covered, so `TakeResources`
   * leaves the five sheep), and the covering checks.
   */
  lemma HandExamples()
    ensures var a := Credit(Credit(Credit(Empty(), map[Resource.Sheep := 1]), map[Resource.Wood := 5]), map[Resource.Sheep := 2]);
      a[Resource.Sheep] == 3 && a[Resource.Stone] == 0 && a[Resource.Wood] == 5
    ensures var f := Credit(Empty(), map[Resource.Sheep := 5]);
      f[Resource.Sheep] == 5 && !Covers(f, map[Resource.Sheep := 10])
    ensures var h := Credit(Empty(), map[Resource.Sheep := 5, Resource.Mud := 5]);
      Covers(h, map[Resource.Mud := 5])
      && Covers(h, map[Resource.Mud := 2, Resource.Sheep := 2])
      && !Covers(h, map[Resource.Mud := 2, Resource.Sheep := 20])
    ensures Deduct(Credit(Empty(), map[Resource.Stone := 5]), map[Resource.Stone := 2])[Resource.Stone] == 3
  {
    var h := Credit(Empty(), map[Resource.Sheep := 5, Resource.Mud := 5]);
    assert h[Resource.Sheep] == 5 && h[Resource.Mud] == 5;
    assert map[Resource.Mud := 2, Resource.Sheep := 20][Resource.Sheep] == 20;
  }

  class Hand {
    var resources: Counts

    predicate Valid()
      reads this
    {
      Total(resources)
    }

    /** A new hand holds every resource kind at count zero. */
    constructor ()
      ensures Valid() && resources == Empty()
    {
      resources := Empty();
    }

    method AddResource(resource: Resource, quantity: int := 1)
      requires Valid()
      modifies this
      ensures Valid()
      ensures resources == old(resources)[resource := old(resources)[resource] + quantity]
      ensures resources == Credit(old(resources), map[resource := quantity])
    {
      resources := resources[resource := resources[resource] + quantity];
    }

    method AddResources(m: map<Resource, int>)
      requires Valid()
      modifies this
      ensures Valid()
      ensures resources == Credit(old(resources), m)
    {
      var todo := m.Keys;
      CreditNothing(resources, m);
      while todo != {}
        invariant todo <= m.Keys
        invariant Valid()
        invariant resources == Credit(old(resources), m - todo)
        decreases todo
      {
        var r :| r in todo;
        CreditStep(old(resources), m, todo, r);
        AddResource(r, m[r]);
        todo := todo - {r};
      }
      assert m - {} == m;
    }

    /** Checks the demand entry by entry, stopping at the first shortfall. */
    method HasResources(m: map<Resource, int>) returns (b: bool)
      requires Valid()
      ensures b == Covers(resources, m)
    {
      var todo := m.Keys;
      while todo != {}
        invariant todo <= m.Keys
        invariant forall r :: r in m && r !in todo ==> m[r] <= resources[r]
        decreases todo
      {
        var r :| r in todo;
        if resources[r] < m[r] {
          return false;
        }
        todo := todo - {r};
      }
      return true;
    }

    /** Takes the whole demand, or nothing: `ok == false` is the raised NotEnoughResourcesError. */
    method TakeResources(m: map<Resource, int>) returns (ok: bool)
      requires Valid()
      modifies this
      ensures Valid()
      ensures ok == old(Covers(resources, m))
      ensures resources == if ok then Deduct(old(resources), m) else old(resources)
    {
      ok := HasResources(m);
      if ok {
        var todo := m.Keys;
        CreditNothing(resources, m);
        while todo != {}
          invariant todo <= m.Keys
          invariant Valid()
          invariant resources == Deduct(old(resources), m - todo)
          decreases todo
        {
          var r :| r in todo;
          DeductStep(old(resources), m, todo, r);
          resources := resources[r := resources[r] - m[r]];
          todo := todo - {r};
        }
        assert m - {} == m;
      }
    }
  }

  class Player {
    const id: int
    const hand: Hand

    constructor (id: int)
      ensures this.id == id && fresh(hand) && hand.Valid() && hand.resources == Empty()
    {
      this.id := id;
      hand := new Hand();
    }
  }
}
