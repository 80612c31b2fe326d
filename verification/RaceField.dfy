/** The bullet field of a boss race as the object of src/boss_race.cpp updates it: the loops of AdvanceBullets,
    of the spawners and of ApplyCardBulletDeltas, proved against the functions of RaceBullets. */
module RaceField {
  import opened RaceBullets

  // ---- Steps of the loops ----

  /** The first `k` bullets of a wave. */
  function FiredSoFar(f: Field, v: Volley, k: nat): Field
    requires k <= |v.motions|
  {
    Field(f.bullets + Shots(v, k, f.nextId), f.nextId + k)
  }

  lemma NoneFired(f: Field, v: Volley)
    ensures FiredSoFar(f, v, 0) == f
  {
  }

  lemma OneFired(f: Field, v: Volley, k: nat)
    requires k < |v.motions| && Sound(f.bullets, f.nextId) && k < RoomFor(f.bullets, v.owner)
    ensures FiredSoFar(f, v, k).nextId == f.nextId + k
    ensures var shot := Shot(v, k, f.nextId + k);
      FiredSoFar(f, v, k + 1) == Field(FiredSoFar(f, v, k).bullets + [shot], f.nextId + k + 1)
  {
    var shot := Shot(v, k, f.nextId + k);
    assert Shots(v, k + 1, f.nextId) == Shots(v, k, f.nextId) + [shot];
  }

  lemma OwnedSoFar(f: Field, v: Volley, k: nat)
    requires Sound(f.bullets, f.nextId) && k <= |v.motions| && k <= RoomFor(f.bullets, v.owner)
    ensures Owned(FiredSoFar(f, v, k).bullets, v.owner) == Owned(f.bullets, v.owner) + k
  {
    hide Sound, Owned, RoomFor;
    BatchSound(f.bullets, f.nextId, Shots(v, k, f.nextId), v.owner);
  }

  lemma WaveDone(f: Field, v: Volley, k: nat)
    requires Sound(f.bullets, f.nextId) && k <= |v.motions| && k <= RoomFor(f.bullets, v.owner)
    requires k == |v.motions| || Owned(f.bullets, v.owner) + k >= BULLET_CAP
    ensures FiredSoFar(f, v, k) == Fired(f, v)
  {
    hide Owned;
  }

  lemma StillRoom(f: Field, v: Volley, k: nat)
    requires Owned(f.bullets, v.owner) + k < BULLET_CAP
    ensures k < RoomFor(f.bullets, v.owner)
  {
  }

  lemma OneChanged(f: Field, ds: seq<Delta>, i: nat, owner: string)
    requires i < |ds|
    ensures AllChanged(f, ds[..i + 1], owner) == Changed(AllChanged(f, ds[..i], owner), ds[i], owner)
  {
    hide Changed;
    assert ds[..i + 1][..i] == ds[..i];
  }

  /** The bullets of an owner that are not yet marked. */
  function Standing(bullets: seq<Bullet>, owner: string): nat {
    if bullets == [] then 0 else
    var last := bullets[|bullets| - 1];
    Standing(bullets[..|bullets| - 1], owner) + (if last.owner == owner && last.vanishTick == 0 then 1 else 0)
  }

  lemma StandingSnoc(bullets: seq<Bullet>, i: nat, owner: string)
    requires i < |bullets|
    ensures Standing(bullets[..i + 1], owner)
      == Standing(bullets[..i], owner) + (if bullets[i].owner == owner && bullets[i].vanishTick == 0 then 1 else 0)
  {
    assert bullets[..i + 1][..i] == bullets[..i];
  }

  lemma RequestsSnoc(w: World, bullets: seq<Bullet>, tick: nat, i: nat)
    requires i < |bullets|
    ensures var before, b := Requests(w, bullets[..i], tick), bullets[i];
      Requests(w, bullets[..i + 1], tick) ==
        if Asks(w, b, tick) && b.generation < MAX_GENERATION && Hosts(before, b.owner) < HOSTS_PER_TICK
        then before + [RequestOf(b, i)] else before
  {
    assert bullets[..i + 1][..i] == bullets[..i];
  }

  /** The budget table counts, for each owner, the hosts heard so far; an absent owner has none. */
  ghost predicate Counts(budget: map<string, nat>, requests: seq<Request>) {
    forall owner :: Hosts(requests, owner) == if owner in budget then budget[owner] else 0
  }

  lemma CountsOne(budget: map<string, nat>, requests: seq<Request>, r: Request)
    requires Counts(budget, requests)
    ensures Counts(budget[r.owner := Hosts(requests, r.owner) + 1], requests + [r])
  {
    hide Hosts;
    forall owner {
      HostsSnoc(requests, r, owner);
    }
  }

  /** The first `k` children of a host. */
  function BornSoFar(w: World, f: Field, r: Request, tick: nat, k: nat): Field
    requires r.index < |f.bullets|
  {
    Field(f.bullets + Brood(w, f.bullets[r.index], r, tick, k, f.nextId), f.nextId + k)
  }

  lemma OneBorn(w: World, f: Field, r: Request, tick: nat, k: nat)
    requires r.index < |f.bullets|
    ensures BornSoFar(w, f, r, tick, 0) == f
    ensures BornSoFar(w, f, r, tick, k).nextId == f.nextId + k
    ensures BornSoFar(w, f, r, tick, k + 1) == Field(
      BornSoFar(w, f, r, tick, k).bullets + [ChildOf(w, f.bullets[r.index], r, tick, k, f.nextId + k)], f.nextId + k + 1)
  {
    var host := f.bullets[r.index];
    assert Brood(w, host, r, tick, k + 1, f.nextId) == Brood(w, host, r, tick, k, f.nextId) + [ChildOf(w, host, r, tick, k, f.nextId + k)];
    assert f.bullets + Brood(w, host, r, tick, 0, f.nextId) == f.bullets;
  }

  lemma BornCount(w: World, f: Field, r: Request, tick: nat, k: nat)
    requires Sound(f.bullets, f.nextId) && r.index < |f.bullets| && r.generation < MAX_GENERATION && k <= RoomFor(f.bullets, r.owner)
    ensures Owned(BornSoFar(w, f, r, tick, k).bullets, r.owner) == Owned(f.bullets, r.owner) + k
    ensures Sound(BornSoFar(w, f, r, tick, k).bullets, f.nextId + k)
    ensures Owned(f.bullets, r.owner) <= BULLET_CAP && RoomFor(f.bullets, r.owner) == BULLET_CAP - Owned(f.bullets, r.owner)
  {
    hide Owned;
    assert Owned(f.bullets, r.owner) <= BULLET_CAP;
    BatchSound(f.bullets, f.nextId, Brood(w, f.bullets[r.index], r, tick, k, f.nextId), r.owner);
  }

  lemma SplitSnoc(w: World, f: Field, rs: seq<Request>, tick: nat, i: nat)
    requires Within(rs, |f.bullets|) && i < |rs|
    ensures Within(rs[..i], |f.bullets|) && Within(rs[..i + 1], |f.bullets|)
    ensures Split(w, f, rs[..i + 1], tick) == Born(w, Split(w, f, rs[..i], tick), rs[i], tick)
  {
    assert rs[..i + 1][..i] == rs[..i];
  }

  /** Between requests the field is sound, so that the room of the next owner can be computed. */
  lemma SplitStaysSound(w: World, f: Field, rs: seq<Request>, tick: nat, i: nat)
    requires Sound(f.bullets, f.nextId) && Within(rs, |f.bullets|) && i <= |rs|
    ensures Within(rs[..i], |f.bullets|)
    ensures var g := Split(w, f, rs[..i], tick); Sound(g.bullets, g.nextId)
  {
    assert Within(rs[..i], |f.bullets|);
    SplitGrows(w, f, rs[..i], tick);
  }

  lemma StandingNone(bullets: seq<Bullet>, owner: string)
    ensures Standing(bullets[..0], owner) == 0
  {
  }

  lemma NoneHeard(w: World, bullets: seq<Bullet>, tick: nat)
    ensures Requests(w, bullets[..0], tick) == []
    ensures Counts(map[], [])
  {
  }

  function HostsOf(budget: map<string, nat>, ghost requests: seq<Request>, owner: string): (n: nat)
    requires Counts(budget, requests)
    ensures n == Hosts(requests, owner)
  {
    if owner in budget then budget[owner] else 0
  }

  lemma SameAsBorn(w: World, f: Field, r: Request, tick: nat)
    requires r.index < |f.bullets|
    ensures Born(w, f, r, tick) == BornSoFar(w, f, r, tick, Least(RoomFor(f.bullets, r.owner), CHILDREN_PER_HOST))
  {
    hide RoomFor;
  }

  lemma PassesMeet(w: World, f: Field, tick: nat)
    requires Sound(f.bullets, f.nextId)
    ensures var kept := Kept(f, tick);
      var m := Field(Moved(w, kept, tick), f.nextId);
      && Sound(m.bullets, m.nextId) && Within(Requests(w, kept, tick), |m.bullets|)
      && Spread(w, f, tick) == Split(w, m, Requests(w, kept, tick), tick)
      && Advanced(w, f, tick) == Field(Keep(Spread(w, f, tick).bullets, InBounds), Spread(w, f, tick).nextId)
  {
    KeptSound(f, tick);
    hide Sound, Kept, Moved, Requests, Split;
    MovedSound(w, Kept(f, tick), tick, f.nextId);
    SpreadIsSplit(w, f, tick);
  }

  lemma KeptIs(f: Field, tick: nat)
    ensures Kept(f, tick) == Keep(f.bullets, Lives(tick))
  {
  }

  lemma SplitNone(w: World, m: Field, rs: seq<Request>, tick: nat)
    ensures Within(rs[..0], |m.bullets|) && Split(w, m, rs[..0], tick) == m
  {
  }

  lemma RequestIn(w: World, m: Field, rs: seq<Request>, tick: nat, i: nat)
    requires i < |rs| && Within(rs, |m.bullets|) && Within(rs[..i], |m.bullets|)
    ensures rs[i].index < |Split(w, m, rs[..i], tick).bullets| && rs[i].generation < MAX_GENERATION
  {
    hide Born;
  }

  class BulletField {
    var liveBullets: seq<Bullet>
    var nextBulletId: nat

    function Contents(): Field
      reads this
    {
      Field(liveBullets, nextBulletId)
    }

    ghost predicate Valid()
      reads this
    {
      Sound(liveBullets, nextBulletId)
    }

    constructor (firstId: nat)
      ensures Valid() && Contents() == Field([], firstId)
    {
      liveBullets, nextBulletId := [], firstId;
      new;
      EmptySound(firstId);
    }

    method EmittedBulletsFor(owner: string) returns (count: nat)
      ensures count == Owned(liveBullets, owner)
    {
      count := 0;
      var i := 0;
      while i < |liveBullets|
        invariant i <= |liveBullets| && count == Owned(liveBullets[..i], owner)
      {
        assert liveBullets[..i + 1][..i] == liveBullets[..i];
        if liveBullets[i].owner == owner {
          count := count + 1;
        }
        i := i + 1;
      }
      assert liveBullets[..i] == liveBullets;
    }

    /** The loop shared by the spawners: stop at the first bullet that finds its owner at the cap. */
    method SpawnVolley(v: Volley)
      requires Valid()
      modifies this
      ensures Valid() && Contents() == Fired(old(Contents()), v)
    {
      hide Sound, Owned, Fired, FiredSoFar, RoomFor, Shots;
      ghost var f := Contents();
      FiredSound(f, v);
      NoneFired(f, v);
      var k := 0;
      while k < |v.motions|
        invariant k <= |v.motions| && k <= RoomFor(f.bullets, v.owner)
        invariant Contents() == FiredSoFar(f, v, k)
      {
        var emitted := EmittedBulletsFor(v.owner);
        OwnedSoFar(f, v, k);
        if emitted >= BULLET_CAP {
          break;
        }
        StillRoom(f, v, k);
        OneFired(f, v, k);
        liveBullets, nextBulletId := liveBullets + [Shot(v, k, nextBulletId)], nextBulletId + 1;
        k := k + 1;
      }
      OwnedSoFar(f, v, k);
      WaveDone(f, v, k);
    }

    method ApplyCardBulletDelta(d: Delta, owner: string)
      modifies this
      ensures Contents() == Changed(old(Contents()), d, owner)
    {
      hide Owned, Keep;
      match d
      case Spawn(pattern, motion) =>
        var emitted := EmittedBulletsFor(owner);
        if emitted < BULLET_CAP {
          liveBullets := liveBullets + [CardBullet(owner, pattern, motion, nextBulletId)];
          nextBulletId := nextBulletId + 1;
        }
      case Despawn(id) =>
        liveBullets := Keep(liveBullets, (b: Bullet) => b.id != id);
    }

    method ApplyCardBulletDeltas(deltas: seq<Delta>, owner: string)
      requires Valid()
      modifies this
      ensures Valid() && Contents() == AllChanged(old(Contents()), deltas, owner)
    {
      ghost var f := Contents();
      AllChangedSound(f, deltas, owner);
      hide Sound, Changed;
      var i := 0;
      while i < |deltas|
        invariant i <= |deltas| && Contents() == AllChanged(f, deltas[..i], owner)
        decreases |deltas| - i
      {
        OneChanged(f, deltas, i, owner);
        ApplyCardBulletDelta(deltas[i], owner);
        i := i + 1;
      }
      assert deltas[..i] == deltas;
    }

    method ClearBulletsOf(owner: string, tick: nat) returns (cleared: nat)
      requires Valid()
      modifies this
      ensures Valid() && Contents() == Field(Cleared(old(liveBullets), owner, tick), old(nextBulletId))
      ensures cleared == Standing(old(liveBullets), owner)
    {
      ghost var before := liveBullets;
      ClearedSound(before, owner, tick, nextBulletId);
      hide Sound, Standing;
      cleared := 0;
      StandingNone(before, owner);
      var i := 0;
      while i < |liveBullets|
        invariant i <= |liveBullets| == |before| && nextBulletId == old(nextBulletId)
        invariant cleared == Standing(before[..i], owner)
        invariant forall j :: 0 <= j < i ==> liveBullets[j] == Marked(before[j], owner, tick)
        invariant forall j :: i <= j < |before| ==> liveBullets[j] == before[j]
      {
        StandingSnoc(before, i, owner);
        var live := liveBullets[i];
        if live.owner == owner && live.vanishTick == 0 {
          liveBullets := liveBullets[i := live.(vanishTick := tick)];
          cleared := cleared + 1;
        }
        i := i + 1;
      }
      assert before[..i] == before;
      assert liveBullets == Cleared(before, owner, tick);
    }

    /** The first pass: move every bullet that is not vanishing and collect the requests to split. */
    method MoveBullets(w: World, tick: nat) returns (requests: seq<Request>)
      modifies this
      ensures Contents() == Field(Moved(w, old(liveBullets), tick), old(nextBulletId))
      ensures requests == Requests(w, old(liveBullets), tick)
    {
      hide Requests, Hosts, Counts;
      ghost var before := liveBullets;
      requests := [];
      var hostBudget: map<string, nat> := map[];
      NoneHeard(w, before, tick);
      var i := 0;
      while i < |liveBullets|
        invariant i <= |liveBullets| == |before| && nextBulletId == old(nextBulletId)
        invariant forall j :: 0 <= j < i ==> liveBullets[j] == Step(w, before[j], tick)
        invariant forall j :: i <= j < |before| ==> liveBullets[j] == before[j]
        invariant requests == Requests(w, before[..i], tick) && Counts(hostBudget, requests)
      {
        RequestsSnoc(w, before, tick, i);
        var live := liveBullets[i];
        if live.vanishTick == 0 {
          var moved := w.move(live, tick);
          var budget := HostsOf(hostBudget, requests, live.owner);
          if moved.asks && live.generation < MAX_GENERATION && budget < HOSTS_PER_TICK {
            CountsOne(hostBudget, requests, RequestOf(live, i));
            hostBudget := hostBudget[live.owner := budget + 1];
            requests := requests + [RequestOf(live, i)];
          }
          liveBullets := liveBullets[i := live.(motion := moved.(asks := false))];
        }
        i := i + 1;
      }
      assert before[..i] == before;
      assert liveBullets == Moved(w, before, tick);
    }

    /** The second pass for one request. The room is a subtraction of naturals: it cannot underflow here. */
    method SplitHost(w: World, r: Request, tick: nat)
      requires Valid() && r.index < |liveBullets| && r.generation < MAX_GENERATION
      modifies this
      ensures Valid() && Contents() == Born(w, old(Contents()), r, tick)
    {
      ghost var f := Contents();
      hide Sound, Owned, RoomFor, BornSoFar;
      var host := liveBullets[r.index];
      var emitted := EmittedBulletsFor(r.owner);
      BornCount(w, f, r, tick, 0);
      var room: nat := BULLET_CAP - emitted;
      var children := Least(room, CHILDREN_PER_HOST);
      OneBorn(w, f, r, tick, 0);
      var k := 0;
      while k < children
        invariant k <= children
        invariant Contents() == BornSoFar(w, f, r, tick, k)
      {
        OneBorn(w, f, r, tick, k);
        BornCount(w, f, r, tick, k);
        emitted := EmittedBulletsFor(r.owner);
        if emitted >= BULLET_CAP {
          break;
        }
        liveBullets := liveBullets + [ChildOf(w, host, r, tick, k, nextBulletId)];
        nextBulletId := nextBulletId + 1;
        k := k + 1;
      }
      BornCount(w, f, r, tick, k);
      SameAsBorn(w, f, r, tick);
    }

    /** The second pass: the requests in the order they were heard. */
    method SplitHosts(w: World, requests: seq<Request>, tick: nat)
      requires Valid() && Within(requests, |liveBullets|)
      modifies this
      ensures Valid() && Contents() == Split(w, old(Contents()), requests, tick)
    {
      ghost var m := Contents();
      hide Sound, Split, Born, Within;
      SplitNone(w, m, requests, tick);
      var i := 0;
      while i < |requests|
        invariant i <= |requests| && Within(requests[..i], |m.bullets|)
        invariant Contents() == Split(w, m, requests[..i], tick) && Valid()
      {
        SplitSnoc(w, m, requests, tick, i);
        SplitStaysSound(w, m, requests, tick, i + 1);
        RequestIn(w, m, requests, tick, i);
        SplitHost(w, requests[i], tick);
        i := i + 1;
      }
      assert requests[..i] == requests;
    }

    method AdvanceBullets(w: World, tick: nat)
      requires Valid()
      modifies this
      ensures Valid() && Contents() == Advanced(w, old(Contents()), tick)
    {
      ghost var f := Contents();
      AdvanceKeepsSound(w, f, tick);
      PassesMeet(w, f, tick);
      hide Sound, Keep, Kept, Moved, Requests, Split, Spread, Born, Within, Lives, Advanced, InBounds;
      liveBullets := Keep(liveBullets, Lives(tick));
      KeptIs(f, tick);
      var requests := MoveBullets(w, tick);
      SplitHosts(w, requests, tick);
      liveBullets := Keep(liveBullets, InBounds);
    }
  }
}
