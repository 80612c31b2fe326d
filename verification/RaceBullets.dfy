/** The boss-race bullets of src/boss_race.cpp: spawning under a cap per player, moving, and the two-pass
    chain split. How a bullet moves and what its children look like are arbitrary functions. */
module RaceBullets {

  const BULLET_CAP: nat := 384
  const MAX_GENERATION: nat := 2
  const CHILDREN_PER_HOST: nat := 8
  const HOSTS_PER_TICK: nat := 8
  const SCREEN_WIDTH: real := 640.0
  const SCREEN_HEIGHT: real := 960.0

  /** Position, whether the bullet asks to split in this frame, and the rest of its motion state. */
  datatype Motion = Motion(x: real, y: real, asks: bool, rest: seq<real>)

  datatype Bullet = Bullet(
    id: nat, owner: string, pattern: string, patternIndex: nat, chainId: nat, spawnIndex: nat, generation: nat,
    vanishTick: nat, motion: Motion)

  datatype Child = Child(spawnIndex: nat, motion: Motion)

  /** `move` is a bullet's motion after one tick, `child` the n-th child of a host's motion. */
  datatype World = World(move: (Bullet, nat) -> Motion, child: (Motion, nat, nat, nat, nat) -> Child)

  datatype Field = Field(bullets: seq<Bullet>, nextId: nat)

  datatype Request = Request(index: nat, owner: string, patternIndex: nat, spawnIndex: nat, generation: nat)

  // ---- Counting ----

  /** EmittedBulletsFor. */
  function Owned(bullets: seq<Bullet>, owner: string): nat {
    if bullets == [] then 0 else
    Owned(bullets[..|bullets| - 1], owner) + (if bullets[|bullets| - 1].owner == owner then 1 else 0)
  }

  function Hosts(requests: seq<Request>, owner: string): nat {
    if requests == [] then 0 else
    Hosts(requests[..|requests| - 1], owner) + (if requests[|requests| - 1].owner == owner then 1 else 0)
  }

  lemma OwnedSnoc(bullets: seq<Bullet>, b: Bullet, owner: string)
    ensures Owned(bullets + [b], owner) == Owned(bullets, owner) + (if b.owner == owner then 1 else 0)
  {
    assert (bullets + [b])[..|bullets|] == bullets;
  }

  lemma HostsSnoc(requests: seq<Request>, r: Request, owner: string)
    ensures Hosts(requests + [r], owner) == Hosts(requests, owner) + (if r.owner == owner then 1 else 0)
  {
    assert (requests + [r])[..|requests|] == requests;
  }

  // ---- The invariant ----

  ghost predicate Capped(bullets: seq<Bullet>) {
    forall owner :: Owned(bullets, owner) <= BULLET_CAP
  }

  ghost predicate Named(bullets: seq<Bullet>, nextId: nat) {
    && (forall i :: 0 <= i < |bullets| ==> bullets[i].id < nextId && bullets[i].generation <= MAX_GENERATION)
    && forall i, j :: 0 <= i < j < |bullets| ==> bullets[i].id != bullets[j].id
  }

  ghost predicate Sound(bullets: seq<Bullet>, nextId: nat) {
    Capped(bullets) && Named(bullets, nextId)
  }

  lemma PushSound(bullets: seq<Bullet>, nextId: nat, b: Bullet)
    requires Sound(bullets, nextId) && Owned(bullets, b.owner) < BULLET_CAP && b.id == nextId && b.generation <= MAX_GENERATION
    ensures Sound(bullets + [b], nextId + 1)
  {
    forall owner
      ensures Owned(bullets + [b], owner) <= BULLET_CAP
    {
      OwnedSnoc(bullets, b, owner);
      assert Owned(bullets, owner) <= BULLET_CAP;
    }
    hide Owned;
  }

  // ---- Removing ----

  /** std::remove_if followed by erase. */
  function Keep(bullets: seq<Bullet>, keep: Bullet -> bool): seq<Bullet> {
    if bullets == [] then [] else
    Keep(bullets[..|bullets| - 1], keep) + (if keep(bullets[|bullets| - 1]) then [bullets[|bullets| - 1]] else [])
  }

  ghost predicate PartOf(part: seq<Bullet>, all: seq<Bullet>, keep: Bullet -> bool) {
    forall i :: 0 <= i < |part| ==> part[i] in all && keep(part[i])
  }

  ghost predicate Fewer(part: seq<Bullet>, all: seq<Bullet>) {
    forall owner :: Owned(part, owner) <= Owned(all, owner)
  }

  /** What is kept is a part of what was there; no two kept ids coincide, no count grows. */
  lemma {:induction false} KeepSound(bullets: seq<Bullet>, keep: Bullet -> bool, nextId: nat)
    requires Sound(bullets, nextId)
    ensures var kept := Keep(bullets, keep); Sound(kept, nextId) && PartOf(kept, bullets, keep) && Fewer(kept, bullets)
    decreases |bullets|
  {
    hide Sound, PartOf, Fewer;
    if bullets == [] {
      NoneKept(keep);
    } else {
      var front, last := bullets[..|bullets| - 1], bullets[|bullets| - 1];
      assert bullets == front + [last];
      FrontSound(front, last, nextId);
      KeepSound(front, keep, nextId);
      KeepOne(front, last, Keep(front, keep), keep, nextId);
      assert Keep(front, keep) + [] == Keep(front, keep);
    }
  }

  lemma NoneKept(keep: Bullet -> bool)
    ensures PartOf([], [], keep) && Fewer([], [])
  {
  }

  lemma FrontSound(front: seq<Bullet>, last: Bullet, nextId: nat)
    requires Sound(front + [last], nextId)
    ensures Sound(front, nextId) && last.id < nextId && last.generation <= MAX_GENERATION
    ensures forall i :: 0 <= i < |front| ==> front[i].id != last.id
  {
    var all := front + [last];
    forall owner
      ensures Owned(front, owner) <= BULLET_CAP
    {
      OwnedSnoc(front, last, owner);
      assert Owned(all, owner) <= BULLET_CAP;
    }
    assert all[|front|] == last;
    assert forall i :: 0 <= i < |front| ==> all[i] == front[i];
    hide Owned;
  }

  lemma KeepOne(front: seq<Bullet>, last: Bullet, some: seq<Bullet>, keep: Bullet -> bool, nextId: nat)
    requires Sound(front + [last], nextId) && Sound(some, nextId) && PartOf(some, front, keep) && Fewer(some, front)
    ensures PartOf(some, front + [last], keep) && Fewer(some, front + [last])
    ensures keep(last)
      ==> PartOf(some + [last], front + [last], keep) && Fewer(some + [last], front + [last]) && Sound(some + [last], nextId)
  {
    KeepCounts(front, last, some);
    KeepPart(front, last, some, keep);
    KeepNames(front, last, some, keep, nextId);
    if keep(last) {
      CapFewer(some + [last], front + [last]);
    }
  }

  lemma CapFewer(part: seq<Bullet>, all: seq<Bullet>)
    requires Capped(all) && Fewer(part, all)
    ensures Capped(part)
  {
    hide Owned;
    forall owner
      ensures Owned(part, owner) <= BULLET_CAP
    {
      assert Owned(part, owner) <= Owned(all, owner);
    }
  }

  lemma KeepCounts(front: seq<Bullet>, last: Bullet, some: seq<Bullet>)
    requires Fewer(some, front)
    ensures Fewer(some, front + [last]) && Fewer(some + [last], front + [last])
  {
    hide Owned;
    forall owner
      ensures Owned(some, owner) <= Owned(front + [last], owner)
      ensures Owned(some + [last], owner) <= Owned(front + [last], owner)
    {
      OwnedSnoc(front, last, owner);
      OwnedSnoc(some, last, owner);
      assert Owned(some, owner) <= Owned(front, owner);
    }
  }

  lemma KeepPart(front: seq<Bullet>, last: Bullet, some: seq<Bullet>, keep: Bullet -> bool)
    requires PartOf(some, front, keep)
    ensures PartOf(some, front + [last], keep) && (keep(last) ==> PartOf(some + [last], front + [last], keep))
  {
    assert (front + [last])[|front|] == last;
    forall i | 0 <= i < |some|
      ensures some[i] in front + [last]
    {
      var j :| 0 <= j < |front| && front[j] == some[i];
      assert (front + [last])[j] == some[i];
    }
  }

  lemma KeepNames(front: seq<Bullet>, last: Bullet, some: seq<Bullet>, keep: Bullet -> bool, nextId: nat)
    requires Sound(front + [last], nextId) && Named(some, nextId) && PartOf(some, front, keep)
    ensures Named(some + [last], nextId)
  {
    FrontSound(front, last, nextId);
    hide Sound, Capped, Owned;
    forall i | 0 <= i < |some|
      ensures some[i].id != last.id
    {
      var j :| 0 <= j < |front| && front[j] == some[i];
    }
  }

  // ---- The first pass ----

  function Step(w: World, b: Bullet, tick: nat): Bullet {
    if b.vanishTick != 0 then b else b.(motion := w.move(b, tick).(asks := false))
  }

  predicate Asks(w: World, b: Bullet, tick: nat) {
    b.vanishTick == 0 && w.move(b, tick).asks
  }

  function RequestOf(b: Bullet, index: nat): Request {
    Request(index, b.owner, b.patternIndex, b.spawnIndex, b.generation)
  }

  /** Every bullet moves once; the flag a bullet asks with is spent in its own frame, heard or not. */
  function Moved(w: World, bullets: seq<Bullet>, tick: nat): (r: seq<Bullet>)
    ensures |r| == |bullets| && forall i :: 0 <= i < |r| ==> r[i] == Step(w, bullets[i], tick)
  {
    seq(|bullets|, i requires 0 <= i < |bullets| => Step(w, bullets[i], tick))
  }

  /** The requests heard: of bullets below the last generation, while their owner has hosts left this tick. */
  function Requests(w: World, bullets: seq<Bullet>, tick: nat): seq<Request> {
    if bullets == [] then [] else
    var n, b := |bullets| - 1, bullets[|bullets| - 1];
    var before := Requests(w, bullets[..n], tick);
    if Asks(w, b, tick) && b.generation < MAX_GENERATION && Hosts(before, b.owner) < HOSTS_PER_TICK then before + [RequestOf(b, n)]
    else before
  }

  /** A request names a bullet of the field below the last generation, and repeats what it is. */
  ghost predicate Names(r: Request, bullets: seq<Bullet>) {
    && r.index < |bullets| && r == RequestOf(bullets[r.index], r.index) && r.generation < MAX_GENERATION
  }

  ghost predicate Ordered(rs: seq<Request>) {
    forall j, k :: 0 <= j < k < |rs| ==> rs[j].index < rs[k].index
  }

  ghost predicate AllName(w: World, rs: seq<Request>, bullets: seq<Bullet>, tick: nat) {
    forall k :: 0 <= k < |rs| ==> Names(rs[k], bullets) && Asks(w, bullets[rs[k].index], tick)
  }

  ghost predicate Budgeted(rs: seq<Request>) {
    forall owner :: Hosts(rs, owner) <= HOSTS_PER_TICK
  }

  /** Every request names a bullet that asked, in field order, and no owner has more hosts than the budget. */
  lemma {:induction false} RequestsNameHosts(w: World, bullets: seq<Bullet>, tick: nat)
    ensures var rs := Requests(w, bullets, tick); AllName(w, rs, bullets, tick) && Ordered(rs) && Budgeted(rs)
    decreases |bullets|
  {
    hide Budgeted, AllName, Ordered, Asks, Names;
    if bullets == [] {
      NoRequests(w, bullets, tick);
    } else {
      var n := |bullets| - 1;
      RequestsNameHosts(w, bullets[..n], tick);
      OneMore(w, bullets[..n], bullets[n], Requests(w, bullets[..n], tick), tick);
      assert bullets[..n] + [bullets[n]] == bullets;
    }
  }

  lemma NoRequests(w: World, bullets: seq<Bullet>, tick: nat)
    ensures AllName(w, [], bullets, tick) && Ordered([]) && Budgeted([])
  {
  }

  lemma OneMore(w: World, front: seq<Bullet>, b: Bullet, before: seq<Request>, tick: nat)
    requires AllName(w, before, front, tick) && Ordered(before) && Budgeted(before)
    ensures AllName(w, before, front + [b], tick)
    ensures var rs := before + [RequestOf(b, |front|)];
      Asks(w, b, tick) && b.generation < MAX_GENERATION && Hosts(before, b.owner) < HOSTS_PER_TICK
      ==> AllName(w, rs, front + [b], tick) && Ordered(rs) && Budgeted(rs)
  {
    hide Hosts;
    var all, rs := front + [b], before + [RequestOf(b, |front|)];
    forall k | 0 <= k < |before|
      ensures Names(before[k], all) && Asks(w, all[before[k].index], tick) && before[k].index < |front|
    {
      assert Names(before[k], front);
      assert all[before[k].index] == front[before[k].index];
    }
    assert all[|front|] == b;
    forall owner
      ensures Hosts(before, b.owner) < HOSTS_PER_TICK ==> Hosts(rs, owner) <= HOSTS_PER_TICK
    {
      HostsSnoc(before, RequestOf(b, |front|), owner);
      assert Hosts(before, owner) <= HOSTS_PER_TICK;
    }
  }

  lemma MovedSound(w: World, bullets: seq<Bullet>, tick: nat, nextId: nat)
    requires Sound(bullets, nextId)
    ensures Sound(Moved(w, bullets, tick), nextId)
  {
    var m := Moved(w, bullets, tick);
    forall owner
      ensures Owned(m, owner) <= BULLET_CAP
    {
      SameOwners(bullets, m, owner);
      assert Owned(bullets, owner) <= BULLET_CAP;
    }
    hide Owned;
  }

  lemma {:induction false} SameOwners(a: seq<Bullet>, b: seq<Bullet>, owner: string)
    requires |a| == |b| && forall i :: 0 <= i < |a| ==> a[i].owner == b[i].owner
    ensures Owned(a, owner) == Owned(b, owner)
    decreases |a|
  {
    if a != [] {
      SameOwners(a[..|a| - 1], b[..|b| - 1], owner);
    }
  }

  // ---- The second pass ----

  function ChildOf(w: World, host: Bullet, r: Request, tick: nat, ordinal: nat, id: nat): Bullet {
    var c := w.child(host.motion, tick, r.patternIndex, r.spawnIndex, ordinal);
    Bullet(id, r.owner, host.pattern, r.patternIndex, r.patternIndex, c.spawnIndex, r.generation + 1, 0, c.motion)
  }

  /** The first `n` children of a host, one after the other. */
  function Brood(w: World, host: Bullet, r: Request, tick: nat, n: nat, nextId: nat): (s: seq<Bullet>)
    ensures |s| == n && forall k :: 0 <= k < n ==> s[k] == ChildOf(w, host, r, tick, k, nextId + k)
  {
    seq(n, k requires 0 <= k < n => ChildOf(w, host, r, tick, k, nextId + k))
  }

  /** How many more bullets an owner may get. The source subtracts; `AdvanceKeepsSound` shows it never underflows. */
  function RoomFor(bullets: seq<Bullet>, owner: string): nat {
    var owned := Owned(bullets, owner);
    if owned < BULLET_CAP then BULLET_CAP - owned else 0
  }

  function Least(a: nat, b: nat): nat {
    if a < b then a else b
  }

  /** Bullets of one owner with consecutive ids from `nextId`. */
  ghost predicate Batch(s: seq<Bullet>, owner: string, nextId: nat) {
    forall k :: 0 <= k < |s| ==> s[k].owner == owner && s[k].id == nextId + k && s[k].generation <= MAX_GENERATION
  }

  lemma {:induction false} BatchSound(bullets: seq<Bullet>, nextId: nat, s: seq<Bullet>, owner: string)
    requires Sound(bullets, nextId) && Batch(s, owner, nextId) && |s| <= RoomFor(bullets, owner)
    ensures Sound(bullets + s, nextId + |s|)
    ensures Owned(bullets + s, owner) == Owned(bullets, owner) + |s|
    ensures forall other :: other != owner ==> Owned(bullets + s, other) == Owned(bullets, other)
    decreases |s|
  {
    hide Owned, Sound;
    if s == [] {
      assert bullets + s == bullets;
    } else {
      var front, last := s[..|s| - 1], s[|s| - 1];
      BatchSound(bullets, nextId, front, owner);
      PushSound(bullets + front, nextId + |front|, last);
      assert bullets + front + [last] == bullets + s;
      forall o {
        OwnedSnoc(bullets + front, last, o);
      }
    }
  }

  /** The second pass for one request: the host is read from the field as it is now. */
  function Born(w: World, f: Field, r: Request, tick: nat): Field
    requires r.index < |f.bullets|
  {
    var n := Least(RoomFor(f.bullets, r.owner), CHILDREN_PER_HOST);
    Field(f.bullets + Brood(w, f.bullets[r.index], r, tick, n, f.nextId), f.nextId + n)
  }

  ghost predicate Within(rs: seq<Request>, n: nat) {
    forall k :: 0 <= k < |rs| ==> rs[k].index < n && rs[k].generation < MAX_GENERATION
  }

  ghost function Split(w: World, f: Field, rs: seq<Request>, tick: nat): (g: Field)
    requires Within(rs, |f.bullets|)
    ensures |f.bullets| <= |g.bullets|
  {
    if rs == [] then f else
    assert Within(rs[..|rs| - 1], |f.bullets|);
    Born(w, Split(w, f, rs[..|rs| - 1], tick), rs[|rs| - 1], tick)
  }

  /** `b` is the child some request asked for, born of the host its index named before any child was added. */
  ghost predicate BornOf(w: World, hosts: seq<Bullet>, rs: seq<Request>, tick: nat, b: Bullet) {
    exists k, o :: 0 <= k < |rs| && rs[k].index < |hosts| && 0 <= o < CHILDREN_PER_HOST
      && b == ChildOf(w, hosts[rs[k].index], rs[k], tick, o, b.id)
  }

  /** What the second pass makes of field `f`. */
  ghost predicate Grown(w: World, f: Field, rs: seq<Request>, tick: nat, g: Field) {
    && Sound(g.bullets, g.nextId)
    && f.bullets <= g.bullets && g.nextId == f.nextId + |g.bullets| - |f.bullets|
    && (forall i :: |f.bullets| <= i < |g.bullets| ==> BornOf(w, f.bullets, rs, tick, g.bullets[i]))
    && Counted(f, rs, g)
  }

  /** What an owner has after eight children for each of its hosts, cut at the cap. */
  function Due(f: Field, rs: seq<Request>, owner: string): nat {
    Least(BULLET_CAP, Owned(f.bullets, owner) + CHILDREN_PER_HOST * Hosts(rs, owner))
  }

  ghost predicate Counted(f: Field, rs: seq<Request>, g: Field) {
    forall owner :: Owned(g.bullets, owner) == Due(f, rs, owner)
  }

  /** The second pass only appends; every index keeps naming its host; each owner gains eight children a host,
      cut at the cap, whatever the order of the requests. */
  lemma {:induction false} SplitGrows(w: World, f: Field, rs: seq<Request>, tick: nat)
    requires Sound(f.bullets, f.nextId) && Within(rs, |f.bullets|)
    ensures Grown(w, f, rs, tick, Split(w, f, rs, tick))
    decreases |rs|
  {
    hide Grown, Born, Sound;
    if rs == [] {
      NothingGrows(w, f, tick);
    } else {
      var front, r := rs[..|rs| - 1], rs[|rs| - 1];
      assert Within(front, |f.bullets|);
      SplitGrows(w, f, front, tick);
      BornGrows(w, f, front, r, tick, Split(w, f, front, tick));
      assert front + [r] == rs;
    }
  }

  lemma NothingGrows(w: World, f: Field, tick: nat)
    requires Sound(f.bullets, f.nextId)
    ensures Grown(w, f, [], tick, f)
  {
    hide Owned;
  }

  lemma BornGrows(w: World, f: Field, front: seq<Request>, r: Request, tick: nat, g: Field)
    requires Grown(w, f, front, tick, g) && r.index < |f.bullets| <= |g.bullets| && r.generation < MAX_GENERATION
    ensures Grown(w, f, front + [r], tick, Born(w, g, r, tick))
  {
    hide Owned, Hosts, BornOf, Sound, Counted, Born, ChildOf;
    BornAppends(w, g, r, tick);
    BornCounts(w, f, front, r, tick, g);
    BornBirths(w, f, front, r, tick, g);
  }

  lemma BornAppends(w: World, g: Field, r: Request, tick: nat)
    requires Sound(g.bullets, g.nextId) && r.index < |g.bullets| && r.generation < MAX_GENERATION
    ensures var h := Born(w, g, r, tick);
      g.bullets <= h.bullets && h.nextId == g.nextId + |h.bullets| - |g.bullets| && Sound(h.bullets, h.nextId)
  {
    var n := Least(RoomFor(g.bullets, r.owner), CHILDREN_PER_HOST);
    BatchSound(g.bullets, g.nextId, Brood(w, g.bullets[r.index], r, tick, n, g.nextId), r.owner);
    hide Owned, Sound;
  }

  lemma BornCounts(w: World, f: Field, front: seq<Request>, r: Request, tick: nat, g: Field)
    requires Sound(g.bullets, g.nextId) && Counted(f, front, g) && r.index < |g.bullets| && r.generation < MAX_GENERATION
    ensures Counted(f, front + [r], Born(w, g, r, tick))
  {
    var h := Born(w, g, r, tick);
    BornOwned(w, g, r, tick);
    hide Owned, Hosts, Sound, RoomFor, Due, Born, Least;
    forall owner
      ensures Owned(h.bullets, owner) == Due(f, front + [r], owner)
    {
      assert Owned(g.bullets, owner) == Due(f, front, owner);
      if owner == r.owner {
        DueOwner(f, front, r, RoomFor(g.bullets, owner), Owned(g.bullets, owner));
      } else {
        DueOther(f, front, r, owner);
      }
    }
  }

  lemma BornOwned(w: World, g: Field, r: Request, tick: nat)
    requires Sound(g.bullets, g.nextId) && r.index < |g.bullets| && r.generation < MAX_GENERATION
    ensures var h := Born(w, g, r, tick).bullets;
      && Owned(h, r.owner) == Owned(g.bullets, r.owner) + Least(RoomFor(g.bullets, r.owner), CHILDREN_PER_HOST)
      && RoomFor(g.bullets, r.owner) == BULLET_CAP - Owned(g.bullets, r.owner)
      && forall owner :: owner != r.owner ==> Owned(h, owner) == Owned(g.bullets, owner)
  {
    var n := Least(RoomFor(g.bullets, r.owner), CHILDREN_PER_HOST);
    BatchSound(g.bullets, g.nextId, Brood(w, g.bullets[r.index], r, tick, n, g.nextId), r.owner);
    assert Owned(g.bullets, r.owner) <= BULLET_CAP;
    hide Owned;
  }

  lemma DueOther(f: Field, front: seq<Request>, r: Request, owner: string)
    requires owner != r.owner
    ensures Due(f, front + [r], owner) == Due(f, front, owner)
  {
    HostsSnoc(front, r, owner);
  }

  lemma DueOwner(f: Field, front: seq<Request>, r: Request, room: nat, owned: nat)
    requires owned == Due(f, front, r.owner) && room == BULLET_CAP - owned
    ensures owned + Least(room, CHILDREN_PER_HOST) == Due(f, front + [r], r.owner)
  {
    HostsSnoc(front, r, r.owner);
  }

  lemma BornBirths(w: World, f: Field, front: seq<Request>, r: Request, tick: nat, g: Field)
    requires Grown(w, f, front, tick, g) && r.index < |f.bullets| <= |g.bullets|
    ensures var h := Born(w, g, r, tick).bullets;
      forall i :: |f.bullets| <= i < |h| ==> BornOf(w, f.bullets, front + [r], tick, h[i])
  {
    hide Owned, Sound, Hosts, RoomFor;
    var rs, h := front + [r], Born(w, g, r, tick).bullets;
    assert g.bullets[r.index] == f.bullets[r.index];
    forall i | |f.bullets| <= i < |h|
      ensures BornOf(w, f.bullets, rs, tick, h[i])
    {
      if i < |g.bullets| {
        assert BornOf(w, f.bullets, front, tick, g.bullets[i]);
        StillBorn(w, f.bullets, front, r, tick, g.bullets[i]);
      } else {
        var o := i - |g.bullets|;
        assert rs[|front|] == r;
        assert h[i] == ChildOf(w, f.bullets[rs[|front|].index], rs[|front|], tick, o, h[i].id);
      }
    }
  }

  lemma StillBorn(w: World, hosts: seq<Bullet>, front: seq<Request>, r: Request, tick: nat, b: Bullet)
    requires BornOf(w, hosts, front, tick, b)
    ensures BornOf(w, hosts, front + [r], tick, b)
  {
    var k, o :| 0 <= k < |front| && front[k].index < |hosts| && 0 <= o < CHILDREN_PER_HOST
      && b == ChildOf(w, hosts[front[k].index], front[k], tick, o, b.id);
    var rs := front + [r];
    assert rs[k] == front[k];
    assert b == ChildOf(w, hosts[rs[k].index], rs[k], tick, o, b.id);
  }

  // ---- The whole step ----

  function Lives(tick: nat): Bullet -> bool {
    (b: Bullet) => b.vanishTick == 0 || tick <= b.vanishTick
  }

  predicate InBounds(b: Bullet) {
    -20.0 <= b.motion.x <= SCREEN_WIDTH + 20.0 && -20.0 <= b.motion.y <= SCREEN_HEIGHT + 20.0
  }

  function Kept(f: Field, tick: nat): seq<Bullet> {
    Keep(f.bullets, Lives(tick))
  }

  lemma MovedKeepsNames(w: World, kept: seq<Bullet>, tick: nat)
    ensures Within(Requests(w, kept, tick), |kept|)
    ensures var rs := Requests(w, kept, tick);
      forall k :: 0 <= k < |rs| ==> Names(rs[k], Moved(w, kept, tick)) && Asks(w, kept[rs[k].index], tick)
  {
    RequestsNameHosts(w, kept, tick);
    var rs, m := Requests(w, kept, tick), Moved(w, kept, tick);
    hide Requests, Moved;
    forall k | 0 <= k < |rs|
      ensures Names(rs[k], m) && Asks(w, kept[rs[k].index], tick) && rs[k].index < |kept|
    {
      assert Names(rs[k], kept);
    }
  }

  /** The field after the first two passes. */
  ghost function Spread(w: World, f: Field, tick: nat): Field {
    MovedKeepsNames(w, Kept(f, tick), tick);
    Split(w, Field(Moved(w, Kept(f, tick), tick), f.nextId), Requests(w, Kept(f, tick), tick), tick)
  }

  ghost function Advanced(w: World, f: Field, tick: nat): Field {
    var g := Spread(w, f, tick);
    Field(Keep(g.bullets, InBounds), g.nextId)
  }

  lemma KeptSound(f: Field, tick: nat)
    requires Sound(f.bullets, f.nextId)
    ensures Sound(Kept(f, tick), f.nextId) && Fewer(Kept(f, tick), f.bullets) && PartOf(Kept(f, tick), f.bullets, Lives(tick))
  {
    hide Sound, Fewer, PartOf;
    KeepSound(f.bullets, Lives(tick), f.nextId);
  }

  /** After the first two passes: the surviving bullets stand where they stood, each moved once; behind them are
      only children of hosts that asked in this tick, unmoved since they were made; and no cap is passed. */
  lemma SpreadGrows(w: World, f: Field, tick: nat)
    requires Sound(f.bullets, f.nextId)
    ensures var kept := Kept(f, tick);
      Grown(w, Field(Moved(w, kept, tick), f.nextId), Requests(w, kept, tick), tick, Spread(w, f, tick))
  {
    var kept := Kept(f, tick);
    KeptSound(f, tick);
    MovedSound(w, kept, tick, f.nextId);
    MovedKeepsNames(w, kept, tick);
    hide *;
    SplitGrows(w, Field(Moved(w, kept, tick), f.nextId), Requests(w, kept, tick), tick);
    SpreadIsSplit(w, f, tick);
  }

  lemma SpreadIsSplit(w: World, f: Field, tick: nat)
    ensures Within(Requests(w, Kept(f, tick), tick), |Moved(w, Kept(f, tick), tick)|)
    ensures Spread(w, f, tick) == Split(w, Field(Moved(w, Kept(f, tick), tick), f.nextId), Requests(w, Kept(f, tick), tick), tick)
  {
    MovedKeepsNames(w, Kept(f, tick), tick);
    hide Kept, Requests, Split;
  }

  /** Children are numbered in the order they are made. */
  lemma {:induction false} SplitNumbers(w: World, f: Field, rs: seq<Request>, tick: nat)
    requires Within(rs, |f.bullets|)
    ensures Split(w, f, rs, tick).nextId == f.nextId + |Split(w, f, rs, tick).bullets| - |f.bullets|
    ensures var g := Split(w, f, rs, tick);
      forall i :: |f.bullets| <= i < |g.bullets| ==> g.bullets[i].id == f.nextId + (i - |f.bullets|)
    decreases |rs|
  {
    if rs != [] {
      var front, r := rs[..|rs| - 1], rs[|rs| - 1];
      assert Within(front, |f.bullets|);
      SplitNumbers(w, f, front, tick);
      var g := Split(w, f, front, tick);
      hide Split, RoomFor;
      assert Split(w, f, rs, tick) == Born(w, g, r, tick) by { SplitLast(w, f, rs, tick); }
    }
  }

  lemma SplitLast(w: World, f: Field, rs: seq<Request>, tick: nat)
    requires Within(rs, |f.bullets|) && rs != []
    ensures Within(rs[..|rs| - 1], |f.bullets|)
      && Split(w, f, rs, tick) == Born(w, Split(w, f, rs[..|rs| - 1], tick), rs[|rs| - 1], tick)
  {
    hide Born;
  }

  /** How many bullets of an owner ask to split in this tick and still may. */
  function Askers(w: World, bullets: seq<Bullet>, owner: string, tick: nat): nat {
    if bullets == [] then 0 else
    var n, b := |bullets| - 1, bullets[|bullets| - 1];
    Askers(w, bullets[..n], owner, tick) + (if b.owner == owner && Asks(w, b, tick) && b.generation < MAX_GENERATION then 1 else 0)
  }

  /** Of each owner the first eight are heard. */
  lemma {:induction false} HostsHeard(w: World, bullets: seq<Bullet>, owner: string, tick: nat)
    ensures Hosts(Requests(w, bullets, tick), owner) == Least(HOSTS_PER_TICK, Askers(w, bullets, owner, tick))
    decreases |bullets|
  {
    hide Asks;
    if bullets != [] {
      var n := |bullets| - 1;
      HostsHeard(w, bullets[..n], owner, tick);
      HostsSnoc(Requests(w, bullets[..n], tick), RequestOf(bullets[n], n), owner);
    }
  }

  predicate Heard(rs: seq<Request>, index: nat) {
    exists k :: 0 <= k < |rs| && rs[k].index == index
  }

  lemma HeardSnoc(rs: seq<Request>, r: Request, index: nat)
    ensures Heard(rs + [r], index) <==> Heard(rs, index) || r.index == index
  {
    var all := rs + [r];
    assert all[|rs|] == r;
    if k :| 0 <= k < |rs| && rs[k].index == index {
      assert all[k] == rs[k];
    }
  }

  /** A bullet is heard exactly when it asks, is below the last generation, and fewer than eight of its owner's
      did so before it. */
  lemma {:induction false} HeardExactly(w: World, bullets: seq<Bullet>, tick: nat, i: nat)
    requires i < |bullets|
    ensures Heard(Requests(w, bullets, tick), i) <==>
      && Asks(w, bullets[i], tick) && bullets[i].generation < MAX_GENERATION
      && Askers(w, bullets[..i], bullets[i].owner, tick) < HOSTS_PER_TICK
    decreases |bullets|
  {
    hide Asks, Hosts, Askers, Requests, Heard;
    var n := |bullets| - 1;
    if i < n {
      HeardExactly(w, bullets[..n], tick, i);
      HeardBefore(w, bullets, tick, i);
      assert bullets[..n][..i] == bullets[..i] && bullets[..n][i] == bullets[i];
    } else {
      HeardLast(w, bullets, tick);
    }
  }

  lemma HeardBefore(w: World, bullets: seq<Bullet>, tick: nat, i: nat)
    requires i < |bullets| - 1
    ensures Heard(Requests(w, bullets, tick), i) <==> Heard(Requests(w, bullets[..|bullets| - 1], tick), i)
  {
    hide Asks, Hosts, Requests, Heard;
    var n := |bullets| - 1;
    RequestsLast(w, bullets, tick);
    HeardSnoc(Requests(w, bullets[..n], tick), RequestOf(bullets[n], n), i);
  }

  lemma HeardLast(w: World, bullets: seq<Bullet>, tick: nat)
    requires bullets != []
    ensures var n := |bullets| - 1;
      Heard(Requests(w, bullets, tick), n) <==>
        && Asks(w, bullets[n], tick) && bullets[n].generation < MAX_GENERATION
        && Askers(w, bullets[..n], bullets[n].owner, tick) < HOSTS_PER_TICK
  {
    hide Asks, Hosts, Requests, Heard, Askers, AllName, Ordered, Budgeted;
    var n := |bullets| - 1;
    var before := Requests(w, bullets[..n], tick);
    RequestsLast(w, bullets, tick);
    HostsHeard(w, bullets[..n], bullets[n].owner, tick);
    HeardSnoc(before, RequestOf(bullets[n], n), n);
    RequestsNameHosts(w, bullets[..n], tick);
    NotBeyond(w, before, bullets[..n], tick);
  }

  lemma RequestsLast(w: World, bullets: seq<Bullet>, tick: nat)
    requires bullets != []
    ensures var n := |bullets| - 1;
      var before := Requests(w, bullets[..n], tick);
      Requests(w, bullets, tick) ==
        if Asks(w, bullets[n], tick) && bullets[n].generation < MAX_GENERATION && Hosts(before, bullets[n].owner) < HOSTS_PER_TICK
        then before + [RequestOf(bullets[n], n)] else before
    ensures RequestOf(bullets[|bullets| - 1], |bullets| - 1).index == |bullets| - 1
  {
    hide Asks, Hosts;
  }

  lemma NotBeyond(w: World, rs: seq<Request>, bullets: seq<Bullet>, tick: nat)
    requires AllName(w, rs, bullets, tick)
    ensures !Heard(rs, |bullets|)
  {
    hide Asks;
  }

  /** `c` is a child of `h`: of the same owner and pattern, one generation on, not yet vanishing. */
  ghost predicate ChildFrom(w: World, h: Bullet, tick: nat, c: Bullet) {
    && c.owner == h.owner && c.pattern == h.pattern && c.patternIndex == h.patternIndex && c.chainId == h.patternIndex
    && c.generation == h.generation + 1 && c.vanishTick == 0
    && exists o :: 0 <= o < CHILDREN_PER_HOST && c.motion == w.child(h.motion, tick, h.patternIndex, h.spawnIndex, o).motion
  }

  /** `c` is a child of one of these bullets, which asked in this tick and is below the last generation. */
  ghost predicate ChildOfAsker(w: World, kept: seq<Bullet>, tick: nat, c: Bullet) {
    exists k :: && 0 <= k < |kept| && Asks(w, kept[k], tick) && kept[k].generation < MAX_GENERATION
                && ChildFrom(w, Moved(w, kept, tick)[k], tick, c)
  }

  lemma BornIsChild(w: World, kept: seq<Bullet>, tick: nat, c: Bullet)
    requires BornOf(w, Moved(w, kept, tick), Requests(w, kept, tick), tick, c)
    ensures ChildOfAsker(w, kept, tick, c)
  {
    var m, rs := Moved(w, kept, tick), Requests(w, kept, tick);
    MovedKeepsNames(w, kept, tick);
    hide Requests, Moved;
    var j, o :| 0 <= j < |rs| && rs[j].index < |m| && 0 <= o < CHILDREN_PER_HOST && c == ChildOf(w, m[rs[j].index], rs[j], tick, o, c.id);
    assert Names(rs[j], m);
    assert ChildFrom(w, m[rs[j].index], tick, c);
  }

  /** After the first two passes the survivors stand in their order, unchanged but for one move of those that are
      not vanishing; what stands behind them are children, of bullets below the last generation that asked. */
  lemma SpreadIs(w: World, f: Field, tick: nat, i: nat)
    requires Sound(f.bullets, f.nextId) && i < |Spread(w, f, tick).bullets|
    ensures var kept, b := Kept(f, tick), Spread(w, f, tick).bullets[i];
      if i < |kept| then b == (if kept[i].vanishTick == 0 then kept[i].(motion := w.move(kept[i], tick).(asks := false)) else kept[i])
      else b.id == f.nextId + (i - |kept|) && ChildOfAsker(w, kept, tick, b)
  {
    var kept, g := Kept(f, tick), Spread(w, f, tick);
    SpreadGrows(w, f, tick);
    SpreadIsSplit(w, f, tick);
    SplitNumbers(w, Field(Moved(w, kept, tick), f.nextId), Requests(w, kept, tick), tick);
    hide Kept, Spread, Split, Requests, Sound, Counted, BornOf, ChildOfAsker;
    if i >= |kept| {
      BornIsChild(w, kept, tick, g.bullets[i]);
    } else {
      assert g.bullets[i] == Moved(w, kept, tick)[i];
    }
  }

  lemma AdvanceKeepsSound(w: World, f: Field, tick: nat)
    requires Sound(f.bullets, f.nextId)
    ensures Sound(Advanced(w, f, tick).bullets, Advanced(w, f, tick).nextId)
  {
    SpreadGrows(w, f, tick);
    var g := Spread(w, f, tick);
    hide Spread, Sound, Counted, BornOf;
    KeepSound(g.bullets, InBounds, g.nextId);
  }

  // ---- The other ways bullets come and go ----

  /** One wave of one owner; the emitters decide the motions. */
  datatype Volley = Volley(owner: string, pattern: string, patternIndex: nat, chainId: nat, motions: seq<Motion>)

  function Shot(v: Volley, k: nat, id: nat): Bullet
    requires k < |v.motions|
  {
    Bullet(id, v.owner, v.pattern, v.patternIndex, v.chainId, k, 0, 0, v.motions[k])
  }

  function Shots(v: Volley, n: nat, nextId: nat): (s: seq<Bullet>)
    requires n <= |v.motions|
    ensures |s| == n && forall k :: 0 <= k < n ==> s[k] == Shot(v, k, nextId + k)
  {
    seq(n, k requires 0 <= k < n => Shot(v, k, nextId + k))
  }

  /** A wave is cut where its owner reaches the cap. */
  function Fired(f: Field, v: Volley): Field {
    var n := Least(RoomFor(f.bullets, v.owner), |v.motions|);
    Field(f.bullets + Shots(v, n, f.nextId), f.nextId + n)
  }

  lemma FiredSound(f: Field, v: Volley)
    requires Sound(f.bullets, f.nextId)
    ensures Sound(Fired(f, v).bullets, Fired(f, v).nextId)
  {
    hide Sound, RoomFor;
    var n := Least(RoomFor(f.bullets, v.owner), |v.motions|);
    BatchSound(f.bullets, f.nextId, Shots(v, n, f.nextId), v.owner);
  }

  /** What a card effect asks of the field. */
  datatype Delta = Spawn(pattern: string, motion: Motion) | Despawn(id: nat)

  function CardBullet(owner: string, pattern: string, motion: Motion, id: nat): Bullet {
    Bullet(id, owner, pattern, 0, 0, id, 0, 0, motion)
  }

  function Changed(f: Field, d: Delta, owner: string): Field {
    match d
    case Spawn(pattern, motion) =>
      if Owned(f.bullets, owner) >= BULLET_CAP then f
      else Field(f.bullets + [CardBullet(owner, pattern, motion, f.nextId)], f.nextId + 1)
    case Despawn(id) => Field(Keep(f.bullets, (b: Bullet) => b.id != id), f.nextId)
  }

  lemma ChangedSound(f: Field, d: Delta, owner: string)
    requires Sound(f.bullets, f.nextId)
    ensures Sound(Changed(f, d, owner).bullets, Changed(f, d, owner).nextId)
  {
    hide Sound, Owned, Keep, PartOf, Fewer;
    match d
    case Spawn(pattern, motion) =>
      if Owned(f.bullets, owner) < BULLET_CAP {
        PushSound(f.bullets, f.nextId, CardBullet(owner, pattern, motion, f.nextId));
      }
    case Despawn(id) => KeepSound(f.bullets, (b: Bullet) => b.id != id, f.nextId);
  }

  function AllChanged(f: Field, ds: seq<Delta>, owner: string): Field {
    if ds == [] then f else Changed(AllChanged(f, ds[..|ds| - 1], owner), ds[|ds| - 1], owner)
  }

  lemma {:induction false} AllChangedSound(f: Field, ds: seq<Delta>, owner: string)
    requires Sound(f.bullets, f.nextId)
    ensures Sound(AllChanged(f, ds, owner).bullets, AllChanged(f, ds, owner).nextId)
    decreases |ds|
  {
    hide Sound, Changed;
    if ds != [] {
      AllChangedSound(f, ds[..|ds| - 1], owner);
      ChangedSound(AllChanged(f, ds[..|ds| - 1], owner), ds[|ds| - 1], owner);
    }
  }

  /** The screen clear of a new spell phase marks; the bullets go in the next step. */
  function Marked(b: Bullet, owner: string, tick: nat): Bullet {
    if b.owner == owner && b.vanishTick == 0 then b.(vanishTick := tick) else b
  }

  function Cleared(bullets: seq<Bullet>, owner: string, tick: nat): (r: seq<Bullet>)
    ensures |r| == |bullets| && forall i :: 0 <= i < |r| ==> r[i] == Marked(bullets[i], owner, tick)
  {
    seq(|bullets|, i requires 0 <= i < |bullets| => Marked(bullets[i], owner, tick))
  }

  lemma ClearedSound(bullets: seq<Bullet>, owner: string, tick: nat, nextId: nat)
    requires Sound(bullets, nextId)
    ensures Sound(Cleared(bullets, owner, tick), nextId)
  {
    var c := Cleared(bullets, owner, tick);
    forall o
      ensures Owned(c, o) <= BULLET_CAP
    {
      SameOwners(bullets, c, o);
      assert Owned(bullets, o) <= BULLET_CAP;
    }
    hide Owned;
  }

  ghost predicate Doomed(bullets: seq<Bullet>, owner: string, tick: nat) {
    forall i :: 0 <= i < |bullets| ==> bullets[i].owner == owner ==> 0 < bullets[i].vanishTick < tick
  }

  /** A cleared owner has no bullet left after the next step: what was marked is gone and asked for no child. */
  lemma ClearedScreenIsEmpty(w: World, f: Field, owner: string, tick: nat)
    requires Sound(f.bullets, f.nextId) && Doomed(f.bullets, owner, tick)
    ensures Owned(Advanced(w, f, tick).bullets, owner) == 0
  {
    var kept := Kept(f, tick);
    var moved := Field(Moved(w, kept, tick), f.nextId);
    KeptSound(f, tick);
    NoneLeft(f, owner, tick);
    SpreadGrows(w, f, tick);
    var g := Spread(w, f, tick);
    SameOwners(kept, moved.bullets, owner);
    NoOwnerNoHosts(w, kept, tick, owner);
    assert Owned(g.bullets, owner) == Due(moved, Requests(w, kept, tick), owner) == 0;
    hide Owned, Spread, Keep;
    KeepSound(g.bullets, InBounds, g.nextId);
    assert Owned(Keep(g.bullets, InBounds), owner) <= Owned(g.bullets, owner);
  }

  lemma NoneLeft(f: Field, owner: string, tick: nat)
    requires PartOf(Kept(f, tick), f.bullets, Lives(tick)) && Doomed(f.bullets, owner, tick)
    ensures Owned(Kept(f, tick), owner) == 0
  {
    var kept := Kept(f, tick);
    hide Kept;
    forall i | 0 <= i < |kept|
      ensures kept[i].owner != owner
    {
      assert kept[i] in f.bullets && Lives(tick)(kept[i]);
    }
    NoneOwned(kept, owner);
  }

  lemma {:induction false} NoneOwned(bullets: seq<Bullet>, owner: string)
    requires forall i :: 0 <= i < |bullets| ==> bullets[i].owner != owner
    ensures Owned(bullets, owner) == 0
    decreases |bullets|
  {
    if bullets != [] {
      NoneOwned(bullets[..|bullets| - 1], owner);
    }
  }

  lemma {:induction false} NoOwnerNoHosts(w: World, bullets: seq<Bullet>, tick: nat, owner: string)
    requires Owned(bullets, owner) == 0
    ensures Hosts(Requests(w, bullets, tick), owner) == 0
    decreases |bullets|
  {
    if bullets != [] {
      var n := |bullets| - 1;
      NoOwnerNoHosts(w, bullets[..n], tick, owner);
      HostsSnoc(Requests(w, bullets[..n], tick), RequestOf(bullets[n], n), owner);
    }
  }

  // ---- Runs ----

  datatype Move = Fire(volley: Volley) | Card(deltas: seq<Delta>, player: string) | Clear(owner: string, tick: nat) | Advance(world: World, at: nat)

  ghost function Apply(f: Field, m: Move): Field {
    match m
    case Fire(v) => Fired(f, v)
    case Card(ds, owner) => AllChanged(f, ds, owner)
    case Clear(owner, tick) => Field(Cleared(f.bullets, owner, tick), f.nextId)
    case Advance(w, tick) => Advanced(w, f, tick)
  }

  ghost function Run(f: Field, ms: seq<Move>): Field {
    if ms == [] then f else Apply(Run(f, ms[..|ms| - 1]), ms[|ms| - 1])
  }

  lemma ApplyKeepsSound(f: Field, m: Move)
    requires Sound(f.bullets, f.nextId)
    ensures Sound(Apply(f, m).bullets, Apply(f, m).nextId)
  {
    hide Sound, Fired, AllChanged, Cleared, Advanced;
    match m
    case Fire(v) => FiredSound(f, v);
    case Card(ds, owner) => AllChangedSound(f, ds, owner);
    case Clear(owner, tick) => ClearedSound(f.bullets, owner, tick, f.nextId);
    case Advance(w, tick) => AdvanceKeepsSound(w, f, tick);
  }

  /** In every run each owner keeps within the cap, ids stay distinct and below the next one, and no bullet is
      beyond the last generation. */
  lemma {:induction false} RunsStaySound(nextId: nat, ms: seq<Move>)
    ensures Sound(Run(Field([], nextId), ms).bullets, Run(Field([], nextId), ms).nextId)
    decreases |ms|
  {
    hide Sound, Apply;
    if ms == [] {
      EmptySound(nextId);
    } else {
      RunsStaySound(nextId, ms[..|ms| - 1]);
      ApplyKeepsSound(Run(Field([], nextId), ms[..|ms| - 1]), ms[|ms| - 1]);
    }
  }

  lemma EmptySound(nextId: nat)
    ensures Sound([], nextId)
  {
  }

  // ---- The screen ----

  lemma {:induction false} KeptMeans(bullets: seq<Bullet>, keep: Bullet -> bool)
    ensures forall b :: b in Keep(bullets, keep) <==> b in bullets && keep(b)
    decreases |bullets|
  {
    if bullets != [] {
      var n := |bullets| - 1;
      KeptMeans(bullets[..n], keep);
      assert bullets == bullets[..n] + [bullets[n]];
    }
  }

  /** After a step the field is what the two passes made of it, less what left the screen by more than twenty. */
  lemma AdvancedStaysOnScreen(w: World, f: Field, tick: nat, b: Bullet)
    ensures b in Advanced(w, f, tick).bullets <==>
      b in Spread(w, f, tick).bullets && -20.0 <= b.motion.x <= 660.0 && -20.0 <= b.motion.y <= 980.0
  {
    hide Spread, Keep;
    KeptMeans(Spread(w, f, tick).bullets, InBounds);
  }

  /** What a screen clear has marked before this tick is gone when it begins, everything else is there. */
  lemma MarkedGo(f: Field, tick: nat, b: Bullet)
    ensures b in Kept(f, tick) <==> b in f.bullets && (b.vanishTick == 0 || b.vanishTick >= tick)
  {
    hide Keep;
    KeptMeans(f.bullets, Lives(tick));
  }
}
