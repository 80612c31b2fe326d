/** Bullet purge and finisher of src/card_effects.cpp and their application in src/simulation.cpp: which
    bullets go is independent of the order they are listed in, and exactly those go. */
module CardEffects {
  import opened Bytes

  /** The fields the selection looks at; `rest` stands for the others. */
  datatype Bullet = Bullet(id: string, x: real, y: real, rest: string)

  datatype Candidate = Candidate(id: string, weight: real)

  // ---- Orders ----

  function Leq(a: string, b: string): bool {
    a == "" || (b != "" && (a[0] < b[0] || (a[0] == b[0] && Leq(a[1..], b[1..]))))
  }

  lemma {:induction false} LeqTotal(a: string, b: string)
    ensures Leq(a, b) || Leq(b, a)
    ensures Leq(a, b) && Leq(b, a) ==> a == b
    decreases |a|
  {
    if a != "" && b != "" && a[0] == b[0] {
      LeqTotal(a[1..], b[1..]);
      assert a == [a[0]] + a[1..] && b == [b[0]] + b[1..];
    }
  }

  lemma {:induction false} LeqTransitive(a: string, b: string, c: string)
    requires Leq(a, b) && Leq(b, c)
    ensures Leq(a, c)
    decreases |a|
  {
    if a != "" && a[0] == b[0] && b[0] == c[0] {
      LeqTransitive(a[1..], b[1..], c[1..]);
    }
  }

  /** By unit, then by id. */
  predicate Before(a: Candidate, b: Candidate) {
    a.weight < b.weight || (a.weight == b.weight && Leq(a.id, b.id))
  }

  ghost predicate Order<T(!new)>(leq: (T, T) -> bool) {
    && (forall a, b :: leq(a, b) || leq(b, a))
    && (forall a, b, c :: leq(a, b) && leq(b, c) ==> leq(a, c))
  }

  lemma IdOrder()
    ensures Order(Leq)
  {
    forall a: string, b: string
      ensures Leq(a, b) || Leq(b, a)
    {
      LeqTotal(a, b);
    }
    forall a: string, b: string, c: string | Leq(a, b) && Leq(b, c)
      ensures Leq(a, c)
    {
      LeqTransitive(a, b, c);
    }
  }

  lemma CandidateOrder()
    ensures Order(Before)
  {
    forall a: Candidate, b: Candidate
      ensures Before(a, b) || Before(b, a)
    {
      LeqTotal(a.id, b.id);
    }
    forall a: Candidate, b: Candidate, c: Candidate | Before(a, b) && Before(b, c)
      ensures Before(a, c)
    {
      if Leq(a.id, b.id) && Leq(b.id, c.id) {
        LeqTransitive(a.id, b.id, c.id);
      }
    }
  }

  // ---- Sorting ----

  function Insert<T>(x: T, s: seq<T>, leq: (T, T) -> bool): seq<T> {
    if s == [] || leq(x, s[0]) then [x] + s else [s[0]] + Insert(x, s[1..], leq)
  }

  /** std::sort. */
  function Sort<T>(s: seq<T>, leq: (T, T) -> bool): seq<T> {
    if s == [] then [] else Insert(s[0], Sort(s[1..], leq), leq)
  }

  ghost predicate Sorted<T>(s: seq<T>, leq: (T, T) -> bool) {
    forall i, j :: 0 <= i < j < |s| ==> leq(s[i], s[j])
  }

  lemma {:induction false} InsertPermutes<T>(x: T, s: seq<T>, leq: (T, T) -> bool)
    ensures multiset(Insert(x, s, leq)) == multiset{x} + multiset(s)
  {
    if s != [] && !leq(x, s[0]) {
      InsertPermutes(x, s[1..], leq);
      assert s == [s[0]] + s[1..];
    }
  }

  lemma {:induction false} SortPermutes<T>(s: seq<T>, leq: (T, T) -> bool)
    ensures multiset(Sort(s, leq)) == multiset(s)
  {
    if s != [] {
      SortPermutes(s[1..], leq);
      InsertPermutes(s[0], Sort(s[1..], leq), leq);
      assert s == [s[0]] + s[1..];
    }
  }

  lemma {:induction false} InsertSorted<T(!new)>(x: T, s: seq<T>, leq: (T, T) -> bool)
    requires Order(leq) && Sorted(s, leq)
    ensures Sorted(Insert(x, s, leq), leq)
  {
    if s != [] {
      if leq(x, s[0]) {
        assert forall j :: 0 <= j < |s| ==> leq(s[0], s[j]);
      } else {
        InsertSorted(x, s[1..], leq);
        InsertPermutes(x, s[1..], leq);
        var t := Insert(x, s[1..], leq);
        forall j | 0 <= j < |t|
          ensures leq(s[0], t[j])
        {
          InInserted(x, s[1..], t, j);
        }
      }
    }
  }

  lemma InInserted<T>(x: T, s: seq<T>, t: seq<T>, j: nat)
    requires multiset(t) == multiset{x} + multiset(s) && j < |t|
    ensures t[j] == x || t[j] in s
  {
    assert t[j] in multiset(t);
  }

  lemma {:induction false} SortSorted<T(!new)>(s: seq<T>, leq: (T, T) -> bool)
    requires Order(leq)
    ensures Sorted(Sort(s, leq), leq)
  {
    hide Order;
    if s != [] {
      SortSorted(s[1..], leq);
      InsertSorted(s[0], Sort(s[1..], leq), leq);
    }
  }

  lemma TailMultiset<T>(s: seq<T>)
    requires s != []
    ensures multiset(s[1..]) == multiset(s) - multiset{s[0]} && s == [s[0]] + s[1..]
  {
    assert s == [s[0]] + s[1..];
  }

  lemma SameHead(s: seq<string>, t: seq<string>)
    requires Sorted(s, Leq) && Sorted(t, Leq) && multiset(s) == multiset(t) && s != [] && t != []
    ensures s[0] == t[0]
  {
    assert s[0] in multiset(t) && t[0] in multiset(s);
    FirstIsLeast(s, t[0]);
    FirstIsLeast(t, s[0]);
    LeqTotal(s[0], t[0]);
  }

  /** Sorted ids with the same elements are the same ids. */
  lemma {:induction false} SortedIdsUnique(s: seq<string>, t: seq<string>)
    requires Sorted(s, Leq) && Sorted(t, Leq) && multiset(s) == multiset(t)
    ensures s == t
  {
    hide Leq;
    SameSize(s, t);
    if s != [] {
      SameHead(s, t);
      TailMultiset(s);
      TailMultiset(t);
      SortedIdsUnique(s[1..], t[1..]);
    }
  }

  lemma SameSize<T>(s: seq<T>, t: seq<T>)
    requires multiset(s) == multiset(t)
    ensures |s| == |t|
  {
    assert |multiset(s)| == |s| && |multiset(t)| == |t|;
  }

  lemma FirstIsLeast(s: seq<string>, x: string)
    requires s != [] && Sorted(s, Leq) && x in s
    ensures Leq(s[0], x)
  {
    LeqTotal(s[0], s[0]);
  }

  // ---- Selection ----

  function Ids(bullets: seq<Bullet>): (ids: seq<string>)
    ensures |ids| == |bullets| && forall i :: 0 <= i < |ids| ==> ids[i] == bullets[i].id
  {
    seq(|bullets|, i requires 0 <= i < |bullets| => bullets[i].id)
  }

  /** SortedBulletIds. */
  function SortedIds(bullets: seq<Bullet>): seq<string> {
    Sort(Ids(bullets), Leq)
  }

  /** The first bullet with this id. */
  function Lookup(bullets: seq<Bullet>, id: string): Option<Bullet> {
    if bullets == [] then None else if bullets[0].id == id then Some(bullets[0]) else Lookup(bullets[1..], id)
  }

  predicate Near(b: Bullet, x: real, y: real, radius: real) {
    (b.x - x) * (b.x - x) + (b.y - y) * (b.y - y) <= radius * radius
  }

  /** The in-range bullets of the sorted ids, each with the unit drawn for its place among all ids. */
  function Candidates(bullets: seq<Bullet>, ids: seq<string>, near: Bullet -> bool, unit: nat -> real): seq<Candidate> {
    if ids == [] then [] else
    var n := |ids| - 1;
    var found := Lookup(bullets, ids[n]);
    Candidates(bullets, ids[..n], near, unit)
      + (if found.Some? && near(found.value) then [Candidate(ids[n], unit(n))] else [])
  }

  function Ranked(bullets: seq<Bullet>, near: Bullet -> bool, unit: nat -> real): seq<Candidate> {
    Sort(Candidates(bullets, SortedIds(bullets), near, unit), Before)
  }

  function Take(ranked: seq<Candidate>, count: int): seq<Candidate> {
    if count <= 0 then [] else if |ranked| <= count then ranked else ranked[..count]
  }

  function CandidateIds(c: seq<Candidate>): (ids: seq<string>)
    ensures |ids| == |c| && forall i :: 0 <= i < |ids| ==> ids[i] == c[i].id
  {
    seq(|c|, i requires 0 <= i < |c| => c[i].id)
  }

  /** ApplyBulletPurge: the ids of its despawn deltas, in order. */
  function Purge(bullets: seq<Bullet>, near: Bullet -> bool, radius: real, count: int, unit: nat -> real): seq<string> {
    if radius > 0.0 && count > 0 then CandidateIds(Take(Ranked(bullets, near, unit), count)) else []
  }

  /** ApplyFinisher. */
  function Finisher(bullets: seq<Bullet>): seq<string> {
    SortedIds(bullets)
  }

  ghost predicate Distinct(ids: seq<string>) {
    forall i, j :: 0 <= i < j < |ids| ==> ids[i] != ids[j]
  }

  method FindBullet(bullets: seq<Bullet>, id: string) returns (found: Option<Bullet>)
    ensures found == Lookup(bullets, id)
  {
    for i := 0 to |bullets|
      invariant Lookup(bullets, id) == Lookup(bullets[i..], id)
    {
      if bullets[i].id == id {
        return Some(bullets[i]);
      }
      assert bullets[i..][1..] == bullets[i + 1..];
    }
    found := None;
  }

  method ApplyBulletPurge(bullets: seq<Bullet>, x: real, y: real, radius: real, count: int, unit: nat -> real)
      returns (despawned: seq<string>)
    ensures despawned == Purge(bullets, b => Near(b, x, y, radius), radius, count, unit)
  {
    despawned := [];
    if radius <= 0.0 || count <= 0 {
      return;
    }
    ghost var near := (b: Bullet) => Near(b, x, y, radius);
    var ids := SortedIds(bullets);
    var candidates: seq<Candidate> := [];
    hide SortedIds, Near;
    for index := 0 to |ids|
      invariant candidates == Candidates(bullets, ids[..index], near, unit)
    {
      assert ids[..index + 1][..index] == ids[..index];
      var found := FindBullet(bullets, ids[index]);
      if found.Some? && Near(found.value, x, y, radius) {
        candidates := candidates + [Candidate(ids[index], unit(index))];
      }
    }
    assert ids[..|ids|] == ids;
    candidates := Sort(candidates, Before);
    var limit := if count > |candidates| then |candidates| else count;
    for i := 0 to limit
      invariant despawned == CandidateIds(candidates[..i])
    {
      despawned := despawned + [candidates[i].id];
    }
    assert Take(candidates, count) == candidates[..limit];
  }

  // ---- Order-free ----

  lemma {:induction false} LookupFinds(bullets: seq<Bullet>, i: nat)
    requires Distinct(Ids(bullets)) && i < |bullets|
    ensures Lookup(bullets, bullets[i].id) == Some(bullets[i])
  {
    if i > 0 {
      assert Ids(bullets)[0] != Ids(bullets)[i];
      assert forall k :: 0 <= k < |bullets| - 1 ==> Ids(bullets[1..])[k] == Ids(bullets)[k + 1];
      LookupFinds(bullets[1..], i - 1);
    }
  }

  lemma {:induction false} LookupMisses(bullets: seq<Bullet>, id: string)
    requires id !in Ids(bullets)
    ensures Lookup(bullets, id) == None
  {
    if bullets != [] {
      assert Ids(bullets)[0] == bullets[0].id;
      assert forall k :: 0 <= k < |bullets| - 1 ==> Ids(bullets[1..])[k] == Ids(bullets)[k + 1];
      LookupMisses(bullets[1..], id);
    }
  }

  lemma LookupOrderFree(a: seq<Bullet>, b: seq<Bullet>, id: string)
    requires multiset(a) == multiset(b) && Distinct(Ids(a)) && Distinct(Ids(b))
    ensures Lookup(a, id) == Lookup(b, id)
  {
    if id in Ids(a) {
      var i :| 0 <= i < |a| && Ids(a)[i] == id;
      assert a[i] in multiset(b);
      var j :| 0 <= j < |b| && b[j] == a[i];
      LookupFinds(a, i);
      LookupFinds(b, j);
    } else {
      forall j | 0 <= j < |b|
        ensures Ids(b)[j] != id
      {
        assert b[j] in multiset(a);
        var i :| 0 <= i < |a| && a[i] == b[j];
        assert Ids(a)[i] == b[j].id;
      }
      LookupMisses(a, id);
      LookupMisses(b, id);
    }
  }

  function DropAt(b: seq<Bullet>, j: nat): (r: seq<Bullet>)
    requires j < |b|
    ensures |r| == |b| - 1
  {
    b[..j] + b[j + 1..]
  }

  lemma DropMultiset(b: seq<Bullet>, j: nat)
    requires j < |b|
    ensures multiset(DropAt(b, j)) == multiset(b) - multiset{b[j]}
  {
    assert b == b[..j] + [b[j]] + b[j + 1..];
  }

  lemma PlaceOf(a: seq<Bullet>, b: seq<Bullet>) returns (j: nat)
    requires multiset(a) == multiset(b) && a != []
    ensures j < |b| && b[j] == a[0]
  {
    assert a[0] in multiset(b);
    j :| j < |b| && b[j] == a[0];
  }

  lemma {:induction false} IdsPermute(a: seq<Bullet>, b: seq<Bullet>)
    requires multiset(a) == multiset(b)
    ensures multiset(Ids(a)) == multiset(Ids(b))
    decreases |a|
  {
    hide *;
    if a == [] {
      SameSize(a, b);
      assert b == [];
    } else {
      var j := PlaceOf(a, b);
      DropMultiset(a, 0);
      DropMultiset(b, j);
      IdsPermute(DropAt(a, 0), DropAt(b, j));
      IdsSplit(a, 0);
      IdsSplit(b, j);
    }
  }

  lemma IdsSplit(a: seq<Bullet>, j: nat)
    requires j < |a|
    ensures multiset(Ids(a)) == multiset(Ids(DropAt(a, j))) + multiset{a[j].id}
  {
    IdsConcat(a[..j], [a[j]]);
    IdsConcat(a[..j] + [a[j]], a[j + 1..]);
    IdsConcat(a[..j], a[j + 1..]);
    assert a == a[..j] + [a[j]] + a[j + 1..];
    assert Ids([a[j]]) == [a[j].id];
    hide Ids;
  }

  lemma IdsConcat(a: seq<Bullet>, b: seq<Bullet>)
    ensures Ids(a + b) == Ids(a) + Ids(b)
  {
  }

  lemma SortedIdsOrderFree(a: seq<Bullet>, b: seq<Bullet>)
    requires multiset(a) == multiset(b)
    ensures SortedIds(a) == SortedIds(b)
  {
    IdsPermute(a, b);
    IdOrder();
    SortSorted(Ids(a), Leq);
    SortSorted(Ids(b), Leq);
    SortPermutes(Ids(a), Leq);
    SortPermutes(Ids(b), Leq);
    hide Sort, Order;
    SortedIdsUnique(SortedIds(a), SortedIds(b));
  }

  lemma {:induction false} CandidatesOrderFree(a: seq<Bullet>, b: seq<Bullet>, ids: seq<string>, near: Bullet -> bool, unit: nat -> real)
    requires multiset(a) == multiset(b) && Distinct(Ids(a)) && Distinct(Ids(b))
    ensures Candidates(a, ids, near, unit) == Candidates(b, ids, near, unit)
  {
    hide Lookup, Distinct;
    if ids != [] {
      CandidatesOrderFree(a, b, ids[..|ids| - 1], near, unit);
      LookupOrderFree(a, b, ids[|ids| - 1]);
    }
  }

  /** However the same bullets are listed, the same ones go, in the same order. */
  lemma PurgeIsOrderFree(a: seq<Bullet>, b: seq<Bullet>, near: Bullet -> bool, radius: real, count: int, unit: nat -> real)
    requires multiset(a) == multiset(b) && Distinct(Ids(a)) && Distinct(Ids(b))
    ensures Purge(a, near, radius, count, unit) == Purge(b, near, radius, count, unit)
    ensures Finisher(a) == Finisher(b)
  {
    SortedIdsOrderFree(a, b);
    CandidatesOrderFree(a, b, SortedIds(a), near, unit);
    hide SortedIds, Candidates, Sort, Take;
  }

  // ---- Which bullets go ----

  lemma {:induction false} CandidateIs(bullets: seq<Bullet>, ids: seq<string>, near: Bullet -> bool, unit: nat -> real, k: nat)
    requires k < |Candidates(bullets, ids, near, unit)|
    ensures var c := Candidates(bullets, ids, near, unit)[k];
      exists i :: 0 <= i < |ids| && Chosen(bullets, ids, near, unit, i, c)
  {
    hide Lookup;
    var n := |ids| - 1;
    var c, before := Candidates(bullets, ids, near, unit)[k], Candidates(bullets, ids[..n], near, unit);
    if k < |before| {
      CandidateIs(bullets, ids[..n], near, unit, k);
      var i :| 0 <= i < n && Chosen(bullets, ids[..n], near, unit, i, c);
      assert Chosen(bullets, ids, near, unit, i, c);
    } else {
      assert Chosen(bullets, ids, near, unit, n, c);
    }
  }

  /** `c` is the candidate of the `i`-th id. */
  predicate Chosen(bullets: seq<Bullet>, ids: seq<string>, near: Bullet -> bool, unit: nat -> real, i: nat, c: Candidate)
    requires i < |ids|
  {
    var found := Lookup(bullets, ids[i]);
    found.Some? && near(found.value) && c == Candidate(ids[i], unit(i))
  }

  lemma {:induction false} ChosenIsCandidate(bullets: seq<Bullet>, ids: seq<string>, near: Bullet -> bool, unit: nat -> real, i: nat, c: Candidate)
    requires i < |ids| && Chosen(bullets, ids, near, unit, i, c)
    ensures c in Candidates(bullets, ids, near, unit)
  {
    hide Lookup;
    var n := |ids| - 1;
    if i < n {
      ChosenIsCandidate(bullets, ids[..n], near, unit, i, c);
    }
  }

  /** How many bullets are in range. */
  function InRange(bullets: seq<Bullet>, near: Bullet -> bool): nat {
    if bullets == [] then 0 else
    InRange(bullets[..|bullets| - 1], near) + (if near(bullets[|bullets| - 1]) then 1 else 0)
  }

  function Hit(bullets: seq<Bullet>, near: Bullet -> bool, id: string): nat {
    if Lookup(bullets, id).Some? && near(Lookup(bullets, id).value) then 1 else 0
  }

  function Hits(bullets: seq<Bullet>, near: Bullet -> bool, ids: seq<string>): nat {
    if ids == [] then 0 else Hits(bullets, near, ids[..|ids| - 1]) + Hit(bullets, near, ids[|ids| - 1])
  }

  lemma {:induction false} CandidatesAreHits(bullets: seq<Bullet>, ids: seq<string>, near: Bullet -> bool, unit: nat -> real)
    ensures |Candidates(bullets, ids, near, unit)| == Hits(bullets, near, ids)
  {
    hide Lookup;
    if ids != [] {
      CandidatesAreHits(bullets, ids[..|ids| - 1], near, unit);
    }
  }

  lemma {:induction false} HitsConcat(bullets: seq<Bullet>, near: Bullet -> bool, a: seq<string>, b: seq<string>)
    ensures Hits(bullets, near, a + b) == Hits(bullets, near, a) + Hits(bullets, near, b)
    decreases |b|
  {
    hide Hit;
    if b == [] {
      assert a + b == a;
    } else {
      assert (a + b)[..|a + b| - 1] == a + b[..|b| - 1];
      HitsConcat(bullets, near, a, b[..|b| - 1]);
    }
  }

  lemma RemoveOne(front: seq<string>, x: string, l: seq<string>, r: seq<string>)
    requires multiset(front + [x]) == multiset(l + [x] + r)
    ensures multiset(front) == multiset(l + r)
  {
    assert multiset(front + [x]) - multiset{x} == multiset(front);
    assert multiset(l + [x] + r) - multiset{x} == multiset(l + r);
  }

  lemma {:induction false} HitsPermute(bullets: seq<Bullet>, near: Bullet -> bool, a: seq<string>, b: seq<string>)
    requires multiset(a) == multiset(b)
    ensures Hits(bullets, near, a) == Hits(bullets, near, b)
    decreases |a|
  {
    hide Hits, Hit;
    if a == [] {
      assert b == [] by {
        assert |multiset(b)| == 0;
      }
    } else {
      var x, front := a[|a| - 1], a[..|a| - 1];
      assert a == front + [x] && x in multiset(b);
      var j :| 0 <= j < |b| && b[j] == x;
      assert b == b[..j] + [x] + b[j + 1..];
      RemoveOne(front, x, b[..j], b[j + 1..]);
      HitsPermute(bullets, near, front, b[..j] + b[j + 1..]);
      HitsConcat(bullets, near, front, [x]);
      HitsConcat(bullets, near, b[..j] + [x], b[j + 1..]);
      HitsConcat(bullets, near, b[..j], [x]);
      HitsConcat(bullets, near, b[..j], b[j + 1..]);
    }
  }

  lemma {:induction false} HitsOfOwn(bullets: seq<Bullet>, near: Bullet -> bool, k: nat)
    requires Distinct(Ids(bullets)) && k <= |bullets|
    ensures Hits(bullets, near, Ids(bullets)[..k]) == InRange(bullets[..k], near)
    decreases k
  {
    hide Lookup, Distinct;
    if k > 0 {
      HitsOfOwn(bullets, near, k - 1);
      LookupFinds(bullets, k - 1);
      assert Ids(bullets)[..k][..k - 1] == Ids(bullets)[..k - 1] && bullets[..k][..k - 1] == bullets[..k - 1];
      assert Ids(bullets)[..k][k - 1] == bullets[k - 1].id;
    }
  }

  /** There are as many candidates as bullets in range. */
  lemma CandidatesCount(bullets: seq<Bullet>, near: Bullet -> bool, unit: nat -> real)
    requires Distinct(Ids(bullets))
    ensures |Candidates(bullets, SortedIds(bullets), near, unit)| == InRange(bullets, near)
  {
    CandidatesAreHits(bullets, SortedIds(bullets), near, unit);
    SortPermutes(Ids(bullets), Leq);
    HitsPermute(bullets, near, SortedIds(bullets), Ids(bullets));
    HitsOfOwn(bullets, near, |bullets|);
    assert Ids(bullets)[..|bullets|] == Ids(bullets) && bullets[..|bullets|] == bullets;
    hide Candidates, Sort, Hits, InRange, Distinct;
  }

  /** The purge takes the least by unit and id: as many as asked for or as there are candidates, sorted, and
      none left behind comes before one taken; the candidates are as many as the bullets in range. */
  lemma PurgeTakesLeast(bullets: seq<Bullet>, near: Bullet -> bool, radius: real, count: int, unit: nat -> real)
    requires radius > 0.0 && count > 0
    ensures Distinct(Ids(bullets)) ==> |Candidates(bullets, SortedIds(bullets), near, unit)| == InRange(bullets, near)
    ensures var all := Candidates(bullets, SortedIds(bullets), near, unit);
      var taken := Take(Ranked(bullets, near, unit), count);
      && Purge(bullets, near, radius, count, unit) == CandidateIds(taken)
      && |taken| == (if |all| < count then |all| else count)
      && multiset(taken) <= multiset(all) && Sorted(taken, Before)
      && forall c :: c in multiset(all) - multiset(taken) ==> forall i :: 0 <= i < |taken| ==> Before(taken[i], c)
  {
    var all := Candidates(bullets, SortedIds(bullets), near, unit);
    CandidateOrder();
    SortSorted(all, Before);
    SortPermutes(all, Before);
    if Distinct(Ids(bullets)) {
      CandidatesCount(bullets, near, unit);
    }
    hide Sort, Candidates, SortedIds, Order, Before, Take, Sorted, Distinct, InRange, Ids;
    SameSize(Ranked(bullets, near, unit), all);
    TakeFront(Ranked(bullets, near, unit), all, count);
  }

  lemma TakeFront(ranked: seq<Candidate>, all: seq<Candidate>, count: int)
    requires count > 0 && Sorted(ranked, Before) && multiset(ranked) == multiset(all) && |ranked| == |all|
    ensures var taken := Take(ranked, count);
      && |taken| == (if |all| < count then |all| else count)
      && multiset(taken) <= multiset(all) && Sorted(taken, Before)
      && forall c :: c in multiset(all) - multiset(taken) ==> forall i :: 0 <= i < |taken| ==> Before(taken[i], c)
  {
    var taken, n := Take(ranked, count), if |ranked| <= count then |ranked| else count;
    assert taken == ranked[..n];
    hide Before, Take;
    SplitMultiset(ranked, n);
    assert forall i, j :: 0 <= i < j < n ==> ranked[..n][i] == ranked[i] && ranked[..n][j] == ranked[j];
    forall c | c in multiset(ranked[n..])
      ensures forall i :: 0 <= i < n ==> Before(ranked[i], c)
    {
      LeftBehind(ranked, n, c);
    }
  }

  lemma SplitMultiset(ranked: seq<Candidate>, n: nat)
    requires n <= |ranked|
    ensures multiset(ranked) == multiset(ranked[..n]) + multiset(ranked[n..])
  {
    assert ranked == ranked[..n] + ranked[n..];
  }

  lemma LeftBehind(ranked: seq<Candidate>, n: nat, c: Candidate)
    requires n <= |ranked| && Sorted(ranked, Before) && c in multiset(ranked[n..])
    ensures forall i :: 0 <= i < n ==> Before(ranked[i], c)
  {
    hide Before;
    var j :| 0 <= j < |ranked| - n && ranked[n..][j] == c;
    assert ranked[n + j] == c;
  }

  // ---- Applying the deltas ----

  /** One despawn delta: the first bullet with the id goes. */
  function Despawn(bullets: seq<Bullet>, id: string): seq<Bullet> {
    if bullets == [] then [] else if bullets[0].id == id then bullets[1..] else [bullets[0]] + Despawn(bullets[1..], id)
  }

  function DespawnAll(bullets: seq<Bullet>, ids: seq<string>): seq<Bullet>
    decreases |ids|
  {
    if ids == [] then bullets else DespawnAll(Despawn(bullets, ids[0]), ids[1..])
  }

  /** The bullets whose id is not listed, in order. */
  function Keep(bullets: seq<Bullet>, ids: seq<string>): seq<Bullet> {
    if bullets == [] then [] else (if bullets[0].id in ids then [] else [bullets[0]]) + Keep(bullets[1..], ids)
  }

  method ApplyBulletDeltas(bullets: seq<Bullet>, ids: seq<string>) returns (left: seq<Bullet>)
    ensures left == DespawnAll(bullets, ids)
  {
    left := bullets;
    for i := 0 to |ids|
      invariant DespawnAll(left, ids[i..]) == DespawnAll(bullets, ids)
    {
      assert ids[i..][1..] == ids[i + 1..];
      left := DespawnOne(left, ids[i]);
    }
  }

  method DespawnOne(bullets: seq<Bullet>, id: string) returns (left: seq<Bullet>)
    ensures left == Despawn(bullets, id)
  {
    for i := 0 to |bullets|
      invariant bullets[..i] + Despawn(bullets[i..], id) == Despawn(bullets, id)
    {
      DespawnStep(bullets, id, i);
      if bullets[i].id == id {
        return bullets[..i] + bullets[i + 1..];
      }
    }
    left := bullets;
    assert bullets[..|bullets|] == bullets;
  }

  lemma DespawnStep(bullets: seq<Bullet>, id: string, i: nat)
    requires i < |bullets|
    ensures bullets[..i] + Despawn(bullets[i..], id) ==
      if bullets[i].id == id then bullets[..i] + bullets[i + 1..] else bullets[..i + 1] + Despawn(bullets[i + 1..], id)
  {
    assert bullets[i..][1..] == bullets[i + 1..];
    if bullets[i].id != id {
      DespawnCons(bullets[i..], id);
      hide Despawn;
      assert bullets[..i] + ([bullets[i]] + Despawn(bullets[i + 1..], id)) == bullets[..i + 1] + Despawn(bullets[i + 1..], id);
    }
  }

  lemma TailDistinct(bullets: seq<Bullet>)
    requires Distinct(Ids(bullets)) && bullets != []
    ensures Distinct(Ids(bullets[1..])) && bullets[0].id !in Ids(bullets[1..])
  {
    assert forall k :: 0 <= k < |bullets| - 1 ==> Ids(bullets[1..])[k] == Ids(bullets)[k + 1];
    assert Ids(bullets)[0] == bullets[0].id;
  }

  lemma {:induction false} KeepAbsent(bullets: seq<Bullet>, id: string, ids: seq<string>)
    requires id !in Ids(bullets)
    ensures Keep(bullets, [id] + ids) == Keep(bullets, ids)
  {
    if bullets != [] {
      assert Ids(bullets)[0] == bullets[0].id;
      assert forall k :: 0 <= k < |bullets| - 1 ==> Ids(bullets[1..])[k] == Ids(bullets)[k + 1];
      KeepAbsent(bullets[1..], id, ids);
    }
  }

  lemma {:induction false} KeepAfterDespawn(bullets: seq<Bullet>, id: string, ids: seq<string>)
    requires Distinct(Ids(bullets))
    ensures Keep(Despawn(bullets, id), ids) == Keep(bullets, [id] + ids)
    ensures Distinct(Ids(Despawn(bullets, id))) && forall x :: x in Ids(Despawn(bullets, id)) ==> x in Ids(bullets)
    decreases |bullets|
  {
    if bullets != [] {
      TailDistinct(bullets);
      IdsCons(bullets);
      if bullets[0].id == id {
        KeepAbsent(bullets[1..], id, ids);
      } else {
        var d := Despawn(bullets[1..], id);
        KeepAfterDespawn(bullets[1..], id, ids);
        assert ([bullets[0]] + d)[1..] == d;
        IdsCons([bullets[0]] + d);
        hide Ids, Keep, Despawn;
        ConsDistinct(bullets[0].id, Ids(d));
        KeepCons(bullets[0], d, ids);
        KeepCons(bullets[0], bullets[1..], [id] + ids);
        DespawnCons(bullets, id);
        assert bullets == [bullets[0]] + bullets[1..];
      }
    } else {
      assert Ids([]) == [];
    }
  }

  lemma IdsCons(bullets: seq<Bullet>)
    requires bullets != []
    ensures Ids(bullets) == [bullets[0].id] + Ids(bullets[1..])
  {
  }

  lemma ConsDistinct(x: string, s: seq<string>)
    requires x !in s && Distinct(s)
    ensures Distinct([x] + s)
  {
  }

  lemma KeepCons(b: Bullet, rest: seq<Bullet>, ids: seq<string>)
    ensures Keep([b] + rest, ids) == (if b.id in ids then [] else [b]) + Keep(rest, ids)
  {
    assert ([b] + rest)[1..] == rest;
  }

  lemma DespawnCons(bullets: seq<Bullet>, id: string)
    requires bullets != [] && bullets[0].id != id
    ensures Despawn(bullets, id) == [bullets[0]] + Despawn(bullets[1..], id)
  {
  }

  lemma {:induction false} KeepAll(bullets: seq<Bullet>)
    ensures Keep(bullets, []) == bullets
  {
    if bullets != [] {
      KeepAll(bullets[1..]);
      assert bullets == [bullets[0]] + bullets[1..];
    }
  }

  /** Applying despawn deltas removes exactly the bullets they name and keeps the others in order. */
  lemma {:induction false} DeltasRemoveExactly(bullets: seq<Bullet>, ids: seq<string>)
    requires Distinct(Ids(bullets))
    ensures DespawnAll(bullets, ids) == Keep(bullets, ids)
    decreases |ids|
  {
    if ids == [] {
      KeepAll(bullets);
    } else {
      KeepAfterDespawn(bullets, ids[0], ids[1..]);
      hide Keep, Despawn, Ids, Distinct;
      DeltasRemoveExactly(Despawn(bullets, ids[0]), ids[1..]);
      assert ids == [ids[0]] + ids[1..];
    }
  }

  lemma {:induction false} KeepNone(bullets: seq<Bullet>, ids: seq<string>)
    requires forall i :: 0 <= i < |bullets| ==> bullets[i].id in ids
    ensures Keep(bullets, ids) == []
  {
    if bullets != [] {
      KeepNone(bullets[1..], ids);
    }
  }

  /** The finisher leaves no bullet. */
  lemma FinisherClears(bullets: seq<Bullet>)
    requires Distinct(Ids(bullets))
    ensures DespawnAll(bullets, Finisher(bullets)) == []
  {
    var ids := Finisher(bullets);
    SortPermutes(Ids(bullets), Leq);
    forall i | 0 <= i < |bullets|
      ensures bullets[i].id in ids
    {
      assert Ids(bullets)[i] in multiset(Ids(bullets));
      assert bullets[i].id in multiset(ids);
    }
    KeepNone(bullets, ids);
    DeltasRemoveExactly(bullets, ids);
  }

  /** Every bullet a purge names is on the field and in range. */
  lemma PurgedAreInRange(bullets: seq<Bullet>, near: Bullet -> bool, radius: real, count: int, unit: nat -> real, id: string)
    requires id in Purge(bullets, near, radius, count, unit)
    ensures var found := Lookup(bullets, id); found.Some? && near(found.value)
  {
    var all := Candidates(bullets, SortedIds(bullets), near, unit);
    var taken := Take(Ranked(bullets, near, unit), count);
    PurgeTakesLeast(bullets, near, radius, count, unit);
    hide Candidates, SortedIds, Take, Ranked;
    var k :| 0 <= k < |taken| && taken[k].id == id;
    assert taken[k] in multiset(all);
    var j :| 0 <= j < |all| && all[j] == taken[k];
    CandidateIs(bullets, SortedIds(bullets), near, unit, j);
  }

  /** What a purge takes stands within its radius of the caster, both ways: with room for all, whatever stands
      there goes. */
  lemma PurgeReaches(bullets: seq<Bullet>, x: real, y: real, radius: real, count: int, unit: nat -> real, id: string)
    requires radius > 0.0
    ensures var near := (b: Bullet) => Near(b, x, y, radius);
      id in Purge(bullets, near, radius, count, unit) ==>
        Lookup(bullets, id).Some?
        && var b := Lookup(bullets, id).value; (b.x - x) * (b.x - x) + (b.y - y) * (b.y - y) <= radius * radius
  {
    var near := (b: Bullet) => Near(b, x, y, radius);
    if id in Purge(bullets, near, radius, count, unit) {
      PurgedAreInRange(bullets, near, radius, count, unit, id);
    }
    hide Purge, Lookup;
  }
}
