/** The iron fist and the black curtain of src/danmaku/judgment.cpp: two machines of three timed phases each. */
module Mechanics {
  import opened Bytes
  import opened Judgment

  datatype Stage = Idle | First | Second | Third

  /** Windup, strike and recover of the fist; fall, hold and sweep of the curtain. */
  datatype Lengths = Lengths(first: nat, second: nat, third: nat)

  datatype Clock = Clock(stage: Stage, remaining: nat, elapsed: nat)

  function LengthOf(k: Lengths, s: Stage): nat {
    match s
    case Idle => 0
    case First => k.first
    case Second => k.second
    case Third => k.third
  }

  function Next(s: Stage): Stage {
    match s
    case Idle => Idle
    case First => Second
    case Second => Third
    case Third => Idle
  }

  /** Entering a phase. */
  function Enter(k: Lengths, s: Stage): Clock {
    Clock(s, LengthOf(k, s), 0)
  }

  /** One Advance of either machine; idle machines stay. */
  function Tick(k: Lengths, c: Clock): Clock {
    if c.stage == Idle then c else
    var left := if c.remaining > 0 then c.remaining - 1 else 0;
    if left > 0 then Clock(c.stage, left, c.elapsed + 1) else Enter(k, Next(c.stage))
  }

  /** The phase an Advance enters, if it changes phase: what its event announces. */
  function Change(c: Clock): Option<Stage> {
    if c.stage == Idle || c.remaining > 1 then None else Some(Next(c.stage))
  }

  function Ticked(k: Lengths, n: nat): Clock {
    if n == 0 then Enter(k, First) else Tick(k, Ticked(k, n - 1))
  }

  // ---- Closed form ----

  /** A phase set to no ticks still lasts one. */
  function Lasts(length: nat): nat {
    if length == 0 then 1 else length
  }

  function Total(k: Lengths): nat {
    Lasts(k.first) + Lasts(k.second) + Lasts(k.third)
  }

  function At(k: Lengths, s: Stage, n: nat): Clock
    requires n < Lasts(LengthOf(k, s))
  {
    Clock(s, LengthOf(k, s) - n, n)
  }

  function After(k: Lengths, n: nat): Clock {
    if n < Lasts(k.first) then At(k, First, n)
    else if n < Lasts(k.first) + Lasts(k.second) then At(k, Second, n - Lasts(k.first))
    else if n < Total(k) then At(k, Third, n - Lasts(k.first) - Lasts(k.second))
    else Clock(Idle, 0, 0)
  }

  /** Where a started machine is after `n` advances, whatever the lengths: idle again after exactly their sum. */
  lemma {:induction false} TickedIs(k: Lengths, n: nat)
    ensures Ticked(k, n) == After(k, n)
    ensures Ticked(k, n).stage == Idle <==> n >= Total(k)
  {
    if n > 0 {
      TickedIs(k, n - 1);
    }
  }

  /** Within a phase, remaining and elapsed ticks add up to its length; only a phase of no ticks has none left. */
  lemma PhaseTimeKept(k: Lengths, n: nat)
    requires n < Total(k)
    ensures var c := Ticked(k, n); c.remaining + c.elapsed == LengthOf(k, c.stage)
    ensures var c := Ticked(k, n); LengthOf(k, c.stage) > 0 ==> c.remaining > 0
  {
    TickedIs(k, n);
  }

  /** Each change is announced once, at the advance that ends a phase, and no other advance announces one. */
  lemma ChangesAnnounced(k: Lengths, n: nat)
    ensures var e := Change(Ticked(k, n));
      && (e == Some(Second) <==> n + 1 == Lasts(k.first))
      && (e == Some(Third) <==> n + 1 == Lasts(k.first) + Lasts(k.second))
      && (e == Some(Idle) <==> n + 1 == Total(k))
      && (e != Some(First))
  {
    TickedIs(k, n);
  }

  // ---- Reach of the fist ----

  /** IronFistStrikeTip's reach in the strike phase. */
  function Reach(length: int, c: Clock): int {
    var total := c.remaining + c.elapsed;
    if c.stage != Second || total == 0 then 0 else Quot(length * c.elapsed, total)
  }

  lemma QuotGrows(m: int, n: int, d: int)
    requires d > 0 && 0 <= m <= n
    ensures 0 <= Quot(m, d) <= Quot(n, d)
  {
    DivGrows(m, n, d);
  }

  lemma DivGrows(m: int, n: int, d: int)
    requires d > 0 && 0 <= m <= n
    ensures 0 <= m / d <= n / d
  {
    var q, r := m / d, n / d;
    assert m == d * q + m % d && n == d * r + n % d;
    TimesGrows(d, r + 1, q);
    assert d * (r + 1) == d * r + d;
    DivSign(m, d);
  }

  lemma DivSign(m: int, d: int)
    requires d > 0 && m >= 0
    ensures m / d >= 0
  {
  }

  lemma TimesGrows(d: int, a: int, b: int)
    requires d >= 0
    ensures a <= b ==> d * a <= d * b
  {
  }

  /** In the strike the reach never shrinks; it stays short of the length, by the last tick too: the phase ends
      before the elapsed ticks reach its length. */
  lemma ReachGrows(k: Lengths, length: int, n: nat)
    requires length >= 0 && Ticked(k, n).stage == Second
    ensures 0 <= Reach(length, Ticked(k, n))
    ensures length > 0 ==> Reach(length, Ticked(k, n)) < length
    ensures Ticked(k, n + 1).stage == Second ==> Reach(length, Ticked(k, n)) <= Reach(length, Ticked(k, n + 1))
  {
    TickedIs(k, n);
    TickedIs(k, n + 1);
    StrikeClock(k, n);
    var e := n - Lasts(k.first);
    hide Ticked, After, Lasts;
    if k.second > 0 {
      ReachAt(length, k.second, e);
    }
  }

  lemma StrikeClock(k: Lengths, n: nat)
    requires After(k, n).stage == Second
    ensures n >= Lasts(k.first)
    ensures var e := n - Lasts(k.first);
      && After(k, n) == Clock(Second, k.second - e, e) && (k.second > 0 ==> e < k.second)
      && (After(k, n + 1).stage == Second ==> k.second > 0 && After(k, n + 1) == Clock(Second, k.second - e - 1, e + 1))
  {
  }

  lemma ReachAt(length: int, total: nat, e: nat)
    requires length >= 0 && e < total
    ensures 0 <= Quot(length * e, total) <= Quot(length * (e + 1), total)
    ensures length > 0 ==> Quot(length * e, total) < length
  {
    TimesGrows(length, 0, e);
    TimesGrows(length, e, e + 1);
    QuotGrows(length * e, length * (e + 1), total);
    TimesGrows(length, e, total - 1);
    if length > 0 {
      ShortOf(length, length * e, total);
    }
  }

  lemma ShortOf(length: int, m: int, total: int)
    requires total > 0 && 0 <= m <= length * (total - 1) && length > 0
    ensures Quot(m, total) < length
  {
    var q := m / total;
    assert m == total * q + m % total;
    assert length * (total - 1) == length * total - length;
    TimesGrows(total, length, q);
    assert total * length == length * total;
  }

  // ---- The sweeping edge ----

  /** Where the curtain's edge is, before the cast to 32 bits; `start` outside the sweep. */
  function Edge(start: int, end: int, c: Clock): int {
    var total := c.remaining + c.elapsed;
    if c.stage != Third || total == 0 then start else start + Quot((end - start) * c.elapsed, total)
  }

  function Abs(v: int): nat {
    if v < 0 then -v else v
  }

  lemma QuotMirrors(m: int, d: int)
    requires d > 0
    ensures Quot(-m, d) == -Quot(m, d)
  {
  }

  lemma SweepAt(span: int, total: nat, e: nat)
    requires e < total
    ensures Abs(Quot(span * e, total)) <= Abs(Quot(span * (e + 1), total)) <= Abs(span)
    ensures span > 0 ==> 0 <= Quot(span * e, total) < span
    ensures span < 0 ==> span < Quot(span * e, total) <= 0
    ensures span == 0 ==> Quot(span * e, total) == 0
  {
    if span >= 0 {
      ReachAt(span, total, e);
      FullQuot(span, total, e);
    } else {
      ReachAt(-span, total, e);
      FullQuot(-span, total, e);
      QuotMirrors(-span * e, total);
      QuotMirrors(-span * (e + 1), total);
      assert -(-span * e) == span * e && -(-span * (e + 1)) == span * (e + 1);
    }
    hide Quot;
  }

  lemma FullQuot(length: int, total: nat, e: nat)
    requires length >= 0 && e < total
    ensures Quot(length * (e + 1), total) <= length
    ensures length == 0 ==> Quot(length * e, total) == 0
  {
    TimesGrows(length, e + 1, total);
    TimesGrows(length, 0, e + 1);
    QuotGrows(length * (e + 1), length * total, total);
    ExactQuot(length, total);
  }

  lemma ExactQuot(length: int, total: nat)
    requires length >= 0 && total > 0
    ensures Quot(length * total, total) == length
  {
    TimesGrows(total, 0, length);
    assert length * total == total * length;
    assert (total * length) / total == length;
  }

  /** In the sweep the edge only moves away from its start, toward its end, which it does not reach before the
      sweep is over. */
  lemma EdgeSweeps(k: Lengths, start: int, end: int, n: nat)
    requires Ticked(k, n).stage == Third
    ensures var y := Edge(start, end, Ticked(k, n));
      && (start < end ==> start <= y < end) && (end < start ==> end < y <= start) && (start == end ==> y == start)
    ensures Ticked(k, n + 1).stage == Third
      ==> Abs(Edge(start, end, Ticked(k, n)) - start) <= Abs(Edge(start, end, Ticked(k, n + 1)) - start)
  {
    TickedIs(k, n);
    TickedIs(k, n + 1);
    SweepClock(k, n);
    var e := n - Lasts(k.first) - Lasts(k.second);
    hide Ticked, After, Lasts, Quot;
    if k.third > 0 {
      SweepAt(end - start, k.third, e);
    }
  }

  lemma SweepClock(k: Lengths, n: nat)
    requires After(k, n).stage == Third
    ensures n >= Lasts(k.first) + Lasts(k.second)
    ensures var e := n - Lasts(k.first) - Lasts(k.second);
      && After(k, n) == Clock(Third, k.third - e, e) && (k.third > 0 ==> e < k.third)
      && (After(k, n + 1).stage == Third ==> k.third > 0 && After(k, n + 1) == Clock(Third, k.third - e - 1, e + 1))
  {
  }

  // ---- The machines ----

  datatype JudgeEvent = JudgeEvent(tick: nat, name: string)

  function FistEvent(s: Stage): string {
    match s
    case Second => "iron_fist_strike"
    case Third => "iron_fist_recover"
    case Idle => "iron_fist_end"
    case First => "iron_fist_windup"
  }

  function CurtainEvent(s: Stage): string {
    match s
    case Second => "black_curtain_hold"
    case Third => "black_curtain_sweep"
    case Idle => "black_curtain_end"
    case First => "black_curtain_fall"
  }

  function Announced(tick: nat, e: Option<Stage>, name: Stage -> string): seq<JudgeEvent> {
    if e.None? then [] else [JudgeEvent(tick, name(e.value))]
  }

  /** The comparison of IronFistHitsPoint. */
  method HitsSegment(p: Point, a: Point, b: Point, radius: int) returns (hit: bool)
    ensures var r := Abs(radius);
      && (r >= 2 && Exact2(p, a, b) <= (r - 2) as real * (r - 2) as real ==> hit)
      && (hit ==> Exact2(p, a, b) <= (r + 2) as real * (r + 2) as real)
  {
    var d2 := PointSegmentDistanceSquaredMilli(p, a, b);
    hit := d2 <= Square(radius);
    HitWithinTwo(p, a, b, Abs(radius));
    assert Square(radius) == Abs(radius) * Abs(radius);
    hide Exact2, Nearest, DistanceSquared;
  }

  /** IronFistState with its functions. */
  class IronFist {
    var phase: Stage
    var tRemaining: nat
    var phaseElapsed: nat
    var origin: Point
    var dirX: int
    var dirY: int
    var length: int

    function Contents(): Clock
      reads this
    {
      Clock(phase, tRemaining, phaseElapsed)
    }

    constructor ()
      ensures Contents() == Clock(Idle, 0, 0)
    {
      phase, tRemaining, phaseElapsed, origin, dirX, dirY, length := Idle, 0, 0, Point(0, 0), 0, 0, 0;
    }

    method Start(start: Point, dx: int, dy: int, reach: int, k: Lengths)
      modifies this
      ensures Contents() == Ticked(k, 0) && origin == start && dirX == dx && dirY == dy && length == reach
    {
      phase, tRemaining, phaseElapsed := First, k.first, 0;
      origin, dirX, dirY, length := start, dx, dy, reach;
    }

    method Advance(tick: nat, k: Lengths) returns (events: seq<JudgeEvent>)
      modifies this`phase, this`tRemaining, this`phaseElapsed
      ensures Contents() == Tick(k, old(Contents()))
      ensures events == Announced(tick, Change(old(Contents())), FistEvent)
      ensures forall n: nat :: old(Contents()) == Ticked(k, n) ==> Contents() == Ticked(k, n + 1)
    {
      events := [];
      if phase == Idle {
        return;
      }
      phaseElapsed := phaseElapsed + 1;
      if tRemaining > 0 {
        tRemaining := tRemaining - 1;
      }
      if tRemaining > 0 {
        return;
      }
      match phase
      case First =>
        phase, tRemaining, phaseElapsed := Second, k.second, 0;
        events := [JudgeEvent(tick, "iron_fist_strike")];
      case Second =>
        phase, tRemaining, phaseElapsed := Third, k.third, 0;
        events := [JudgeEvent(tick, "iron_fist_recover")];
      case Third =>
        phase, tRemaining, phaseElapsed := Idle, 0, 0;
        events := [JudgeEvent(tick, "iron_fist_end")];
    }

    method StrikeTip() returns (tip: Point)
      ensures phase != Second ==> tip == origin
      ensures phase == Second && tRemaining + phaseElapsed > 0 ==> tip == Tip(origin, dirX, dirY, Reach(length, Contents()))
      ensures tRemaining + phaseElapsed == 0 ==> tip == origin
    {
      if phase != Second {
        return origin;
      }
      var total := tRemaining + phaseElapsed;
      if total == 0 {
        return origin;
      }
      var reach := Quot(length * phaseElapsed, total);
      tip := Point(Clamp32(origin.x + Quot(dirX * reach, 1000)), Clamp32(origin.y + Quot(dirY * reach, 1000)));
    }

    /** Only the strike hits, and it hits the fist's own capsule but for two milli. The radius is squared
        unchecked, so that its sign does not matter. */
    method HitsPoint(p: Point, radius: int) returns (hit: bool, ghost tip: Point)
      ensures phase != Second ==> !hit
      ensures var r := Abs(radius);
        && (phase == Second && r >= 2 && Exact2(p, origin, tip) <= (r - 2) as real * (r - 2) as real ==> hit)
        && (hit ==> Exact2(p, origin, tip) <= (r + 2) as real * (r + 2) as real)
      ensures phase == Second && tRemaining + phaseElapsed > 0 ==> tip == Tip(origin, dirX, dirY, Reach(length, Contents()))
    {
      var end := StrikeTip();
      tip := end;
      if phase != Second {
        return false, tip;
      }
      hide *;
      hit := HitsSegment(p, origin, end, radius);
    }
  }

  /** BlackCurtainState with its functions. */
  class BlackCurtain {
    var phase: Stage
    var tRemaining: nat
    var phaseElapsed: nat
    var edgeY: int

    function Contents(): Clock
      reads this
    {
      Clock(phase, tRemaining, phaseElapsed)
    }

    constructor ()
      ensures Contents() == Clock(Idle, 0, 0)
    {
      phase, tRemaining, phaseElapsed, edgeY := Idle, 0, 0, 0;
    }

    method Start(k: Lengths, sweepStart: int)
      modifies this
      ensures Contents() == Ticked(k, 0) && edgeY == sweepStart
    {
      phase, tRemaining, phaseElapsed, edgeY := First, k.first, 0, sweepStart;
    }

    method Advance(tick: nat, k: Lengths, sweepStart: int) returns (events: seq<JudgeEvent>)
      modifies this
      ensures Contents() == Tick(k, old(Contents()))
      ensures edgeY == (if Change(old(Contents())) == Some(Third) then sweepStart else old(edgeY))
      ensures events == Announced(tick, Change(old(Contents())), CurtainEvent)
    {
      events := [];
      if phase == Idle {
        return;
      }
      phaseElapsed := phaseElapsed + 1;
      if tRemaining > 0 {
        tRemaining := tRemaining - 1;
      }
      if tRemaining > 0 {
        return;
      }
      match phase
      case First =>
        phase, tRemaining, phaseElapsed := Second, k.second, 0;
        events := [JudgeEvent(tick, "black_curtain_hold")];
      case Second =>
        phase, tRemaining, phaseElapsed, edgeY := Third, k.third, 0, sweepStart;
        events := [JudgeEvent(tick, "black_curtain_sweep")];
      case Third =>
        phase, tRemaining, phaseElapsed := Idle, 0, 0;
        events := [JudgeEvent(tick, "black_curtain_end")];
    }

    function SweepEdge(sweepStart: int, sweepEnd: int): int
      reads this
    {
      if tRemaining + phaseElapsed == 0 then edgeY else Clamp32(Edge(sweepStart, sweepEnd, Contents()))
    }

    /** A point is hit in the sweep alone, when it is within the half thickness of the edge. */
    method HitsPoint(p: Point, sweepStart: int, sweepEnd: int, half: int) returns (hit: bool)
      ensures hit <==> (phase == Third && half >= 0 && Abs(p.y - SweepEdge(sweepStart, sweepEnd)) <= half)
    {
      if phase != Third {
        return false;
      }
      var total := tRemaining + phaseElapsed;
      var edge := edgeY;
      if total != 0 {
        edge := Clamp32(sweepStart + Quot((sweepEnd - sweepStart) * phaseElapsed, total));
      }
      if half < 0 {
        return false;
      }
      var dy := p.y - edge;
      hit := dy <= half && dy >= -half;
    }
  }
}
