/** The delay coordinator: assigns each RUT a random wait in minutes, redrawing
    up to ten times to avoid a value already in the registry (the asking
    RUT's own earlier delay included) and counting a coincidence when all ten
    draws collide. The random source
    (`random.randint(1, 20)`) is an input stream read from a cursor. */
module Delays {

  const MinDelay: int := 1
  const MaxDelay: int := 20
  /** Draws tried before a colliding value is accepted. */
  const MaxAttempts: nat := 10

  /** A stream of random draws; draw `i` is the i-th value the source yields. */
  type RandomSource = nat -> int

  /** The shape `random.randint(MinDelay, MaxDelay)` promises for the draws
      starting at `pos`. */
  ghost predicate DrawsInRange(draw: RandomSource, pos: nat) {
    forall j: nat :: MinDelay <= DrawAt(draw, pos, j) <= MaxDelay
  }

  function DrawAt(draw: RandomSource, pos: nat, j: nat): int {
    draw(pos + j)
  }

  /** A source whose draws from `pos` on are in range is in range from any
      later cursor too. */
  lemma DrawsInRangeLater(draw: RandomSource, pos: nat, later: nat)
    requires DrawsInRange(draw, pos) && pos <= later
    ensures DrawsInRange(draw, later)
  {
    forall j: nat ensures MinDelay <= DrawAt(draw, later, j) <= MaxDelay {
      assert DrawAt(draw, later, j) == DrawAt(draw, pos, later - pos + j);
    }
  }

  datatype DelayManager = DelayManager(registry: map<string, int>, coincidences: nat)

  const Fresh: DelayManager := DelayManager(map[], 0)

  /** The acceptance test of the draw loop: a draw is rejected only when the
      registry already holds the same delay, for any RUT, the asking one
      included. */
  predicate Collides(registry: map<string, int>, d: int) {
    !(|registry| == 0 || d !in registry.Values)
  }

  predicate CollidesAt(registry: map<string, int>, draw: RandomSource, pos: nat, j: nat) {
    Collides(registry, DrawAt(draw, pos, j))
  }

  /** The draw loop from attempt `k` on: returns the chosen delay and the value
      of the attempt counter when the loop ends (`MaxAttempts` when every draw
      collided). */
  function DrawLoop(registry: map<string, int>, draw: RandomSource, pos: nat, k: nat): (r: (int, nat))
    requires k < MaxAttempts
    ensures k <= r.1 <= MaxAttempts
    ensures forall j :: k <= j < r.1 ==> CollidesAt(registry, draw, pos, j)
    ensures r.1 < MaxAttempts ==> r.0 == DrawAt(draw, pos, r.1) && !Collides(registry, r.0)
    ensures r.1 == MaxAttempts ==> r.0 == DrawAt(draw, pos, MaxAttempts - 1)
    decreases MaxAttempts - k
  {
    var d := DrawAt(draw, pos, k);
    if !Collides(registry, d) then (d, k)
    else if k + 1 == MaxAttempts then (d, MaxAttempts)
    else DrawLoop(registry, draw, pos, k + 1)
  }

  /** Every draw from `pos` up to (not including) `stop` hit the registry. */
  ghost predicate CollidedBefore(registry: map<string, int>, draw: RandomSource, pos: nat, stop: int) {
    forall j :: pos <= j < stop ==> Collides(registry, draw(j))
  }

  datatype Assignment = Assignment(delay: int, manager: DelayManager, next: nat)

  ghost predicate AllCollide(registry: map<string, int>, draw: RandomSource, pos: nat) {
    forall j :: 0 <= j < MaxAttempts ==> CollidesAt(registry, draw, pos, j)
  }

  /** `get_random_delay`: reads draws from `pos` on and returns the delay, the
      updated manager and the cursor after the last draw consumed: the first
      draw the registry does not hold, or the tenth draw when all ten collide.
      When the coincidence count moves is stated by `CoincidenceIffAllCollide`. */
  function GetRandomDelay(dm: DelayManager, rut: string, draw: RandomSource, pos: nat): (r: Assignment)
    ensures pos + 1 <= r.next <= pos + MaxAttempts
    ensures r.delay == draw(r.next - 1)
    ensures CollidedBefore(dm.registry, draw, pos, r.next - 1)
    ensures r.next < pos + MaxAttempts ==> !Collides(dm.registry, r.delay)
    ensures DrawsInRange(draw, pos) ==> MinDelay <= r.delay <= MaxDelay
    ensures r.manager.registry == dm.registry[rut := r.delay]
    ensures dm.coincidences <= r.manager.coincidences <= dm.coincidences + 1
  {
    var (d, attempts) := DrawLoop(dm.registry, draw, pos, 0);
    var coincidences := if attempts == MaxAttempts then dm.coincidences + 1 else dm.coincidences;
    var used := if attempts == MaxAttempts then MaxAttempts else attempts + 1;
    assert DrawAt(draw, pos, used - 1) == draw(pos + used - 1);
    assert CollidedBefore(dm.registry, draw, pos, pos + used - 1) by {
      forall j | pos <= j < pos + used - 1 ensures Collides(dm.registry, draw(j)) {
        assert CollidesAt(dm.registry, draw, pos, j - pos);
      }
    }
    assert DrawsInRange(draw, pos) ==> MinDelay <= DrawAt(draw, pos, used - 1) <= MaxDelay;
    Assignment(d, DelayManager(dm.registry[rut := d], coincidences), pos + used)
  }

  /** A coincidence is counted exactly when all ten draws collide, and then
      all ten draws are consumed; otherwise the delay is one the registry did
      not hold. A first assignment takes the first draw. */
  lemma CoincidenceIffAllCollide(dm: DelayManager, rut: string, draw: RandomSource, pos: nat)
    ensures var r := GetRandomDelay(dm, rut, draw, pos);
      && (r.manager.coincidences == dm.coincidences + 1 <==> AllCollide(dm.registry, draw, pos))
      && (!AllCollide(dm.registry, draw, pos) ==>
            r.manager.coincidences == dm.coincidences && r.delay !in dm.registry.Values)
      && (AllCollide(dm.registry, draw, pos) ==> r.next == pos + MaxAttempts)
      && (|dm.registry| == 0 ==>
            r.delay == draw(pos) && r.next == pos + 1 && r.manager.coincidences == dm.coincidences)
  {
    var (d, attempts) := DrawLoop(dm.registry, draw, pos, 0);
    assert attempts < MaxAttempts ==> !CollidesAt(dm.registry, draw, pos, attempts);
    assert |dm.registry| == 0 ==> !Collides(dm.registry, DrawAt(draw, pos, 0));
  }

  datatype DelayStatistics = DelayStatistics(totalRuts: nat, coincidences: nat, delays: map<string, int>)

  /** `get_statistics`: a snapshot of the registry and the coincidence count. */
  function GetStatistics(dm: DelayManager): (s: DelayStatistics)
    ensures s.totalRuts == |dm.registry.Keys|
    ensures s.coincidences == dm.coincidences && s.delays == dm.registry
  {
    DelayStatistics(|dm.registry|, dm.coincidences, dm.registry)
  }

  /** One assignment adds at most one registry key, adds one exactly when the
      RUT is new, and never lowers the coincidence count. */
  lemma StatisticsAfterAssignment(dm: DelayManager, rut: string, draw: RandomSource, pos: nat)
    ensures var s := GetStatistics(GetRandomDelay(dm, rut, draw, pos).manager);
      && s.totalRuts == (if rut in dm.registry then |dm.registry| else |dm.registry| + 1)
      && dm.coincidences <= s.coincidences <= dm.coincidences + 1
  {
    var r := GetRandomDelay(dm, rut, draw, pos);
    if rut in dm.registry {
      assert r.manager.registry.Keys == dm.registry.Keys;
    } else {
      assert r.manager.registry.Keys == dm.registry.Keys + {rut};
    }
  }

  /** The first RUT of a run never records a coincidence and takes the first draw. */
  lemma FirstAssignmentNeverCollides(rut: string, draw: RandomSource, pos: nat)
    ensures var r := GetRandomDelay(Fresh, rut, draw, pos);
      r.manager.coincidences == 0 && r.delay == draw(pos) && r.manager.registry == map[rut := draw(pos)]
  {
    CoincidenceIffAllCollide(Fresh, rut, draw, pos);
  }

  /** A source stuck on a value some RUT already holds exhausts all ten
      redraws and counts exactly one coincidence instead of failing. */
  lemma StuckSourceCountsOneCoincidence(dm: DelayManager, rut: string, v: int, pos: nat)
    requires v in dm.registry.Values
    ensures var r := GetRandomDelay(dm, rut, _ => v, pos);
      r.delay == v && r.manager.coincidences == dm.coincidences + 1 && r.next == pos + MaxAttempts
  {
    var draw: RandomSource := _ => v;
    assert |dm.registry| > 0;
    forall j | 0 <= j < MaxAttempts ensures CollidesAt(dm.registry, draw, pos, j) {
    }
    CoincidenceIffAllCollide(dm, rut, draw, pos);
  }

  /** Asking again for a RUT already registered tests the draws against its
      own earlier delay too: a lone RUT whose source repeats that delay counts
      a coincidence against itself. */
  lemma RepeatRequestCollidesWithOwnDelay(rut: string, v: int, coincidences: nat, pos: nat)
    ensures var r := GetRandomDelay(DelayManager(map[rut := v], coincidences), rut, _ => v, pos);
      r.delay == v && r.manager.coincidences == coincidences + 1
  {
    var dm := DelayManager(map[rut := v], coincidences);
    assert dm.registry[rut] == v;
    StuckSourceCountsOneCoincidence(dm, rut, v, pos);
  }
}
