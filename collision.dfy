/**
 * Colliders and the player-collision system of src/collision.rs: pickups in
 * range are scored and despawned, and every enemy in range reports a death.
 */
module Collision {
  import opened Movement
  import opened Pickups
  import opened States

  /** A collision radius, in cells. */
  datatype Collider = Collider(distance: real)

  /** The engine's handle for a spawned entity. */
  type EntityId = nat

  /** One row of a pickup query: the entity and its position, radius and value. */
  datatype PickupEntity = PickupEntity(entity: EntityId, position: Position, collider: Collider, pickup: Pickup)

  /** One row of the enemy query: position and radius. */
  datatype EnemyEntity = EnemyEntity(position: Position, collider: Collider)

  /**
   * The distance metric between two positions. The source calls a
   * Position::get_distance that it does not define, so the systems take it
   * as a parameter and assume nothing about it.
   */
  type Metric = (Position, Position) -> real

  /** Strictly closer to the player than the collider's radius. */
  predicate InRange(player: Position, position: Position, collider: Collider, distance: Metric)
  {
    distance(player, position) < collider.distance
  }

  predicate PickupInRange(player: Position, p: PickupEntity, distance: Metric)
  {
    InRange(player, p.position, p.collider, distance)
  }

  /** The total value of a list of pickups. */
  function TotalValue(ps: seq<PickupEntity>): nat
  {
    if ps == [] then 0 else TotalValue(ps[..|ps| - 1]) + GetValue(ps[|ps| - 1].pickup)
  }

  /**
   * The score one pass over a pickup query adds: the value of each pickup
   * in range, once each. Nothing out of range contributes, so the gain is
   * between zero and the whole value on the board.
   */
  function Gain(ps: seq<PickupEntity>, player: Position, distance: Metric): (g: nat)
    ensures g <= TotalValue(ps)
  {
    if ps == [] then 0
    else
      var last := ps[|ps| - 1];
      Gain(ps[..|ps| - 1], player, distance) + (if PickupInRange(player, last, distance) then GetValue(last.pickup) else 0)
  }

  /** The entities one pass despawns: exactly those in range, in query order. */
  function Consumed(ps: seq<PickupEntity>, player: Position, distance: Metric): (ids: seq<EntityId>)
    ensures |ids| <= |ps|
    ensures forall id :: id in ids <==> exists k :: 0 <= k < |ps| && ps[k].entity == id && PickupInRange(player, ps[k], distance)
  {
    if ps == [] then []
    else
      var last := ps[|ps| - 1];
      Consumed(ps[..|ps| - 1], player, distance) + (if PickupInRange(player, last, distance) then [last.entity] else [])
  }

  /** The pickups left in the world after the pass: exactly those out of range. */
  function Remaining(ps: seq<PickupEntity>, player: Position, distance: Metric): (rest: seq<PickupEntity>)
    ensures |rest| <= |ps|
  {
    if ps == [] then []
    else
      var last := ps[|ps| - 1];
      Remaining(ps[..|ps| - 1], player, distance) + (if PickupInRange(player, last, distance) then [] else [last])
  }

  /** How many enemies of the query are in range of the player. */
  function Hits(es: seq<EnemyEntity>, player: Position, distance: Metric): (n: nat)
    ensures n <= |es|
    ensures n == 0 <==> forall k :: 0 <= k < |es| ==> !InRange(player, es[k].position, es[k].collider, distance)
  {
    if es == [] then 0
    else
      var last := es[|es| - 1];
      Hits(es[..|es| - 1], player, distance) + (if InRange(player, last.position, last.collider, distance) then 1 else 0)
  }

  /** What a pass leaves in the world is exactly the pickups out of range. */
  lemma {:induction false} RemainingOutOfRange(ps: seq<PickupEntity>, player: Position, distance: Metric)
    ensures forall p :: p in Remaining(ps, player, distance) <==> p in ps && !PickupInRange(player, p, distance)
  {
    if ps != [] {
      var init := ps[..|ps| - 1];
      RemainingOutOfRange(init, player, distance);
      assert ps == init + [ps[|ps| - 1]];
    }
  }

  /**
   * Nothing is created or lost by a pass: the score it takes plus the value
   * of the pickups it leaves is the value that was on the board.
   */
  lemma {:induction false} GainConserved(ps: seq<PickupEntity>, player: Position, distance: Metric)
    ensures Gain(ps, player, distance) + TotalValue(Remaining(ps, player, distance)) == TotalValue(ps)
  {
    if ps != [] {
      var init := ps[..|ps| - 1];
      var last := ps[|ps| - 1];
      GainConserved(init, player, distance);
      var rest := Remaining(init, player, distance);
      if !PickupInRange(player, last, distance) {
        var rest' := rest + [last];
        assert Remaining(ps, player, distance) == rest';
        assert rest'[..|rest'| - 1] == rest;
        assert TotalValue(rest') == TotalValue(rest) + GetValue(last.pickup);
        assert Gain(ps, player, distance) == Gain(init, player, distance);
        assert TotalValue(ps) == TotalValue(init) + GetValue(last.pickup);
      } else {
        assert Remaining(ps, player, distance) == rest;
        assert Gain(ps, player, distance) == Gain(init, player, distance) + GetValue(last.pickup);
      }
    }
  }

  /** With every pickup in range the pass takes the whole value; with none, it takes and despawns nothing. */
  lemma {:induction false} GainExtremes(ps: seq<PickupEntity>, player: Position, distance: Metric)
    ensures (forall k :: 0 <= k < |ps| ==> PickupInRange(player, ps[k], distance)) ==> Gain(ps, player, distance) == TotalValue(ps)
    ensures (forall k :: 0 <= k < |ps| ==> !PickupInRange(player, ps[k], distance)) ==>
      Gain(ps, player, distance) == 0 && Consumed(ps, player, distance) == []
  {
    if ps != [] {
      var init := ps[..|ps| - 1];
      GainExtremes(init, player, distance);
      assert forall k :: 0 <= k < |init| ==> init[k] == ps[k];
    }
  }

  /**
   * At-most-once consumption: a second pass from the same player position
   * over what the first pass left finds nothing to score or despawn.
   */
  lemma {:induction false} SecondPassFindsNothing(ps: seq<PickupEntity>, player: Position, distance: Metric)
    ensures Gain(Remaining(ps, player, distance), player, distance) == 0
    ensures Consumed(Remaining(ps, player, distance), player, distance) == []
  {
    var rest := Remaining(ps, player, distance);
    RemainingOutOfRange(ps, player, distance);
    assert forall k :: 0 <= k < |rest| ==> !PickupInRange(player, rest[k], distance) by {
      forall k | 0 <= k < |rest|
        ensures !PickupInRange(player, rest[k], distance)
      {
        assert rest[k] in rest;
      }
    }
    GainExtremes(rest, player, distance);
  }

  /**
   * One pickup loop of the collision system: each pickup strictly within
   * its radius adds its value to the score and is despawned, in query order.
   */
  method ConsumePickups(globals: GameGlobals, player: Position, ps: seq<PickupEntity>, distance: Metric)
    returns (despawned: seq<EntityId>)
    modifies globals`score
    ensures globals.score == old(globals.score) + Gain(ps, player, distance)
    ensures despawned == Consumed(ps, player, distance)
  {
    despawned := [];
    var i := 0;
    while i < |ps|
      invariant 0 <= i <= |ps|
      invariant globals.score == old(globals.score) + Gain(ps[..i], player, distance)
      invariant despawned == Consumed(ps[..i], player, distance)
    {
      assert ps[..i + 1][..i] == ps[..i];
      var p := ps[i];
      if distance(player, p.position) < p.collider.distance {
        globals.score := globals.score + GetValue(p.pickup);
        despawned := despawned + [p.entity];
      }
      i := i + 1;
    }
    assert ps[..i] == ps;
  }

  /**
   * The enemy loop of the collision system: one PlayerDies event for each
   * enemy strictly within its radius, with no early exit.
   */
  method EnemyHits(player: Position, enemies: seq<EnemyEntity>, distance: Metric) returns (events: seq<GameEvent>)
    ensures |events| == Hits(enemies, player, distance)
    ensures forall k :: 0 <= k < |events| ==> events[k] == PlayerDies
  {
    events := [];
    var i := 0;
    while i < |enemies|
      invariant 0 <= i <= |enemies|
      invariant |events| == Hits(enemies[..i], player, distance)
      invariant forall k :: 0 <= k < |events| ==> events[k] == PlayerDies
    {
      assert enemies[..i + 1][..i] == enemies[..i];
      var e := enemies[i];
      if distance(player, e.position) < e.collider.distance {
        events := events + [PlayerDies];
      }
      i := i + 1;
    }
    assert enemies[..i] == enemies;
  }

  /**
   * The collision system for one frame: power pills, then dots, then
   * enemies. No enemy is removed and only the score is written.
   */
  method PlayerCollisionDetection(globals: GameGlobals, player: Position, powerPills: seq<PickupEntity>,
                                  dots: seq<PickupEntity>, enemies: seq<EnemyEntity>, distance: Metric)
    returns (despawned: seq<EntityId>, events: seq<GameEvent>)
    modifies globals`score
    ensures globals.score == old(globals.score) + Gain(powerPills, player, distance) + Gain(dots, player, distance)
    ensures despawned == Consumed(powerPills, player, distance) + Consumed(dots, player, distance)
    ensures |events| == Hits(enemies, player, distance)
    ensures forall k :: 0 <= k < |events| ==> events[k] == PlayerDies
  {
    var fromPills := ConsumePickups(globals, player, powerPills, distance);
    var fromDots := ConsumePickups(globals, player, dots, distance);
    despawned := fromPills + fromDots;
    events := EnemyHits(player, enemies, distance);
  }

  /** The system is scheduled only while the game is Running; paused, it does nothing. */
  method CollisionSystem(state: GameState, globals: GameGlobals, player: Position, powerPills: seq<PickupEntity>,
                         dots: seq<PickupEntity>, enemies: seq<EnemyEntity>, distance: Metric)
    returns (despawned: seq<EntityId>, events: seq<GameEvent>)
    modifies globals`score
    ensures state == Paused ==> globals.score == old(globals.score) && despawned == [] && events == []
    ensures state == Running ==>
      && globals.score == old(globals.score) + Gain(powerPills, player, distance) + Gain(dots, player, distance)
      && despawned == Consumed(powerPills, player, distance) + Consumed(dots, player, distance)
      && |events| == Hits(enemies, player, distance)
      && forall k :: 0 <= k < |events| ==> events[k] == PlayerDies
  {
    if state == Running {
      despawned, events := PlayerCollisionDetection(globals, player, powerPills, dots, enemies, distance);
    } else {
      despawned, events := [], [];
    }
  }
}
