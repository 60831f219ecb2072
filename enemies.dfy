/** The enemy record that the layout parser creates, src/enemies.rs. */
module Enemies {
  /** A two-component vector of the engine, used for spawn points. */
  datatype Vec2 = Vec2(x: real, y: real)

  /** The steering strategies an enemy can have; the source knows only one. */
  datatype EnemyAi = Random

  /** An enemy: where it spawns and how it steers. */
  datatype Enemy = Enemy(startPosition: Vec2, enemyAi: EnemyAi)

  /**
   * Enemy::new keeps the start position and sets the strategy to Random
   * whatever strategy it is handed.
   */
  function NewEnemy(startPosition: Vec2, enemyAi: EnemyAi): (e: Enemy)
    ensures e.startPosition == startPosition
    ensures e.enemyAi == Random
  {
    Enemy(startPosition, Random)
  }
}
