/** The stronghold structure a side defends: only its position and health
    take part in combat. */
module Stronghold {

  class Base {
    const x: real
    var health: real

    constructor (x: real)
      ensures this.x == x && health == 100.0
    {
      this.x := x;
      health := 100.0;
    }
  }
}
