/** The game's entities: positioned objects that carry a type tag and can be moved. */
module Objects {

  /** A point in canvas pixel space (origin top-left). */
  datatype Pos = Pos(x: real, y: real)

  /**
   * A game object that can be moved. The JavaScript's hierarchy
   * GameObject <- MovableObject <- {Player, Enemy} is flattened into one class:
   * GameObject only holds the three fields, MovableObject adds moveTo, and
   * Player and Enemy only fix the type tag, so they become named constructors.
   */
  class MovableObject {
    var x: real
    var y: real
    var kind: string

    /** The object's current position. */
    function Position(): Pos
      reads this
    {
      Pos(x, y)
    }

    /** Builds an object at (x, y) carrying the given type tag. */
    constructor (x: real, y: real, kind: string)
      ensures this.x == x && this.y == y && this.kind == kind
    {
      this.x := x;
      this.y := y;
      this.kind := kind;
    }

    /** A player at (x, y): its type tag is "Player". */
    constructor Player(x: real, y: real)
      ensures this.x == x && this.y == y && kind == "Player"
    {
      this.x := x;
      this.y := y;
      kind := "Player";
    }

    /** An enemy at (x, y): its type tag is "Enemy". */
    constructor Enemy(x: real, y: real)
      ensures this.x == x && this.y == y && kind == "Enemy"
    {
      this.x := x;
      this.y := y;
      kind := "Enemy";
    }

    /** Moves the object to the absolute position (nx, ny); the type tag is kept. */
    method MoveTo(nx: real, ny: real)
      modifies this
      ensures x == nx && y == ny
      ensures kind == old(kind)
    {
      x := nx;
      y := ny;
    }
  }
}
