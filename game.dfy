/**
 * The game's wiring: the two movement messages, the player subscribed to
 * them, and the key-release listener that turns arrow keys into messages.
 */
module Game {
  import opened Objects
  import opened Emitter

  datatype Option<T> = None | Some(value: T)

  /** The message names the game defines. */
  const HeroMoveLeft: string := "HERO_MOVE_LEFT"
  const HeroMoveRight: string := "HERO_MOVE_RIGHT"

  /** The subscriber of each movement message, and where it puts the player. */
  const LeftHandler: Handler := MovePlayer(5.0, 0.0)
  const RightHandler: Handler := MovePlayer(-5.0, 0.0)
  const LeftTarget: Pos := Target(LeftHandler)
  const RightTarget: Pos := Target(RightHandler)

  /** The subscription table once the game is wired: left first, then right. */
  function WiredTable(): Table
  {
    Subscribed(Subscribed(map[], HeroMoveLeft, LeftHandler), HeroMoveRight, RightHandler)
  }

  /** Each movement message has exactly one subscriber, and no other message has any. */
  lemma WiredTableContents()
    ensures WiredTable() == map[HeroMoveLeft := [LeftHandler], HeroMoveRight := [RightHandler]]
  {
    var empty: seq<Handler> := [];
    assert empty + [LeftHandler] == [LeftHandler];
    assert empty + [RightHandler] == [RightHandler];
    var left := Subscribed(map[], HeroMoveLeft, LeftHandler);
    assert left == map[HeroMoveLeft := [LeftHandler]];
    assert HeroMoveLeft != HeroMoveRight;
    assert Lookup(left, HeroMoveRight) == [];
  }

  /**
   * Creates the bus and the player at (0, 0), then subscribes the two
   * movement handlers.
   */
  method SetUp() returns (emitter: EventEmitter, player: MovableObject)
    ensures fresh(emitter) && fresh(player)
    ensures emitter.subscribers == WiredTable() && emitter.calls == []
    ensures player.Position() == Pos(0.0, 0.0) && player.kind == "Player"
  {
    emitter := new EventEmitter();
    player := new MovableObject.Player(0.0, 0.0);
    emitter.Subscribe(HeroMoveLeft, LeftHandler);
    emitter.Subscribe(HeroMoveRight, RightHandler);
  }

  /** The message a released key publishes: only the two arrow keys publish anything. */
  function KeyMessage(key: string): (r: Option<string>)
    ensures r == Some(HeroMoveLeft) <==> key == "ArrowLeft"
    ensures r == Some(HeroMoveRight) <==> key == "ArrowRight"
    ensures r == None <==> key != "ArrowLeft" && key != "ArrowRight"
  {
    if key == "ArrowLeft" then Some(HeroMoveLeft)
    else if key == "ArrowRight" then Some(HeroMoveRight)
    else None
  }

  /** The player's position after releasing key, starting from p, over table t. */
  function KeyUpEffect(t: Table, key: string, p: Pos): Pos
  {
    match KeyMessage(key)
    case None => p
    case Some(m) => Run(Lookup(t, m), p)
  }

  /** The listener body: publishes the message of the released key, if it has one. */
  method OnKeyUp(emitter: EventEmitter, player: MovableObject, key: string)
    modifies emitter, player
    ensures emitter.subscribers == old(emitter.subscribers)
    ensures player.Position() == KeyUpEffect(emitter.subscribers, key, old(player.Position()))
    ensures player.kind == old(player.kind)
    ensures KeyMessage(key) == None ==> emitter.calls == old(emitter.calls)
    ensures KeyMessage(key).Some? ==>
      emitter.calls == old(emitter.calls) + Invocations(Lookup(emitter.subscribers, KeyMessage(key).value), KeyMessage(key).value, Null)
  {
    if key == "ArrowLeft" {
      emitter.Publish(HeroMoveLeft, player);
    } else if key == "ArrowRight" {
      emitter.Publish(HeroMoveRight, player);
    }
  }

  /**
   * Once wired, ArrowLeft puts the player at (5, 0) and ArrowRight at (-5, 0),
   * whatever its position before; any other key leaves it where it was.
   */
  lemma WiredKeyUp(key: string, p: Pos)
    ensures key == "ArrowLeft" ==> KeyUpEffect(WiredTable(), key, p) == LeftTarget
    ensures key == "ArrowRight" ==> KeyUpEffect(WiredTable(), key, p) == RightTarget
    ensures key != "ArrowLeft" && key != "ArrowRight" ==> KeyUpEffect(WiredTable(), key, p) == p
  {
    WiredTableContents();
    assert Lookup(WiredTable(), HeroMoveLeft) == [LeftHandler];
    assert Lookup(WiredTable(), HeroMoveRight) == [RightHandler];
    RunLast([LeftHandler], p);
    RunLast([RightHandler], p);
  }

  /** Releasing the same key twice in a row has the effect of releasing it once, over any table. */
  lemma KeyUpIdempotent(t: Table, key: string, p: Pos)
    ensures KeyUpEffect(t, key, KeyUpEffect(t, key, p)) == KeyUpEffect(t, key, p)
  {
    match KeyMessage(key)
    case None =>
    case Some(m) => RunIdempotent(Lookup(t, m), p);
  }

  /** The player's position after releasing the keys in order, starting from p. */
  function AfterKeys(t: Table, keys: seq<string>, p: Pos): Pos
  {
    if keys == [] then p else AfterKeys(t, keys[1..], KeyUpEffect(t, keys[0], p))
  }

  /**
   * From the wired start, the player is always at (0, 0), (5, 0) or (-5, 0):
   * movement is absolute, so no sequence of keys reaches anywhere else.
   */
  lemma {:induction false} WiredReachable(keys: seq<string>, p: Pos)
    requires p in {Pos(0.0, 0.0), LeftTarget, RightTarget}
    ensures AfterKeys(WiredTable(), keys, p) in {Pos(0.0, 0.0), LeftTarget, RightTarget}
  {
    if keys != [] {
      WiredKeyUp(keys[0], p);
      WiredReachable(keys[1..], KeyUpEffect(WiredTable(), keys[0], p));
    }
  }

  /**
   * From the wired start, the position after a sequence of keys is decided
   * by the last arrow key released: later non-arrow keys change nothing.
   */
  lemma {:induction false} WiredLastArrow(keys: seq<string>, p: Pos, rest: seq<string>)
    requires forall i :: 0 <= i < |rest| ==> KeyMessage(rest[i]) == None
    ensures AfterKeys(WiredTable(), keys + ["ArrowLeft"] + rest, p) == LeftTarget
    ensures AfterKeys(WiredTable(), keys + ["ArrowRight"] + rest, p) == RightTarget
  {
    AfterKeysAppend(WiredTable(), keys, ["ArrowLeft"] + rest, p);
    AfterKeysAppend(WiredTable(), keys, ["ArrowRight"] + rest, p);
    assert keys + ["ArrowLeft"] + rest == keys + (["ArrowLeft"] + rest);
    assert keys + ["ArrowRight"] + rest == keys + (["ArrowRight"] + rest);
    var q := AfterKeys(WiredTable(), keys, p);
    WiredKeyUp("ArrowLeft", q);
    WiredKeyUp("ArrowRight", q);
    assert (["ArrowLeft"] + rest)[1..] == rest;
    assert (["ArrowRight"] + rest)[1..] == rest;
    IgnoredKeys(WiredTable(), rest, LeftTarget);
    IgnoredKeys(WiredTable(), rest, RightTarget);
  }

  /** Releasing keys one after another composes: the second run starts where the first ended. */
  lemma {:induction false} AfterKeysAppend(t: Table, a: seq<string>, b: seq<string>, p: Pos)
    ensures AfterKeys(t, a + b, p) == AfterKeys(t, b, AfterKeys(t, a, p))
  {
    if a != [] {
      assert (a + b)[1..] == a[1..] + b;
      AfterKeysAppend(t, a[1..], b, KeyUpEffect(t, a[0], p));
    } else {
      assert a + b == b;
    }
  }

  /** Keys that map to no message never move the player. */
  lemma {:induction false} IgnoredKeys(t: Table, keys: seq<string>, p: Pos)
    requires forall i :: 0 <= i < |keys| ==> KeyMessage(keys[i]) == None
    ensures AfterKeys(t, keys, p) == p
  {
    if keys != [] {
      assert KeyMessage(keys[0]) == None;
      IgnoredKeys(t, keys[1..], p);
    }
  }
}
