# Space-Game core (early `index.js`)

A Dafny model of the logic in the first iteration of the Space-Game browser
game: the publish/subscribe `EventEmitter`, the movable game objects
(`Player`, `Enemy`) and their `moveTo`, the two movement messages and the
subscriptions that move the player, the key-release listener that maps arrow
keys to messages, and the positions of the 5×5 enemy formation computed by
`createEnemies`.

Modules, one per component of the file:

- `Objects` (`objects.dfy`): `Pos` and the class `MovableObject` with fields
  `x`, `y` and the type tag `kind`. JavaScript's `GameObject <- MovableObject
  <- {Player, Enemy}` chain is flattened into one class: `Player` and `Enemy`
  only fix the tag, so they are named constructors.
  `MovableObject.Position()` reads the object's `(x, y)` as a `Pos`; every
  position stated in the contracts below goes through it.
- `Emitter` (`emitter.dfy`): the class `EventEmitter` holding the subscription
  table `map<string, seq<Handler>>` and a record `calls` of every subscriber
  invocation with the `(message, payload)` it received. Subscribers are the
  closed datatype `Handler`, whose only action is `MovePlayer(x, y)` — the
  `player.moveTo(x, y)` closures the file registers. The specification
  functions `Lookup`, `Subscribed`, `Invocations` and `Run` describe the
  table after a subscription, the invocations of a publish and the player's
  position after the subscribers run.
- `Game` (`game.dfy`): the message names, the wiring (`SetUp`), the key
  mapping (`KeyMessage`), the listener body (`OnKeyUp`) and what any
  sequence of key releases does to the player. `LeftHandler` and
  `RightHandler` are the two subscribed closures; `LeftTarget` (5, 0) and
  `RightTarget` (-5, 0) are where they put the player.
- `Enemies` (`enemies.dfy`): `CreateEnemies`, the nested loops of
  `createEnemies` producing the sequence of positions instead of drawing.

Coordinates are `real`. JavaScript numbers are doubles, but every value the
file computes (integer canvas widths, halves of them, multiples of 98 and 50)
is exactly representable, so exact rationals give the same results.

## Model

| member | source | states |
|---|---|---|
| `Objects.MovableObject.constructor` | index.js:24-36 | a game object starts at the given coordinates with the given type tag |
| `Objects.MovableObject.Player` | index.js:46-50 | a player starts at the given coordinates and carries the tag "Player" |
| `Objects.MovableObject.Enemy` | index.js:53-57 | an enemy starts at the given coordinates and carries the tag "Enemy" |
| `Objects.MovableObject.Position` | index.js:26-27 | definition, no contract: the object's current `(x, y)` |
| `Objects.MovableObject.MoveTo` | index.js:38-41 | both coordinates become exactly the arguments; the type tag is unchanged |
| `Emitter.EventEmitter.constructor` | index.js:3-5 | a new bus has an empty subscription table and has invoked nobody |
| `Emitter.Lookup` | index.js:9-10 | definition, no contract: the subscribers of a message, the empty list when it has no entry |
| `Emitter.Subscribed` | index.js:8-13 | the list of the message becomes its old list (empty when there was none) followed by the subscriber; every other message keeps its list; the message becomes a key |
| `Emitter.EventEmitter.Subscribe` | index.js:8-13 | the new table is `Subscribed` of the old one; no subscriber is invoked |
| `Emitter.Target` | index.js:38-41 | definition, no contract: where a subscriber's `moveTo` leaves the player, whatever its position before |
| `Emitter.Invocations` | index.js:18 | one invocation per subscriber, in subscription order, each receiving exactly `(message, payload)` |
| `Emitter.EventEmitter.Publish` | index.js:16-20 | the table is unchanged; the invocations appended are `Invocations` of the message's subscribers with the payload (default `Null`); the player ends where running those subscribers in order puts it; a message without subscribers invokes nobody and leaves the player in place |
| `Emitter.Run` | index.js:18 | definition, no contract: the player's position after the subscribers' `moveTo` calls run in list order |
| `Emitter.RunSnoc` | index.js:18 | running one more subscriber after a list leaves the player at that subscriber's target |
| `Emitter.RunLast` | index.js:18 | with absolute moves the last subscriber alone decides the player's position; with none the player stays put |
| `Emitter.RunIdempotent` | index.js:16-20 | publishing the same message twice leaves the player where publishing it once does |
| `Emitter.SubscribeTwiceOrder` | index.js:8-18 | two subscriptions to one message are kept in subscription order and a publish invokes the first, then the second, each with the message and payload |
| `Game.HeroMoveLeft` | index.js:61 | definition, no contract: the message name `HERO_MOVE_LEFT` |
| `Game.HeroMoveRight` | index.js:62 | definition, no contract: the message name `HERO_MOVE_RIGHT` |
| `Game.LeftHandler` | index.js:72 | definition, no contract: the subscriber `() => player.moveTo(5, 0)` |
| `Game.RightHandler` | index.js:73 | definition, no contract: the subscriber `() => player.moveTo(-5, 0)` |
| `Game.LeftTarget` | index.js:72 | definition, no contract: (5, 0), where `LeftHandler` puts the player |
| `Game.RightTarget` | index.js:73 | definition, no contract: (-5, 0), where `RightHandler` puts the player |
| `Game.WiredTable` | index.js:72-73 | definition, no contract: the table after the two subscriptions, left first |
| `Game.WiredTableContents` | index.js:60-73 | after the wiring, `HERO_MOVE_LEFT` has exactly the subscriber moving to (5, 0), `HERO_MOVE_RIGHT` exactly the one moving to (-5, 0), and no other message has subscribers |
| `Game.SetUp` | index.js:66-73 | creates a fresh bus and a fresh player at (0, 0) tagged "Player" and leaves the bus holding the wired table with no invocations yet |
| `Game.KeyMessage` | index.js:77-82 | `ArrowLeft` maps to `HERO_MOVE_LEFT`, `ArrowRight` to `HERO_MOVE_RIGHT`, and exactly every other key maps to no message |
| `Game.KeyUpEffect` | index.js:76-83 | definition, no contract: the player's position after the listener runs for a key |
| `Game.OnKeyUp` | index.js:76-83 | publishes the key's message with no payload, or nothing for an unmapped key; the table is unchanged and the player moves as `KeyUpEffect` says |
| `Game.WiredKeyUp` | index.js:72-83 | once wired, ArrowLeft puts the player at (5, 0) and ArrowRight at (-5, 0) from any position; other keys leave it in place |
| `Game.KeyUpIdempotent` | index.js:76-83 | releasing the same key twice has the effect of releasing it once |
| `Game.AfterKeys` | index.js:76-83 | definition, no contract: the player's position after the listener runs for each key in order |
| `Game.AfterKeysAppend` | index.js:76-83 | releasing two sequences of keys one after the other composes |
| `Game.IgnoredKeys` | index.js:76-83 | a sequence of unmapped keys never moves the player |
| `Game.WiredReachable` | index.js:69-83 | from the start position the player is only ever at (0, 0), (5, 0) or (-5, 0), whatever keys are released |
| `Game.WiredLastArrow` | index.js:72-83 | the player's position is decided by the last arrow key released, whatever came before and whatever unmapped keys come after |
| `Enemies.MonsterTotal` | index.js:87 | definition, no contract: `MONSTER_TOTAL = 5` |
| `Enemies.MonsterWidth` | index.js:88 | definition, no contract: `MONSTER_WIDTH = MONSTER_TOTAL * 98` |
| `Enemies.ColumnStep` | index.js:92 | definition, no contract: the column step `x += 98` |
| `Enemies.RowStep` | index.js:93 | definition, no contract: the row step `y += 50` |
| `Enemies.StartX` | index.js:87-89 | definition, no contract: `START_X = (width - 5·98)/2` |
| `Enemies.StopX` | index.js:90 | definition, no contract: `STOP_X = START_X + 490` |
| `Enemies.GridAt` | index.js:92-93 | definition, no contract: the k-th position of the loops, column k / 5 and row k % 5 |
| `Enemies.GridIndex` | index.js:92-93 | position 5·i + j of the formation is column i, row j |
| `Enemies.CreateEnemies` | index.js:86-96 | the two loops yield exactly 25 positions, the k-th being column k / 5 at `START_X + 98·(k / 5)` and row k % 5 at `50·(k % 5)`, in column-major order |
| `Enemies.GridExtent` | index.js:87-93 | every position has x in [START_X, STOP_X) and y in [0, 250); the first column is at START_X and the last one a column step short of STOP_X |
| `Enemies.GridCentred` | index.js:88-90 | the formation is centred: START_X plus STOP_X is the canvas width |
| `Enemies.GridDistinct` | index.js:92-93 | the 25 positions are pairwise distinct |
| `Enemies.Grid800` | index.js:87-90 | on an 800-pixel canvas the block spans from 155 to 645, the last enemy at (547, 200) |

## Left out

- `loadAsset` (index.js:100-113): asynchronous image loading through `Promise` and `Image`; browser I/O.
- `window.onload` (index.js:115-137): DOM lookup, canvas context, background fill, drawing the player image and the error logged to the console; rendering only. The black background is always filled; the player and the enemies are drawn only if both images loaded.
- The `ctx.drawImage` call inside `createEnemies` (index.js:94): pixel output; `CreateEnemies` returns the positions it would draw at.
- `window.addEventListener` (index.js:76): registering the listener with the browser; `OnKeyUp` models the listener's body.
- Arbitrary JavaScript closures as subscribers: replaced by the closed datatype `Handler` of the actions the file registers, and subscribers act on the player passed to `Publish` rather than a captured global.
- Payloads are reduced to `Null` or a string; the file itself never passes one.
- The subscription table is a plain dictionary: message names that collide with properties inherited by JavaScript objects (such as `toString`) are not modelled; the file uses only its two message names.
- Floating-point rounding of JavaScript numbers: coordinates are exact `real`s, which agree with doubles for every value the file computes.
