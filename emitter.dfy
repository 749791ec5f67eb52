/**
 * A publish/subscribe table: each message name maps to the ordered list of
 * its subscribers, and publishing a message invokes them in that order.
 */
module Emitter {
  import opened Objects

  /**
   * The subscriber actions the game registers. Every subscriber moves the
   * player to an absolute position and ignores its arguments.
   */
  datatype Handler = MovePlayer(x: real, y: real)

  /** The value passed along with a published message; publishing without one passes Null. */
  datatype Payload = Null | Value(text: string)

  /** One invocation of a subscriber, with the arguments it received. */
  datatype Call = Call(handler: Handler, message: string, payload: Payload)

  /** The subscription table: message name to subscribers in subscription order. */
  type Table = map<string, seq<Handler>>

  /** The subscribers of m; a message nobody subscribed to has none. */
  function Lookup(t: Table, m: string): seq<Handler>
  {
    if m in t then t[m] else []
  }

  /** Where a handler leaves the player: moveTo overwrites both coordinates. */
  function Target(h: Handler): Pos
  {
    Pos(h.x, h.y)
  }

  /** The table after subscribing s to m. */
  function Subscribed(t: Table, m: string, s: Handler): (r: Table)
    ensures r.Keys == t.Keys + {m}
    ensures Lookup(r, m) == Lookup(t, m) + [s]
    ensures forall k :: k != m ==> Lookup(r, k) == Lookup(t, k)
  {
    t[m := Lookup(t, m) + [s]]
  }

  /** The invocations made when the handlers hs are called one by one with (m, p). */
  function Invocations(hs: seq<Handler>, m: string, p: Payload): (r: seq<Call>)
    ensures |r| == |hs|
    ensures forall i :: 0 <= i < |hs| ==> r[i] == Call(hs[i], m, p)
  {
    if hs == [] then [] else [Call(hs[0], m, p)] + Invocations(hs[1..], m, p)
  }

  /** The player's position after the handlers hs run in order, starting from p. */
  function Run(hs: seq<Handler>, p: Pos): Pos
  {
    if hs == [] then p else Run(hs[1..], Target(hs[0]))
  }

  /** Running one more handler after hs is the same as applying that handler last. */
  lemma {:induction false} RunSnoc(hs: seq<Handler>, h: Handler, p: Pos)
    ensures Run(hs + [h], p) == Target(h)
  {
    if hs != [] {
      assert (hs + [h])[1..] == hs[1..] + [h];
      RunSnoc(hs[1..], h, Target(hs[0]));
    }
  }

  /**
   * Because every handler moves to an absolute position, the last subscriber
   * alone decides where the player ends up; with no subscriber it stays put.
   */
  lemma {:induction false} RunLast(hs: seq<Handler>, p: Pos)
    ensures hs == [] ==> Run(hs, p) == p
    ensures hs != [] ==> Run(hs, p) == Target(hs[|hs| - 1])
  {
    if hs != [] {
      assert hs == hs[..|hs| - 1] + [hs[|hs| - 1]];
      RunSnoc(hs[..|hs| - 1], hs[|hs| - 1], p);
    }
  }

  /** Publishing the same message twice leaves the player where publishing it once does. */
  lemma RunIdempotent(hs: seq<Handler>, p: Pos)
    ensures Run(hs, Run(hs, p)) == Run(hs, p)
  {
    RunLast(hs, p);
    RunLast(hs, Run(hs, p));
  }

  /**
   * Two subscriptions to one message are both kept, in subscription order,
   * and publishing it invokes each exactly once, the first one first.
   */
  lemma SubscribeTwiceOrder(t: Table, m: string, a: Handler, b: Handler, p: Payload)
    ensures Lookup(Subscribed(Subscribed(t, m, a), m, b), m) == Lookup(t, m) + [a, b]
    ensures var calls := Invocations(Lookup(Subscribed(Subscribed(t, m, a), m, b), m), m, p);
      calls[|calls| - 2] == Call(a, m, p) && calls[|calls| - 1] == Call(b, m, p)
  {
    assert Lookup(t, m) + [a] + [b] == Lookup(t, m) + [a, b];
  }

  /** The message bus: the subscription table and the record of every subscriber invocation. */
  class EventEmitter {
    var subscribers: Table
    var calls: seq<Call>

    /** A bus with no subscribers and no invocations yet. */
    constructor ()
      ensures subscribers == map[] && calls == []
    {
      subscribers := map[];
      calls := [];
    }

    /**
     * Appends subscriber to the list of message, creating the list when the
     * message has none; the lists of all other messages are unchanged.
     */
    method Subscribe(message: string, subscriber: Handler)
      modifies this
      ensures subscribers == Subscribed(old(subscribers), message, subscriber)
      ensures calls == old(calls)
    {
      if message !in subscribers {
        subscribers := subscribers[message := []];
      }
      subscribers := subscribers[message := subscribers[message] + [subscriber]];
    }

    /**
     * Invokes every subscriber of message, in subscription order, with
     * (message, payload), each one moving the player. A message without
     * subscribers changes nothing. The table itself is never changed.
     */
    method Publish(message: string, player: MovableObject, payload: Payload := Null)
      modifies this, player
      ensures subscribers == old(subscribers)
      ensures calls == old(calls) + Invocations(Lookup(subscribers, message), message, payload)
      ensures player.Position() == Run(Lookup(subscribers, message), old(player.Position()))
      ensures player.kind == old(player.kind)
      ensures message !in subscribers ==> calls == old(calls) && player.Position() == old(player.Position())
    {
      if message in subscribers {
        var hs := subscribers[message];
        var i := 0;
        while i < |hs|
          invariant 0 <= i <= |hs|
          invariant subscribers == old(subscribers)
          invariant calls == old(calls) + Invocations(hs[..i], message, payload)
          invariant player.Position() == Run(hs[..i], old(player.Position()))
          invariant player.kind == old(player.kind)
        {
          var h := hs[i];
          assert hs[..i + 1] == hs[..i] + [h];
          RunSnoc(hs[..i], h, old(player.Position()));
          calls := calls + [Call(h, message, payload)];
          player.MoveTo(h.x, h.y);
          i := i + 1;
        }
        assert hs[..i] == hs;
      }
    }
  }
}
