/** src/http2/mod.rs, `BackgroundRead`: the request body as the handler reads it. */
module BackgroundRead {
  import opened Basics
  import opened H2Types
  import opened StreamSpec
  import opened Seqs

  function Bytes(d: seq<byte>): seq<byte> {
    d
  }

  /** The unread bytes of the chunk in hand. */
  function InHand(b: Body): seq<byte> {
    if b.cur.Some? then b.cur.value.rest else []
  }

  /** All bytes of the body so far: handed out, left in the chunk in hand, and queued. */
  function Content(b: Body): seq<byte> {
    b.log.read + InHand(b) + FlatMap(b.queue, Bytes)
  }

  /** A poll hands out the next bytes in the order they arrived, at most as many as there is room for. */
  lemma PollInOrder(b: Body, room: nat)
    ensures Content(PollBody(b, room)) == Content(b)
    ensures b.log.read <= PollBody(b, room).log.read
    ensures |PollBody(b, room).log.read| <= |b.log.read| + room
  {
    if b.cur.Some? && b.cur.value.rest != [] {
      HandOutInOrder(b.(cur := None), b.cur.value, room);
    } else {
      var b1 := if b.cur.Some? then Issue(b.(cur := None), b.cur.value.total) else b;
      assert Content(b1) == Content(b);
      if b1.queue != [] {
        NextInOrder(b1, room);
      }
    }
  }

  /** A poll is never idle: it hands out as much as there is room for of the chunk in hand, or else of the next one, or
      drops the next one if it is empty. */
  lemma PollProgress(b: Body, room: nat)
    ensures var b' := PollBody(b, room);
            if InHand(b) != [] then
              b'.log.read == b.log.read + InHand(b)[..Min(|InHand(b)|, room)] && b'.queue == b.queue
            else if b.queue != [] then
              b'.log.read == b.log.read + b.queue[0][..Min(|b.queue[0]|, room)] && b'.queue == b.queue[1..]
            else b'.log.read == b.log.read && b'.queue == [] && b'.cur.None?
  {
    if InHand(b) == [] && b.queue != [] {
      assert b.log.read + [] == b.log.read;
    }
  }

  /** The same with no chunk in hand: the next one is taken. */
  lemma NextInOrder(b: Body, room: nat)
    requires b.cur.None? && b.queue != []
    ensures var next := b.(queue := b.queue[1..]);
            var b' := if b.queue[0] == [] then next else HandOut(next, Cur(|b.queue[0]|, b.queue[0]), room);
            Content(b') == Content(b) && b.log.read <= b'.log.read && |b'.log.read| <= |b.log.read| + room
  {
    var chunk, rest := b.queue[0], FlatMap(b.queue[1..], Bytes);
    Regroup(b.log.read, chunk, rest);
    assert b.log.read + [] == b.log.read && FlatMap(b.queue, Bytes) == chunk + rest;
    if chunk != [] {
      HandOutInOrder(b.(queue := b.queue[1..]), Cur(|chunk|, chunk), room);
    }
  }

  lemma HandOutInOrder(b: Body, c: Cur, room: nat)
    requires b.cur.None?
    ensures Content(HandOut(b, c, room)) == b.log.read + c.rest + FlatMap(b.queue, Bytes)
    ensures b.log.read <= HandOut(b, c, room).log.read
    ensures |HandOut(b, c, room).log.read| <= |b.log.read| + room
  {
    var n := Min(|c.rest|, room);
    assert c.rest == c.rest[..n] + c.rest[n..];
    Regroup(b.log.read, c.rest[..n], c.rest[n..]);
  }

  class Reader {
    var buffer: Option<Cur>
    var receiver: seq<seq<byte>>
    var sender: seq<i32>
    var dropped: bool
    ghost var log: BodyLog

    ghost function View(): Body
      reads this
    {
      Body(receiver, buffer, sender, dropped, log)
    }

    constructor ()
      ensures View() == NewBody()
    {
      buffer, receiver, sender, dropped, log := None, [], [], false, BodyLog([], [], false);
    }

    /** `update_window`. */
    method UpdateWindow(amount: nat)
      modifies this`sender
      ensures View() == Issue(old(View()), amount)
    {
      if amount > I32_MAX {
        return;
      }
      sender := sender + [amount];
    }

    method PollRead(room: nat) returns (bytes: seq<byte>)
      modifies this
      ensures View() == PollBody(old(View()), room)
      ensures log.read == old(log.read) + bytes
    {
      if buffer.Some? {
        var cur := buffer.value;
        buffer := None;
        if |cur.rest| > 0 {
          bytes := Take(cur, room);
          return;
        }
        UpdateWindow(cur.total);
      }
      if receiver == [] {
        return [];
      }
      var chunk := receiver[0];
      receiver := receiver[1..];
      if |chunk| == 0 {
        return [];
      }
      bytes := Take(Cur(|chunk|, chunk), room);
    }

    method Take(cur: Cur, room: nat) returns (bytes: seq<byte>)
      requires buffer.None?
      modifies this
      ensures View() == HandOut(old(View()), cur, room)
      ensures log.read == old(log.read) + bytes
    {
      var amount := if |cur.rest| <= room then |cur.rest| else room;
      bytes := cur.rest[..amount];
      log := log.(read := log.read + bytes);
      if |cur.rest| - amount > 0 {
        buffer := Some(cur.(rest := cur.rest[amount..]));
      } else {
        UpdateWindow(cur.total);
      }
    }

    /** `drop`, with the task it spawns running until the queue is empty. */
    method Drop()
      modifies this
      ensures dropped && buffer.None? && receiver == []
      ensures sender == old(sender) + (if old(buffer).Some? then Credit(old(buffer).value.total) else [])
                        + FlatMap(old(receiver), CreditOf)
    {
      dropped := true;
      if buffer.Some? {
        UpdateWindow(buffer.value.total);
        buffer := None;
      }
      assert sender == old(sender) + (if old(buffer).Some? then Credit(old(buffer).value.total) else []);
      Drain();
    }

    /** The loop of that task. */
    method Drain()
      modifies this`receiver, this`sender
      ensures receiver == [] && sender == old(sender) + FlatMap(old(receiver), CreditOf)
    {
      while receiver != []
        invariant sender + FlatMap(receiver, CreditOf) == old(sender) + FlatMap(old(receiver), CreditOf)
        decreases |receiver|
      {
        var chunk := receiver[0];
        Regroup(sender, CreditOf(chunk), FlatMap(receiver[1..], CreditOf));
        receiver := receiver[1..];
        UpdateWindow(|chunk|);
      }
      assert sender + [] == sender;
    }
  }

  function CreditOf(d: seq<byte>): seq<i32> {
    Credit(|d|)
  }
}
