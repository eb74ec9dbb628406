/** src/buffer.rs: `Buffer`, an array with a read and a write pointer that behaves as a bounded queue of bytes. */
module Buffer {
  import opened Basics
  import opened Runs

  // ---------- the queue it stands for ----------

  datatype Call = Put(data: seq<byte>) | Get(room: nat)

  /** A bounded queue with the bytes that ever went in and came out. */
  datatype Queue = Queue(capacity: nat, content: seq<byte>, put: seq<byte>, got: seq<byte>)

  /** `write` and `read` move as much as fits, and report how much. */
  function Moved(content: seq<byte>, capacity: nat, c: Call): (n: nat)
    requires |content| <= capacity
  {
    match c
    case Put(data) => Min(|data|, capacity - |content|)
    case Get(room) => Min(room, |content|)
  }

  function Content(content: seq<byte>, capacity: nat, c: Call): (r: seq<byte>)
    requires |content| <= capacity
    ensures |r| <= capacity
  {
    match c
    case Put(data) => content + data[..Moved(content, capacity, c)]
    case Get(_) => content[Moved(content, capacity, c)..]
  }

  function Do(q: Queue, c: Call): Queue {
    if |q.content| > q.capacity then q
    else
      var n := Moved(q.content, q.capacity, c);
      q.(content := Content(q.content, q.capacity, c),
         put := if c.Put? then q.put + c.data[..n] else q.put,
         got := if c.Get? then q.got + q.content[..n] else q.got)
  }

  /** First in, first out, within the capacity, over every sequence of calls. */
  lemma FirstInFirstOut(capacity: nat, calls: seq<Call>)
    ensures var q := After(Do, Queue(capacity, [], [], []), calls);
            q.got + q.content == q.put && |q.content| <= capacity
  {
    var inv := (q: Queue) => q.got + q.content == q.put && |q.content| <= q.capacity == capacity;
    forall q, c | inv(q) ensures inv(Do(q, c)) {
      var n := Moved(q.content, q.capacity, c);
      match c
      case Put(data) => assert q.got + (q.content + data[..n]) == (q.got + q.content) + data[..n];
      case Get(_) => assert q.got + q.content[..n] + q.content[n..] == q.got + q.content;
    }
    Invariant(Do, inv, Queue(capacity, [], [], []), calls);
  }

  // ---------- the array with its pointers ----------

  class Buffer {
    var inner: array<byte>
    var readPointer: nat
    var writePointer: nat

    ghost predicate Valid()
      reads this
    {
      readPointer <= writePointer <= inner.Length
    }

    /** `as_ref`: what is written and not yet read. */
    function Readable(): seq<byte>
      requires Valid()
      reads this, inner
    {
      inner[readPointer..writePointer]
    }

    constructor WithCapacity(capacity: nat)
      ensures Valid() && fresh(inner) && inner.Length == capacity && Readable() == []
    {
      inner := new byte[capacity];
      readPointer, writePointer := 0, 0;
    }

    /** Built from bytes, it holds them all. */
    constructor From(data: seq<byte>)
      ensures Valid() && fresh(inner) && inner.Length == |data| && Readable() == data
    {
      inner := new byte[|data|](i requires 0 <= i < |data| => data[i]);
      readPointer, writePointer := 0, |data|;
    }

    method SetCapacity(capacity: nat)
      requires Valid()
      modifies this
      ensures Valid() && inner.Length == capacity && Readable() == []
      ensures inner == old(inner) || fresh(inner)
    {
      if capacity != inner.Length {
        inner := new byte[capacity];
      }
      Reset();
    }

    method Reset()
      modifies this`readPointer, this`writePointer
      ensures Valid() && Readable() == []
    {
      writePointer, readPointer := 0, 0;
    }

    /** `rotate_buffer` moves the unread bytes to the front and changes nothing a reader sees. */
    method Rotate()
      requires Valid()
      modifies this`readPointer, this`writePointer, inner
      ensures Valid() && readPointer == 0 && Readable() == old(Readable())
    {
      if readPointer == 0 {
        return;
      }
      if readPointer >= writePointer {
        readPointer, writePointer := 0, 0;
        return;
      }
      var begin, n := readPointer, writePointer - readPointer;
      forall i | 0 <= i < n {
        inner[i] := inner[begin + i];
      }
      writePointer, readPointer := n, 0;
    }

    method Progress(amount: nat)
      requires Valid()
      modifies this`readPointer
      ensures Valid() && Readable() == old(Readable())[Min(amount, |old(Readable())|)..]
    {
      if readPointer + amount > writePointer {
        readPointer := writePointer;
      } else {
        readPointer := readPointer + amount;
      }
    }

    /** The bytes a caller put behind the write pointer become readable. */
    method ProgressWrite(amount: nat)
      requires Valid()
      modifies this`writePointer
      ensures Valid() && writePointer == Min(old(writePointer) + amount, inner.Length)
      ensures Readable() == old(Readable()) + inner[old(writePointer)..writePointer]
    {
      if writePointer + amount > inner.Length {
        writePointer := inner.Length;
      } else {
        writePointer := writePointer + amount;
      }
    }

    function AvailableForRead(): (n: nat)
      requires Valid()
      reads this, inner
      ensures n == |Readable()|
    {
      writePointer - readPointer
    }

    /** What is readable and what is writable make up the capacity. */
    function AvailableForWrite(): (n: nat)
      requires Valid()
      reads this, inner
      ensures n + AvailableForRead() == inner.Length
    {
      inner.Length - writePointer + readPointer
    }

    method Read(buf: array<byte>) returns (n: nat)
      requires Valid() && buf != inner
      modifies this`readPointer, buf
      ensures Valid() && n == Moved(old(Readable()), inner.Length, Get(buf.Length))
      ensures Readable() == Content(old(Readable()), inner.Length, Get(buf.Length))
      ensures buf[..n] == old(Readable())[..n] && buf[n..] == old(buf[..])[n..]
    {
      var available := AvailableForRead();
      if available == 0 {
        return 0;
      }
      n := Min(available, buf.Length);
      var begin := readPointer;
      forall i | 0 <= i < n {
        buf[i] := inner[begin + i];
      }
      readPointer := readPointer + n;
    }

    method Write(data: seq<byte>) returns (n: nat)
      requires Valid()
      modifies this`readPointer, this`writePointer, inner
      ensures Valid() && n == Moved(old(Readable()), inner.Length, Put(data))
      ensures Readable() == Content(old(Readable()), inner.Length, Put(data))
    {
      Rotate();
      var available := AvailableForWrite();
      if available == 0 {
        assert Readable() + data[..0] == Readable();
        return 0;
      }
      n := Min(available, |data|);
      var begin := writePointer;
      ghost var before := Readable();
      forall i | 0 <= i < n {
        inner[begin + i] := data[i];
      }
      writePointer := writePointer + n;
      assert inner[..begin] == before;
      assert inner[begin..begin + n] == data[..n];
      assert inner[..begin + n] == inner[..begin] + inner[begin..begin + n];
    }
  }
}
