/**
 * The driver's environment: the two-wire bus and the microsecond timer, as one
 * scripted object. Every operation appends what it did to a ghost event log; a
 * write or a read takes its outcome from the front of a scripted reply queue, as a
 * mock bus replays a list of expected transactions. An exhausted queue answers as
 * a device that does not acknowledge.
 */
module Hal {
  import opened Bits

  /** A bus address, `SevenBitAddress` (a `u8`); the driver passes it on unchecked. */
  type Address = Byte

  /** The 4-byte read buffer every measurement uses. */
  type Buffer = s: seq<Byte> | |s| == 4 witness [0, 0, 0, 0]

  /** The kinds of failure a bus transaction can report. */
  datatype BusFault = Bus | ArbitrationLoss | NoAcknowledge | Overrun | Other

  datatype Outcome = Pass | Fail(fault: BusFault)

  datatype ReadReply = Received(bytes: Buffer) | ReadFailed(fault: BusFault)

  /** What the driver did to the outside world, in order. */
  datatype Event =
    | Write(address: Address, bytes: seq<Byte>)
    | Delay(us: U32)
    | Read(address: Address, length: nat)

  /** The replies still to come: one per write, one per read. */
  datatype Pending = Pending(writeReplies: seq<Outcome>, readReplies: seq<ReadReply>)

  function NextWrite(replies: seq<Outcome>): Outcome
  {
    if replies == [] then Fail(NoAcknowledge) else replies[0]
  }

  function NextRead(replies: seq<ReadReply>): ReadReply
  {
    if replies == [] then ReadFailed(NoAcknowledge) else replies[0]
  }

  function Rest<T>(q: seq<T>): seq<T>
  {
    if q == [] then [] else q[1..]
  }

  class Bus {
    ghost var trace: seq<Event>
    var writeReplies: seq<Outcome>
    var readReplies: seq<ReadReply>

    function Replies(): Pending
      reads this
    {
      Pending(writeReplies, readReplies)
    }

    constructor (writeReplies: seq<Outcome>, readReplies: seq<ReadReply>)
      ensures trace == [] && this.writeReplies == writeReplies && this.readReplies == readReplies
    {
      trace := [];
      this.writeReplies := writeReplies;
      this.readReplies := readReplies;
    }

    /** Writes `bytes` to the device at `address`. */
    method Write(address: Address, bytes: seq<Byte>) returns (r: Outcome)
      modifies this
      ensures trace == old(trace) + [Event.Write(address, bytes)]
      ensures r == NextWrite(old(writeReplies))
      ensures writeReplies == Rest(old(writeReplies)) && readReplies == old(readReplies)
    {
      r := NextWrite(writeReplies);
      writeReplies := Rest(writeReplies);
      trace := trace + [Event.Write(address, bytes)];
    }

    /** Reads `buffer.Length` bytes from the device at `address` into `buffer`. */
    method Read(address: Address, buffer: array<Byte>) returns (r: Outcome)
      requires buffer.Length == 4
      modifies this, buffer
      ensures trace == old(trace) + [Event.Read(address, 4)]
      ensures writeReplies == old(writeReplies) && readReplies == Rest(old(readReplies))
      ensures match NextRead(old(readReplies))
        case Received(bytes) => r == Pass && buffer[..] == bytes
        case ReadFailed(f) => r == Fail(f) && buffer[..] == old(buffer[..])
    {
      var reply := NextRead(readReplies);
      readReplies := Rest(readReplies);
      trace := trace + [Event.Read(address, 4)];
      match reply {
        case Received(bytes) =>
          forall i | 0 <= i < 4 {
            buffer[i] := bytes[i];
          }
          r := Pass;
        case ReadFailed(f) =>
          r := Fail(f);
      }
    }

    /** Suspends for `us` microseconds; the timer cannot fail. */
    method DelayUs(us: U32)
      modifies this
      ensures trace == old(trace) + [Delay(us)]
      ensures writeReplies == old(writeReplies) && readReplies == old(readReplies)
    {
      trace := trace + [Delay(us)];
    }
  }
}
