/** The Buffer object: a vector changed in place, refining BufferSpec. */
module Buffers {
  import opened BufferSpec

  /** What one readv or write call came to. */
  datatype Outcome<T> = Done(value: T) | Failed(errno: int)

  class Buffer {
    var storage: array<byte>
    var readerIndex: nat
    var writeIndex: nat

    ghost predicate Valid()
      reads this, storage
    {
      CHEAP_PREPEND <= readerIndex <= writeIndex <= storage.Length
    }

    ghost function View(): (b: Image)
      reads this, storage
      ensures Valid() ==> b.Valid()
    {
      Image(storage[..], readerIndex, writeIndex)
    }

    constructor ()
      ensures Valid() && fresh(storage) && View() == EMPTY
    {
      storage := new byte[CHEAP_PREPEND + INITIAL_SIZE](_ => 0);
      readerIndex, writeIndex := CHEAP_PREPEND, CHEAP_PREPEND;
      new;
      assert storage[..] == Zeros(CHEAP_PREPEND + INITIAL_SIZE);
    }

    function ReadableBytes(): nat
      requires Valid()
      reads this, storage
    {
      writeIndex - readerIndex
    }

    function WritableBytes(): nat
      requires Valid()
      reads this, storage
    {
      storage.Length - writeIndex
    }

    method RetrieveAll()
      requires Valid()
      modifies this`readerIndex, this`writeIndex
      ensures Valid() && View() == BufferSpec.RetrieveAll(old(View()))
    {
      readerIndex, writeIndex := CHEAP_PREPEND, CHEAP_PREPEND;
    }

    method Retrieve(len: nat)
      requires Valid()
      modifies this`readerIndex, this`writeIndex
      ensures Valid() && View() == BufferSpec.Retrieve(old(View()), len)
    {
      if len < ReadableBytes() {
        readerIndex := readerIndex + len;
      } else {
        RetrieveAll();
      }
    }

    /** A length past the readable bytes is only a fault of memory past the end of the vector. */
    method RetrieveAsString(len: nat) returns (result: seq<byte>)
      requires Valid() && readerIndex + len <= storage.Length
      modifies this`readerIndex, this`writeIndex
      ensures Valid() && View() == BufferSpec.Retrieve(old(View()), len)
      ensures result == old(storage[readerIndex..readerIndex + len])
      ensures len <= old(ReadableBytes()) ==> result == old(View()).Readable()[..len]
    {
      result := storage[readerIndex..readerIndex + len];
      Retrieve(len);
    }

    method RetrieveAllAsString() returns (result: seq<byte>)
      requires Valid()
      modifies this`readerIndex, this`writeIndex
      ensures Valid() && result == old(View()).Readable() && View() == BufferSpec.RetrieveAll(old(View()))
    {
      result := RetrieveAsString(ReadableBytes());
    }

    /** std::vector::resize to a larger size. */
    method Grow(size: nat)
      requires Valid() && storage.Length <= size
      modifies this`storage
      ensures Valid() && fresh(storage)
      ensures storage[..] == old(storage[..]) + Zeros(size - old(storage.Length))
    {
      var grown := new byte[size](_ => 0);
      forall i | 0 <= i < storage.Length {
        grown[i] := storage[i];
      }
      storage := grown;
      assert storage[..] == old(storage[..]) + Zeros(size - old(storage.Length));
    }

    /** The vector when `i` of the readable bytes have been moved down to the front. */
    static ghost function Slid(was: seq<byte>, reader: nat, i: nat): (r: seq<byte>)
      requires CHEAP_PREPEND <= reader && reader + i <= |was|
      ensures |r| == |was|
    {
      was[..CHEAP_PREPEND] + was[reader..reader + i] + was[CHEAP_PREPEND + i..]
    }

    static lemma SlideStep(was: seq<byte>, reader: nat, i: nat)
      requires CHEAP_PREPEND <= reader && reader + i < |was|
      ensures Slid(was, reader, i)[reader + i] == was[reader + i]
      ensures Slid(was, reader, i + 1) == Slid(was, reader, i)[CHEAP_PREPEND + i := was[reader + i]]
    {
      assert was[reader..reader + (i + 1)] == was[reader..reader + i] + [was[reader + i]];
    }

    /** The forward std::copy that moves the readable bytes down over themselves. */
    method SlideDown()
      requires Valid()
      modifies storage
      ensures storage[..] == Slid(old(storage[..]), readerIndex, writeIndex - readerIndex)
    {
      ghost var was := storage[..];
      var n := writeIndex - readerIndex;
      var i := 0;
      assert storage[..] == Slid(was, readerIndex, 0);
      while i < n
        invariant 0 <= i <= n
        invariant storage[..] == Slid(was, readerIndex, i)
      {
        SlideStep(was, readerIndex, i);
        var moved := storage[readerIndex + i];
        assert moved == storage[..][readerIndex + i];
        storage[CHEAP_PREPEND + i] := moved;
        i := i + 1;
      }
    }

    method MakeSpace(len: nat)
      requires Valid()
      modifies this, storage
      ensures Valid() && (storage == old(storage) || fresh(storage))
      ensures View() == BufferSpec.MakeSpace(old(View()), len)
    {
      if WritableBytes() + readerIndex < len + CHEAP_PREPEND {
        Grow(len + writeIndex);
      } else {
        var readable := ReadableBytes();
        SlideDown();
        readerIndex := CHEAP_PREPEND;
        writeIndex := CHEAP_PREPEND + readable;
      }
    }

    method EnsureWritableBytes(len: nat)
      requires Valid()
      modifies this, storage
      ensures Valid() && (storage == old(storage) || fresh(storage))
      ensures View() == EnsureWritable(old(View()), len)
    {
      if WritableBytes() < len {
        MakeSpace(len);
      }
    }

    /** Stores `data` from index `at` on, one byte after the other. */
    method Store(at: nat, data: seq<byte>)
      requires at + |data| <= storage.Length
      modifies storage
      ensures storage[..] == old(storage[..at]) + data + old(storage[at + |data|..])
    {
      for i := 0 to |data|
        invariant forall k | 0 <= k < i :: storage[at + k] == data[k]
        invariant forall k | 0 <= k < at || at + i <= k < storage.Length :: storage[k] == old(storage[k])
      {
        storage[at + i] := data[i];
      }
    }

    method Append(data: seq<byte>)
      requires Valid()
      modifies this, storage
      ensures Valid() && (storage == old(storage) || fresh(storage))
      ensures View() == BufferSpec.Append(old(View()), data)
      ensures View().Readable() == old(View()).Readable() + data
    {
      EnsureWritableRoom(View(), |data|);
      AppendReadable(View(), data);
      EnsureWritableBytes(|data|);
      Store(writeIndex, data);
      writeIndex := writeIndex + |data|;
    }

    /** The first readv segment: bytes land behind writeIndex_, which then moves over them. */
    method Take(bytes: seq<byte>)
      requires Valid() && |bytes| <= WritableBytes()
      modifies this`writeIndex, storage
      ensures Valid() && View() == Fill(old(View()), bytes)
    {
      Store(writeIndex, bytes);
      writeIndex := writeIndex + |bytes|;
    }

    /** `got` is what readv scattered over the two segments, or its error. */
    method ReadFd(got: Outcome<seq<byte>>) returns (n: int, errno: int)
      requires Valid() && (got.Done? ==> |got.value| <= ReadCapacity(View()))
      modifies this, storage
      ensures Valid() && (storage == old(storage) || fresh(storage))
      ensures got.Done? ==> n == |got.value| && View() == BufferSpec.ReadFd(old(View()), got.value)
      ensures got.Failed? ==> n == -1 && errno == got.errno && View() == old(View())
    {
      hide BufferSpec.Append, Fill;
      n, errno := -1, 0;
      match got
      case Failed(e) => errno := e;
      case Done(bytes) =>
        n := |bytes|;
        var writable := WritableBytes();
        if n <= writable {
          Take(bytes);
        } else {
          Take(bytes[..writable]);
          Append(bytes[writable..]);
        }
    }

    /** The kernel takes a prefix of what is offered; the buffer itself is left alone. */
    method WriteFd(form: Extent, taken: Outcome<nat>) returns (n: int, errno: int, sent: seq<byte>)
      requires Valid() && (taken.Done? ==> taken.value <= |Offered(form, View())|)
      ensures taken.Done? ==> n == taken.value && sent == Offered(form, View())[..n]
      ensures taken.Failed? ==> n == -1 && errno == taken.errno && sent == []
    {
      n, errno, sent := -1, 0, [];
      match taken
      case Failed(e) => errno := e;
      case Done(count) =>
        n := count;
        sent := storage[readerIndex..readerIndex + count];
    }
  }
}
