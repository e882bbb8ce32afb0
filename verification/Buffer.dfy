/** The growable byte buffer of a connection, over one array and two indexes. */
module Buffers {

  newtype byte = x: int | 0 <= x < 256

  const CHEAP_PREPEND: nat := 8
  const INITIAL_SIZE: nat := 1024
  /** The stack buffer that `readFd` offers to the kernel as a second segment. */
  const EXTRA_SIZE: nat := 65536

  function Max(a: nat, b: nat): nat { if a < b then b else a }
  function Min(a: nat, b: nat): nat { if a < b then a else b }

  /** What one `readv` delivers: bytes (none at end of stream) or an error. */
  datatype ReadResult = Got(data: seq<byte>) | Failed

  lemma Rejoin(head: seq<byte>, data: seq<byte>, n: nat)
    requires n <= |data|
    ensures head + data[..n] + data[n..] == head + data
  {
    assert data[..n] + data[n..] == data;
  }

  class Buffer {
    var storage: array<byte>
    var readerIndex: nat
    var writerIndex: nat
    ghost var initialSize: nat
    /** The largest number of readable bytes this buffer has held or was asked to have room for. */
    ghost var peak: nat

    ghost predicate Valid()
      reads this, storage
    {
      && CHEAP_PREPEND <= readerIndex <= writerIndex <= storage.Length
      && writerIndex - readerIndex <= peak
      && storage.Length <= Max(CHEAP_PREPEND + initialSize, 2 * peak + CHEAP_PREPEND)
    }

    ghost function Contents(): seq<byte>
      requires Valid()
      reads this, storage
    {
      storage[readerIndex..writerIndex]
    }

    constructor (size: nat)
      ensures Valid() && fresh(storage)
      ensures Contents() == [] && initialSize == size && peak == 0
      ensures storage.Length == CHEAP_PREPEND + size
    {
      storage := new byte[CHEAP_PREPEND + size];
      readerIndex, writerIndex := CHEAP_PREPEND, CHEAP_PREPEND;
      initialSize, peak := size, 0;
    }

    function ReadableBytes(): (n: nat)
      requires Valid()
      reads this, storage
      ensures n == |Contents()|
    {
      writerIndex - readerIndex
    }

    function WritableBytes(): nat
      requires Valid()
      reads this, storage
    {
      storage.Length - writerIndex
    }

    /** The first `n` readable bytes. */
    function Peek(n: nat): (bytes: seq<byte>)
      requires Valid() && n <= ReadableBytes()
      reads this, storage
      ensures bytes == Contents()[..n]
    {
      storage[readerIndex..readerIndex + n]
    }

    method Retrieve(len: nat)
      requires Valid()
      modifies this`readerIndex, this`writerIndex
      ensures Valid()
      ensures Contents() == old(Contents())[Min(len, |old(Contents())|)..]
      ensures Contents() == [] ==> readerIndex == CHEAP_PREPEND
    {
      if len < ReadableBytes() {
        readerIndex := readerIndex + len;
      } else {
        RetrieveAll();
      }
    }

    method RetrieveAll()
      requires Valid()
      modifies this`readerIndex, this`writerIndex
      ensures Valid() && Contents() == []
      ensures readerIndex == writerIndex == CHEAP_PREPEND
    {
      readerIndex, writerIndex := CHEAP_PREPEND, CHEAP_PREPEND;
    }

    method RetrieveAsString(len: nat) returns (result: seq<byte>)
      requires Valid()
      modifies this`readerIndex, this`writerIndex
      ensures Valid()
      ensures result + Contents() == old(Contents())
      ensures |result| == Min(len, |old(Contents())|)
    {
      var n := Min(len, ReadableBytes());
      result := Peek(n);
      Retrieve(n);
    }

    method RetrieveAllAsString() returns (result: seq<byte>)
      requires Valid()
      modifies this`readerIndex, this`writerIndex
      ensures Valid() && Contents() == []
      ensures result == old(Contents())
    {
      result := RetrieveAsString(ReadableBytes());
    }

    /** Adds at the tail. `storage` is replaced only when the vector had to grow. */
    method Append(data: seq<byte>)
      requires Valid()
      modifies this, storage
      ensures Valid() && (storage == old(storage) || fresh(storage))
      ensures Contents() == old(Contents()) + data
      ensures initialSize == old(initialSize) && peak == Max(old(peak), |Contents()|)
      ensures old(storage.Length) <= storage.Length <= Max(CHEAP_PREPEND + initialSize, 2 * peak + CHEAP_PREPEND)
    {
      EnsureWritableBytes(|data|);
      Fill(data);
    }

    /** Copies into the writable area and advances `writerIndex_` over it. */
    method Fill(data: seq<byte>)
      requires Valid() && |data| <= WritableBytes()
      modifies this`writerIndex, this`peak, storage
      ensures Valid() && Contents() == old(Contents()) + data
      ensures peak == Max(old(peak), |Contents()|)
    {
      peak := Max(peak, ReadableBytes() + |data|);
      CopyIn(data);
      writerIndex := writerIndex + |data|;
    }

    /** `std::copy` of `data` to the write position; the index is not advanced. */
    method CopyIn(data: seq<byte>)
      requires Valid() && |data| <= WritableBytes()
      modifies storage
      ensures Valid() && Contents() == old(Contents())
      ensures storage[writerIndex..writerIndex + |data|] == data
    {
      for i := 0 to |data|
        invariant storage[..writerIndex] == old(storage[..writerIndex])
        invariant storage[writerIndex..writerIndex + i] == data[..i]
      {
        storage[writerIndex + i] := data[i];
      }
      assert Contents() == storage[..writerIndex][readerIndex..];
    }

    /** What is asked for counts towards `peak`, whether or not it is then written. */
    method EnsureWritableBytes(len: nat)
      requires Valid()
      modifies this`storage, this`readerIndex, this`writerIndex, this`peak, storage
      ensures Valid() && (storage == old(storage) || fresh(storage))
      ensures Contents() == old(Contents()) && len <= WritableBytes()
      ensures peak == Max(old(peak), old(ReadableBytes()) + len)
      ensures old(WritableBytes()) >= len ==> storage == old(storage) && readerIndex == old(readerIndex)
      ensures storage != old(storage) ==> storage.Length > old(storage.Length)
    {
      if WritableBytes() < len {
        MakeSpace(len);
      } else {
        peak := Max(peak, ReadableBytes() + len);
      }
    }

    /** Grows strictly, or slides the readable bytes strictly to the left. */
    method MakeSpace(len: nat)
      requires Valid() && WritableBytes() < len
      modifies this`storage, this`readerIndex, this`writerIndex, this`peak, storage
      ensures Valid() && (storage == old(storage) || fresh(storage))
      ensures Contents() == old(Contents()) && len <= WritableBytes()
      ensures peak == Max(old(peak), old(ReadableBytes()) + len)
      ensures storage != old(storage) ==>
                old(storage.Length) < storage.Length == writerIndex + len && readerIndex == old(readerIndex)
      ensures storage == old(storage) ==> CHEAP_PREPEND == readerIndex < old(readerIndex)
      ensures storage == old(storage) <==> old(WritableBytes()) + old(readerIndex) >= len + CHEAP_PREPEND
    {
      if WritableBytes() + readerIndex < len + CHEAP_PREPEND {
        Grow(len);
      } else {
        peak := Max(peak, ReadableBytes() + len);
        var readable := ReadableBytes();
        SlideLeft(readable);
        readerIndex := CHEAP_PREPEND;
        writerIndex := readerIndex + readable;
      }
    }

    /** Sliding would not make enough room: resizes to exactly what is needed. */
    method Grow(len: nat)
      requires Valid() && WritableBytes() + readerIndex < len + CHEAP_PREPEND
      modifies this`storage, this`peak
      ensures Valid() && fresh(storage) && Contents() == old(Contents())
      ensures old(storage.Length) < storage.Length == writerIndex + len && storage != old(storage)
      ensures peak == Max(old(peak), old(ReadableBytes()) + len)
    {
      peak := Max(peak, ReadableBytes() + len);
      Resize(writerIndex + len);
    }

    /** `vector::resize` to a larger size: the old bytes are kept. */
    method Resize(size: nat)
      requires storage.Length < size
      modifies this`storage
      ensures fresh(storage) && storage.Length == size
      ensures forall i :: 0 <= i < old(storage.Length) ==> storage[i] == old(storage[i])
    {
      var previous := storage;
      var grown := new byte[size](_ => 0);
      for i := 0 to previous.Length
        invariant storage == previous && forall k :: 0 <= k < i ==> grown[k] == previous[k]
      {
        grown[i] := previous[i];
      }
      storage := grown;
    }

    /** The forward element-by-element copy is right because it moves strictly left. */
    method SlideLeft(readable: nat)
      requires CHEAP_PREPEND < readerIndex && readerIndex + readable <= storage.Length
      modifies storage
      ensures storage[CHEAP_PREPEND..CHEAP_PREPEND + readable] ==
              old(storage[readerIndex..readerIndex + readable])
    {
      for i := 0 to readable
        invariant storage[CHEAP_PREPEND..CHEAP_PREPEND + i] == old(storage[readerIndex..readerIndex + i])
        invariant storage[readerIndex + i..] == old(storage[readerIndex + i..])
      {
        assert storage[readerIndex + i] == storage[readerIndex + i..][0];
        storage[CHEAP_PREPEND + i] := storage[readerIndex + i];
        assert storage[CHEAP_PREPEND..CHEAP_PREPEND + i + 1] ==
               storage[CHEAP_PREPEND..CHEAP_PREPEND + i] + [storage[CHEAP_PREPEND + i]];
        assert storage[readerIndex + i + 1..] == old(storage[readerIndex + i..])[1..];
      }
    }

    /** How many bytes `readFd` offers room for: one or two segments. */
    function ReadCapacity(): nat
      requires Valid()
      reads this, storage
    {
      WritableBytes() + if WritableBytes() < EXTRA_SIZE then EXTRA_SIZE else 0
    }

    /** Two-segment read: the bytes beyond the writable area come through the extra buffer. */
    method ReadFd(r: ReadResult) returns (n: int)
      requires Valid()
      requires r.Got? ==> |r.data| <= ReadCapacity()
      modifies this, storage
      ensures Valid() && (storage == old(storage) || fresh(storage))
      ensures Contents() == old(Contents()) + (if r.Got? then r.data else [])
      ensures n == (if r.Got? then |r.data| else -1)
      ensures initialSize == old(initialSize) && peak == Max(old(peak), |Contents()|)
      ensures storage.Length <= Max(CHEAP_PREPEND + initialSize, 2 * peak + CHEAP_PREPEND)
    {
      match r
      case Failed =>
        n := -1;
        assert Contents() == old(Contents()) + [];
      case Got(data) =>
        n := |data|;
        var writable := WritableBytes();
        if n <= writable {
          Fill(data);
        } else {
          Fill(data[..writable]);
          Append(data[writable..]);
          Rejoin(old(Contents()), data, writable);
        }
    }
  }
}
