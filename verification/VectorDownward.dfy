/**
 `vector_downward`: one growable allocation holding two byte sequences, the
 serialized data growing from high to low addresses and a scratch pad growing
 from low to high.  The class keeps the source's pointers as indices into the
 allocation; `Data()` and `Scratch()` are the two sequences it stands for.
 */
module VectorDownwards {
  import opened Bits
  import opened Seqs

  const SIZE_LIMIT: nat := 0x1_0000_0000   // SizeT is a 32-bit unsigned type

  /** The new capacity has room for `len` more bytes and does not overflow a 64-bit word. */
  lemma NewReserved(reserved: nat, len: nat, initialSize: nat, minAlign: nat)
    requires IsPow2(minAlign) && initialSize + minAlign < WORD / 4
    requires len < SIZE_LIMIT && reserved < 3 * SIZE_LIMIT
    ensures 1 <= minAlign < WORD
    ensures
      var grown := reserved + Max(len, if reserved != 0 then reserved / 2 else initialSize);
      reserved + len <= grown <= RoundUp(grown, minAlign) && RoundUp(grown, minAlign) % minAlign == 0
  {
    hide IsPow2, RoundUp;
    var grown := reserved + Max(len, if reserved != 0 then reserved / 2 else initialSize);
    RoundUpAligns(grown, minAlign);
  }

  /** `Allocator::reallocate_downward`: both used ends are copied to the ends of a larger block. */
  method ReallocateDownward(old_p: array<byte>, new_size: nat, in_use_back: nat, in_use_front: nat)
    returns (new_p: array<byte>)
    requires old_p.Length < new_size && in_use_back + in_use_front <= old_p.Length
    ensures fresh(new_p) && new_p.Length == new_size
    ensures new_p[new_size - in_use_back..] == old_p[old_p.Length - in_use_back..]
    ensures new_p[..in_use_front] == old_p[..in_use_front]
  {
    new_p := new byte[new_size](_ => 0);
    var shift := new_size - old_p.Length;
    forall i | old_p.Length - in_use_back <= i < old_p.Length {
      new_p[i + shift] := old_p[i];
    }
    forall i | 0 <= i < in_use_front {
      new_p[i] := old_p[i];
    }
  }

  /** `memcpy` to a position of a block. */
  method CopyInto(block: array<byte>, at: nat, bytes: seq<byte>)
    requires at + |bytes| <= block.Length
    modifies block
    ensures block[..at] == old(block[..at])
    ensures block[at..at + |bytes|] == bytes
    ensures block[at + |bytes|..] == old(block[at + |bytes|..])
  {
    forall i | 0 <= i < |bytes| {
      block[at + i] := bytes[i];
    }
  }

  class VectorDownward {
    const initialSize: nat
    const maxSize: nat
    const minAlign: nat

    var buf: array?<byte>
    var reserved: nat
    var size: nat
    var cur: nat       // between the free space (below) and the data (above)
    var scratch: nat   // end of the scratch pad

    ghost predicate Valid()
      reads this
    {
      && IsPow2(minAlign) && initialSize + minAlign < WORD / 4
      && size < SIZE_LIMIT && scratch < SIZE_LIMIT
      && (if buf == null then reserved == 0 && size == 0 && cur == 0 && scratch == 0
          else buf.Length == reserved && scratch <= cur && cur + size == reserved)
    }

    function Data(): (s: seq<byte>)
      requires Valid()
      reads this, buf
      ensures |s| == size
    {
      if buf == null then [] else buf[cur..]
    }

    function Scratch(): (s: seq<byte>)
      requires Valid()
      reads this, buf
      ensures |s| == scratch
    {
      if buf == null then [] else buf[..scratch]
    }

    constructor (initialSize: nat, maxSize: nat, minAlign: nat)
      requires IsPow2(minAlign) && initialSize + minAlign < WORD / 4
      ensures Valid() && Data() == [] && Scratch() == [] && buf == null
      ensures this.maxSize == maxSize
    {
      this.initialSize, this.maxSize, this.minAlign := initialSize, maxSize, minAlign;
      buf, reserved, size, cur, scratch := null, 0, 0, 0, 0;
    }

    /** What no operation changes, and which memory it may touch. */
    twostate predicate Framed()
      reads this, buf
    {
      buf == old(buf) || fresh(buf)
    }

    /** Growth by at least `len` bytes: neither sequence changes. */
    method Reallocate(len: nat)
      requires Valid() && len < SIZE_LIMIT && cur - scratch < len
      modifies this
      ensures Valid() && fresh(buf)
      ensures Data() == old(Data()) && Scratch() == old(Scratch())
      ensures cur - scratch >= len
      ensures reserved % minAlign == 0
    {
      hide IsPow2, RoundUp;
      var old_reserved, old_size, old_scratch_size := reserved, size, scratch;
      NewReserved(old_reserved, len, initialSize, minAlign);
      var grown := old_reserved + Max(len, if old_reserved != 0 then old_reserved / 2 else initialSize);
      var new_reserved := RoundUp(grown, minAlign);
      var block;
      if buf != null {
        block := ReallocateDownward(buf, new_reserved, old_size, old_scratch_size);
      } else {
        block := new byte[new_reserved](_ => 0);
      }
      assert block[new_reserved - old_size..] == old(Data()) && block[..old_scratch_size] == old(Scratch());
      reserved, buf, cur, scratch := new_reserved, block, new_reserved - old_size, old_scratch_size;
    }

    method EnsureSpace(len: nat)
      requires Valid() && len < SIZE_LIMIT && size < maxSize
      modifies this
      ensures Valid() && Framed()
      ensures Data() == old(Data()) && Scratch() == old(Scratch())
      ensures cur - scratch >= len && (len > 0 ==> buf != null)
    {
      if len > cur - scratch {
        Reallocate(len);
      }
    }

    /** The bytes of the new space are whatever the memory held. */
    method MakeSpace(len: nat)
      requires Valid() && size + len < SIZE_LIMIT && (len > 0 ==> size < maxSize)
      modifies this
      ensures Valid() && Framed() && (len > 0 ==> buf != null)
      ensures size == old(size) + len
      ensures Data()[len..] == old(Data()) && Scratch() == old(Scratch())
    {
      if len > 0 {
        EnsureSpace(len);
        cur := cur - len;
        size := size + len;
      }
    }

    method Push(bytes: seq<byte>)
      requires Valid() && size + |bytes| < SIZE_LIMIT && (|bytes| > 0 ==> size < maxSize)
      modifies this, buf
      ensures Valid() && Framed()
      ensures Data() == bytes + old(Data()) && Scratch() == old(Scratch())
    {
      hide IsPow2;
      if |bytes| > 0 {
        MakeSpace(|bytes|);
        ghost var made := Data();
        WriteAt(size, bytes);
        assert Data() == made[..0] + bytes + made[|bytes|..];
      }
    }

    method Fill(zero_pad_bytes: nat)
      requires Valid() && size + zero_pad_bytes < SIZE_LIMIT && (zero_pad_bytes > 0 ==> size < maxSize)
      modifies this, buf
      ensures Valid() && Framed()
      ensures Data() == Zeros(zero_pad_bytes) + old(Data()) && Scratch() == old(Scratch())
    {
      MakeSpace(zero_pad_bytes);
      var i := 0;
      while i < zero_pad_bytes
        invariant 0 <= i <= zero_pad_bytes
        invariant Valid() && Framed() && (zero_pad_bytes > 0 ==> buf != null)
        invariant size == old(size) + zero_pad_bytes
        invariant Data()[zero_pad_bytes..] == old(Data()) && Scratch() == old(Scratch())
        invariant forall j :: 0 <= j < i ==> Data()[j] == 0
        modifies buf
      {
        buf[cur + i] := 0;
        i := i + 1;
      }
    }

    method Pop(bytes_to_remove: nat)
      requires Valid() && bytes_to_remove <= size
      modifies this`cur, this`size
      ensures Valid() && Data() == old(Data())[bytes_to_remove..] && Scratch() == old(Scratch())
    {
      cur := cur + bytes_to_remove;
      size := size - bytes_to_remove;
    }

    method ScratchPush(bytes: seq<byte>)
      requires Valid() && scratch + |bytes| < SIZE_LIMIT && size < maxSize
      modifies this, buf
      ensures Valid() && Framed()
      ensures Scratch() == old(Scratch()) + bytes && Data() == old(Data())
    {
      hide IsPow2;
      EnsureSpace(|bytes|);
      if |bytes| > 0 {
        CopyInto(buf, scratch, bytes);
        scratch := scratch + |bytes|;
      }
    }

    method ScratchPop(bytes_to_remove: nat)
      requires Valid() && bytes_to_remove <= scratch
      modifies this`scratch
      ensures Valid() && scratch == old(scratch) - bytes_to_remove
      ensures Scratch() == old(Scratch())[..scratch]
      ensures Data() == old(Data())
    {
      scratch := scratch - bytes_to_remove;
    }

    method ClearScratch()
      requires Valid()
      modifies this`scratch
      ensures Valid() && Scratch() == [] && Data() == old(Data())
    {
      scratch := 0;
    }

    /** `clear`: the allocation is kept. */
    method Clear()
      requires Valid()
      modifies this`cur, this`size, this`scratch
      ensures Valid() && Data() == [] && Scratch() == []
    {
      cur := reserved;
      size := 0;
      scratch := 0;
    }

    /** Store through `data_at(offset)`, an address counted from the end of the buffer. */
    method WriteAt(offset: nat, bytes: seq<byte>)
      requires Valid() && |bytes| <= offset <= size
      modifies buf
      ensures Valid() && Scratch() == old(Scratch())
      ensures Data() == old(Data())[..size - offset] + bytes + old(Data())[size - offset + |bytes|..]
    {
      hide IsPow2;
      if buf != null {
        ghost var c, at := buf[..], reserved - offset;
        CopyInto(buf, reserved - offset, bytes);
        ghost var c' := buf[..];
        assert c'[..at] == c[..at] && c'[at..at + |bytes|] == bytes && c'[at + |bytes|..] == c[at + |bytes|..];
        TailOfSplice(c, c', cur, at, bytes);
        assert c[cur..] == old(Data()) && c'[cur..] == Data();
        assert c'[..at][..scratch] == Scratch();
      }
    }

    /** Load through `data_at(offset)`. */
    function ReadAt(offset: nat, n: nat): (s: seq<byte>)
      requires Valid() && n <= offset <= size
      reads this, buf
      ensures s == Data()[size - offset..size - offset + n]
    {
      if buf == null then []
      else
        SliceSlice(buf[..], cur, reserved, size - offset, size - offset + n);
        assert buf[cur..] == buf[..][cur..reserved];
        assert buf[reserved - offset..reserved - offset + n] == buf[..][cur + (size - offset)..cur + (size - offset + n)];
        buf[reserved - offset..reserved - offset + n]
    }
  }
}
