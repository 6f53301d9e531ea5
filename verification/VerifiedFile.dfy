/** Copying a file while hashing it: nested loops over reads and writes that may each move fewer bytes than asked,
    from a file that may change between reads. */
module VerifiedFiles {
  import opened Types

  newtype Byte = x: int | 0 <= x < 256

  const CHUNK_BYTES := 64 * 1024

  datatype VerifiedFile = VerifiedFile(byteSize: int, sha256: Digest)

  /** What the path checks and fstat reported. */
  datatype Stat = Missing | Stat(isFile: bool, size: int)

  /** An open file. `stable` is its content when nobody writes to it and reading it does not fail. */
  class Source {
    const stable: Option<seq<Byte>>

    constructor (content: Option<seq<Byte>>)
      ensures stable == content
    {
      stable := content;
    }

    /** Reads between none and all of the bytes asked for; of a stable file none only at its end. */
    method Read(buffer: array<Byte>, offset: nat, length: nat, position: nat) returns (count: Option<nat>)
      requires offset + length <= buffer.Length
      modifies buffer
      ensures count.Some? ==> count.value <= length
      ensures forall i :: 0 <= i < buffer.Length && !(offset <= i < offset + length) ==> buffer[i] == old(buffer[i])
      ensures stable.Some? ==> count.Some? && position + count.value <= MaxEnd(position)
      ensures stable.Some? ==> (count.value == 0 <==> length == 0 || position >= |stable.value|)
      ensures stable.Some? && position <= |stable.value| ==>
        buffer[offset..offset + count.value] == stable.value[position..position + count.value]
    {
      if stable.None? {
        var fails: bool := *;
        if fails {
          return None;
        }
        var n: nat :| n <= length;
        var i := 0;
        while i < n
          invariant 0 <= i <= n
          invariant forall j :: 0 <= j < buffer.Length && !(offset <= j < offset + length) ==> buffer[j] == old(buffer[j])
        {
          var b: Byte := *;
          buffer[offset + i] := b;
          i := i + 1;
        }
        return Some(n);
      }
      var content := stable.value;
      if length == 0 || position >= |content| {
        return Some(0);
      }
      var n: nat :| 1 <= n <= length && position + n <= |content|;
      var i := 0;
      while i < n
        invariant 0 <= i <= n
        invariant forall j :: 0 <= j < buffer.Length && !(offset <= j < offset + length) ==> buffer[j] == old(buffer[j])
        invariant buffer[offset..offset + i] == content[position..position + i]
      {
        buffer[offset + i] := content[position + i];
        i := i + 1;
      }
      return Some(n);
    }

    ghost function MaxEnd(position: nat): nat
      requires stable.Some?
    {
      if position > |stable.value| then position else |stable.value|
    }
  }

  /** The file after a write at a position; bytes skipped over read as zero. */
  function Patch(bytes: seq<Byte>, position: nat, data: seq<Byte>): seq<Byte> {
    var padded := if position > |bytes| then bytes + seq(position - |bytes|, i => 0 as Byte) else bytes;
    padded[..position] + data + (if position + |data| < |padded| then padded[position + |data|..] else [])
  }

  /** A private file; `healthy` when every write of at least one byte succeeds with at least one byte. */
  class Spool {
    const healthy: bool
    var bytes: seq<Byte>

    constructor (works: bool)
      ensures bytes == [] && healthy == works
    {
      healthy, bytes := works, [];
    }

    method Write(buffer: array<Byte>, offset: nat, length: nat, position: nat) returns (count: Option<nat>)
      requires offset + length <= buffer.Length
      modifies this`bytes
      ensures count.Some? ==>
        count.value <= length && bytes == Patch(old(bytes), position, buffer[offset..offset + count.value])
      ensures count.None? ==> bytes == old(bytes)
      ensures healthy ==> count.Some? && (length > 0 ==> count.value > 0)
    {
      var fails: bool := *;
      if fails && !healthy {
        return None;
      }
      var n: nat :| n <= length && (healthy && length > 0 ==> n > 0);
      bytes := Patch(bytes, position, buffer[offset..offset + n]);
      return Some(n);
    }
  }

  lemma PatchAppends(bytes: seq<Byte>, data: seq<Byte>)
    ensures Patch(bytes, |bytes|, data) == bytes + data
  {
  }

  /** Writes the first `length` bytes of the chunk at the end of the spool. */
  method WriteChunk(spool: Spool, chunk: array<Byte>, length: nat) returns (ok: bool)
    requires length <= chunk.Length
    modifies spool`bytes
    ensures ok ==> spool.bytes == old(spool.bytes) + chunk[..length]
    ensures spool.healthy ==> ok
  {
    var position, written := |spool.bytes|, 0;
    while written < length
      invariant 0 <= written <= length
      invariant spool.bytes == old(spool.bytes) + chunk[..written] && position == |old(spool.bytes)|
      decreases length - written
    {
      ghost var before := spool.bytes;
      var count := spool.Write(chunk, written, length - written, position + written);
      if count.None? || count.value == 0 {
        return false;
      }
      PatchAppends(before, chunk[written..written + count.value]);
      assert chunk[..written] + chunk[written..written + count.value] == chunk[..written + count.value];
      written := written + count.value;
    }
    return true;
  }

  /** openVerifiedFile: the spool, once handed out, holds exactly what was hashed. A stable file of the recorded size
      and digest is always handed out whole, if the spool can be written. */
  method OpenVerifiedFile(input: VerifiedFile, sha256: seq<Byte> -> Digest, stat: Stat, source: Source, spoolWorks: bool)
    returns (result: Option<Spool>)
    ensures result.Some? ==>
      fresh(result.value) && |result.value.bytes| == input.byteSize && sha256(result.value.bytes) == input.sha256
    ensures result.Some? ==> stat == Stat(true, input.byteSize)
    ensures result.Some? && source.stable.Some? ==> result.value.bytes == source.stable.value
    ensures source.stable.Some? && spoolWorks ==>
      (result.Some? <==>
       stat == Stat(true, input.byteSize) && input.byteSize == |source.stable.value| && sha256(source.stable.value) == input.sha256)
  {
    if input.byteSize < 0 || stat.Missing? || !stat.isFile || stat.size != input.byteSize {
      return None;
    }
    var spool := new Spool(spoolWorks);
    var digest: seq<Byte> := [];
    var chunk := new Byte[CHUNK_BYTES](i => 0);
    var position := 0;
    while position < input.byteSize
      invariant 0 <= position <= input.byteSize && |spool.bytes| == position && digest == spool.bytes
      invariant source.stable.Some? ==> position <= |source.stable.value| && spool.bytes == source.stable.value[..position]
      decreases input.byteSize - position
    {
      var requested := if CHUNK_BYTES < input.byteSize - position then CHUNK_BYTES else input.byteSize - position;
      var count := source.Read(chunk, 0, requested, position);
      if count.None? || count.value == 0 {
        return None;
      }
      digest := digest + chunk[..count.value];
      var ok := WriteChunk(spool, chunk, count.value);
      if !ok {
        return None;
      }
      assert source.stable.Some? ==> chunk[..count.value] == chunk[0..0 + count.value];
      position := position + count.value;
    }
    var eof := new Byte[1](i => 0);
    var more := source.Read(eof, 0, 1, position);
    if more != Some(0) {
      return None;
    }
    assert source.stable.Some? ==> |source.stable.value| == position && digest == source.stable.value by {
      assert source.stable.Some? ==> source.stable.value[..|source.stable.value|] == source.stable.value;
    }
    if sha256(digest) != input.sha256 {
      return None;
    }
    return Some(spool);
  }

  /** readVerifiedFile: what is returned has the recorded size and digest, whatever the file did meanwhile. */
  method ReadVerifiedFile(input: VerifiedFile, sha256: seq<Byte> -> Digest, stat: Stat, source: Source)
    returns (result: Option<seq<Byte>>)
    ensures result.Some? ==> |result.value| == input.byteSize && sha256(result.value) == input.sha256
    ensures result.Some? ==> stat == Stat(true, input.byteSize)
    ensures source.stable.Some? ==>
      (result.Some? <==>
       input.byteSize >= 0 && stat == Stat(true, input.byteSize) && input.byteSize <= |source.stable.value|
       && sha256(source.stable.value[..input.byteSize]) == input.sha256)
  {
    if input.byteSize < 0 || stat.Missing? || !stat.isFile || stat.size != input.byteSize {
      return None;
    }
    var bytes := new Byte[input.byteSize](i => 0);
    var offset := 0;
    while offset < bytes.Length
      invariant 0 <= offset <= bytes.Length
      invariant source.stable.Some? ==> offset <= |source.stable.value| && bytes[..offset] == source.stable.value[..offset]
      decreases bytes.Length - offset
    {
      ghost var before := bytes[..offset];
      var count := source.Read(bytes, offset, bytes.Length - offset, offset);
      assert bytes[..offset] == before;
      if count.None? {
        return None;
      }
      if count.value == 0 {
        break;
      }
      assert bytes[..offset + count.value] == before + bytes[offset..offset + count.value];
      assert source.stable.Some? ==>
          bytes[..offset + count.value] == source.stable.value[..offset] + source.stable.value[offset..offset + count.value];
      offset := offset + count.value;
    }
    if offset != input.byteSize {
      return None;
    }
    assert bytes[..offset] == bytes[..];
    if sha256(bytes[..]) != input.sha256 {
      return None;
    }
    return Some(bytes[..]);
  }
}
