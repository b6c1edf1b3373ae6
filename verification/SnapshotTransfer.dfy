/** Moving a snapshot between stores in chunks. */
module SnapshotTransfer {
  import opened Types

  /** Which snapshot: its term and index. */
  datatype Meta = Meta(term: Term, index: Offset)

  datatype Chunk = Chunk(data: bytes, position: nat, done: bool)

  datatype ReadResult = Read(chunk: Chunk) | Missing

  /** The chunk of some contents that begins at a position. */
  function ChunkAt(contents: bytes, size: nat, position: nat): Chunk {
    if position >= |contents| then Chunk([], position, true)
    else
      var n := Min(|contents| - position, size);
      Chunk(contents[position..position + n], position, position + n >= |contents|)
  }

  /** A write puts its bytes at the position, keeps all others, and fills a gap with zeros. */
  lemma {:induction false} WritesExactly(file: bytes, position: nat, data: bytes, i: nat)
    ensures var now := Overwrite(file, position, data);
      && |now| == Max(|file|, position + |data|)
      && (i < |now| ==>
            now[i] == if position <= i < position + |data| then data[i - position] else if i < |file| then file[i] else 0)
  {
  }

  class SnapshotStore {
    const chunkSize: nat
    var files: map<Meta, bytes>
    var complete: set<Meta>

    constructor (chunkSize: nat, files: map<Meta, bytes>, complete: set<Meta>)
      ensures this.chunkSize == chunkSize && this.files == files && this.complete == complete
    {
      this.chunkSize, this.files, this.complete := chunkSize, files, complete;
    }

    method ReadChunk(meta: Meta, position: nat) returns (r: ReadResult)
      ensures r == if meta in files then Read(ChunkAt(files[meta], chunkSize, position)) else Missing
    {
      if meta !in files { return Missing; }
      var fileLen := |files[meta]|;
      if position >= fileLen { return Read(Chunk([], position, true)); }
      var remaining := fileLen - position;
      var toRead := Min(remaining, chunkSize);
      var buf := files[meta][position..position + toRead];
      var nextPosition := position + toRead;
      r := Read(Chunk(buf, position, nextPosition >= fileLen));
    }

    /** Position 0 starts the file afresh; any other needs the file to be there. */
    method WriteChunk(meta: Meta, chunk: Chunk) returns (ok: bool)
      modifies this
      ensures ok <==> chunk.position == 0 || meta in old(files)
      ensures !ok ==> unchanged(this)
      ensures ok ==>
        && files == old(files)[meta := Overwrite(if chunk.position == 0 then [] else old(files)[meta], chunk.position, chunk.data)]
        && complete == if chunk.done then old(complete) + {meta} else old(complete)
    {
      var file: bytes;
      if chunk.position == 0 {
        file := [];
      } else {
        if meta !in files { return false; }
        file := files[meta];
      }
      files := files[meta := Overwrite(file, chunk.position, chunk.data)];
      if chunk.done { complete := complete + {meta}; }
      ok := true;
    }
  }

  /** Writing the next chunk of some contents after what precedes it. */
  lemma {:induction false} NextChunk(contents: bytes, size: nat, position: nat)
    requires position <= |contents|
    ensures var c := ChunkAt(contents, size, position);
      && Overwrite(contents[..position], position, c.data) == contents[..position + |c.data|]
      && (c.done ==> position + |c.data| == |contents|)
      && (size > 0 && !c.done ==> |c.data| > 0 && position + |c.data| < |contents|)
  {
  }

  /** A first chunk replaces whatever the receiver had. */
  lemma {:induction false} FirstChunk(contents: bytes, size: nat)
    ensures Overwrite([], 0, ChunkAt(contents, size, 0).data) == contents[..|ChunkAt(contents, size, 0).data|]
  {
  }

  /**
   Chunk by chunk from position 0 until done, the receiver ends with the
   sender's bytes exactly, whatever it had before and however small the chunks.
   */
  method Transfer(sender: SnapshotStore, receiver: SnapshotStore, meta: Meta) returns (ok: bool)
    requires sender != receiver && sender.chunkSize > 0
    modifies receiver
    ensures ok <==> meta in sender.files
    ensures !ok ==> unchanged(receiver)
    ensures ok ==> receiver.files == old(receiver.files)[meta := sender.files[meta]]
    ensures ok ==> receiver.complete == old(receiver.complete) + {meta}
  {
    if meta !in sender.files { return false; }
    ghost var contents := sender.files[meta];
    var position, done := 0, false;
    while !done
      invariant position <= |contents| && sender.files == old(sender.files)
      invariant !done && position == 0 ==> unchanged(receiver)
      invariant done || position > 0 ==> receiver.files == old(receiver.files)[meta := contents[..position]]
      invariant receiver.complete == if done then old(receiver.complete) + {meta} else old(receiver.complete)
      invariant done ==> position == |contents|
      decreases |contents| - position, if done then 0 else 1
    {
      var r := sender.ReadChunk(meta, position);
      NextChunk(contents, sender.chunkSize, position);
      FirstChunk(contents, sender.chunkSize);
      var wrote := receiver.WriteChunk(meta, r.chunk);
      position := position + |r.chunk.data|;
      done := r.chunk.done;
    }
    assert contents[..position] == contents;
    ok := true;
  }
}
