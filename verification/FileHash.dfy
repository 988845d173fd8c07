/** The read-and-hash loop that both ends run over a whole file. */
module FileHash {
  import opened Common
  import opened Files
  import Hasher
  import Sha256

  /** hash_file of src/transfer/sender.cpp and the loop in on_fin: one buffer at a time, for
      any size. The digest is that of the bytes read, so the buffer size does not show. */
  method HashPrefix(content: seq<byte>, size: nat, faults: set<nat>) returns (ok: bool, digest: seq<byte>)
    ensures ok <==> ReadsComplete(content, size, faults)
    ensures ok ==> digest == Sha256.Hash(content[..size])
  {
    hide Sha256.Hash, Sha256.Blocks;
    digest := [];
    var hasher := new Hasher.StreamingHasher();
    var offset := 0;
    while offset < size
      invariant offset <= size && offset <= |content|
      invariant offset < size ==> offset % READ_BUFFER == 0
      invariant hasher.Valid() && fresh(hasher) && fresh(hasher.state) && fresh(hasher.buffer)
      invariant hasher.message == content[..offset]
      invariant forall o <- faults :: !(o < offset && o % READ_BUFFER == 0)
    {
      var remaining := size - offset;
      var want := if remaining < READ_BUFFER then remaining else READ_BUFFER;
      if offset in faults || offset + want > |content| {
        return false, [];
      }
      hasher.Update(content[offset..offset + want]);
      NoMultipleBetween(offset, want);
      assert content[..offset] + content[offset..offset + want] == content[..offset + want];
      offset := offset + want;
    }
    ok := true;
    digest := hasher.Finish();
  }

  lemma NoMultipleBetween(offset: nat, want: nat)
    requires offset % READ_BUFFER == 0 && want <= READ_BUFFER
    ensures forall o: nat :: offset < o < offset + want ==> o % READ_BUFFER != 0
    ensures want == READ_BUFFER ==> (offset + want) % READ_BUFFER == 0
  {
  }
}
