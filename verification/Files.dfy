/** Files as the sessions see them: paths to byte strings, written in place by position.
    Calls can fail; which ones do is decided outside the model. */
module Files {
  import opened Common

  type Path = seq<byte>
  type FileSystem = map<Path, seq<byte>>

  const READ_BUFFER: nat := 65536
  const TWO_63: nat := 0x8000_0000_0000_0000

  function FileAt(fs: FileSystem, path: Path): seq<byte> {
    if path in fs then fs[path] else []
  }

  function Blank(n: nat): (s: seq<byte>)
    ensures |s| == n
  {
    seq(n, _ => 0)
  }

  /** pwrite: bytes between the old end and the offset read back as zero. */
  function Splice(content: seq<byte>, data: seq<byte>, offset: nat): (c: seq<byte>)
    ensures |c| == if data == [] || offset + |data| < |content| then |content| else offset + |data|
  {
    if data == [] then content
    else
      var front := if offset <= |content| then content[..offset]
                   else content + Blank(offset - |content|);
      var back := if offset + |data| < |content| then content[offset + |data|..] else [];
      front + data + back
  }

  lemma SpliceBytes(content: seq<byte>, data: seq<byte>, offset: nat, x: nat)
    requires x < |Splice(content, data, offset)|
    ensures Splice(content, data, offset)[x] ==
            if offset <= x < offset + |data| then data[x - offset]
            else if x < |content| then content[x] else 0
  {
  }

  /** One call's worth of input/output results. */
  datatype Io = Io(
    openWorks: bool,
    /** The write stops after this many bytes, if it does not get past them. */
    writeStops: Option<nat>,
    syncWorks: bool,
    /** The read-back fails at these offsets. */
    readFaults: set<nat>,
    renameWorks: bool)

  const ALL_WORKS: Io := Io(true, None, true, {}, true)

  /** write_at: complete, or -1 with a prefix possibly on disk. An offset of 2^63 or more is
      negative as off_t, and the first pwrite refuses it. */
  predicate WriteCompletes(data: seq<byte>, offset: nat, io: Io) {
    data == [] || (offset < TWO_63 && (io.writeStops.None? || io.writeStops.value >= |data|))
  }

  function WriteAt(content: seq<byte>, data: seq<byte>, offset: nat, io: Io): seq<byte> {
    if data == [] || offset >= TWO_63 then content
    else if WriteCompletes(data, offset, io) then Splice(content, data, offset)
    else Splice(content, data[..io.writeStops.value], offset)
  }

  lemma CompletedWrite(content: seq<byte>, data: seq<byte>, offset: nat, io: Io)
    requires WriteCompletes(data, offset, io)
    ensures WriteAt(content, data, offset, io) == Splice(content, data, offset)
  {
  }

  /** A loop that reads the first `size` bytes buffer by buffer gets them all. */
  predicate ReadsComplete(content: seq<byte>, size: nat, faults: set<nat>) {
    size <= |content| && forall o <- faults :: !(o < size && o % READ_BUFFER == 0)
  }

  /** The calls that a read-back makes are at the multiples of 65536. */
  lemma ReadCalls(content: seq<byte>, size: nat, fault: nat)
    ensures ReadsComplete(content, size, {fault}) <==>
            size <= |content| && (fault < size ==> fault % 65536 != 0)
  {
  }

  /** With a disk that works a write fails if and only if its offset is 2^63 or more and there is
      something to write. */
  lemma LargeOffsets(data: seq<byte>, offset: nat)
    ensures WriteCompletes(data, offset, ALL_WORKS) <==> data == [] || offset < 0x8000_0000_0000_0000
  {
  }

  /** A write that fails may leave any part of the data behind, from the front. */
  lemma AnyPrefixRemains(content: seq<byte>, data: seq<byte>, offset: nat, n: nat)
    requires n < |data| && offset < 0x8000_0000_0000_0000
    ensures var io := ALL_WORKS.(writeStops := Some(n));
            && !WriteCompletes(data, offset, io)
            && WriteAt(content, data, offset, io) == Splice(content, data[..n], offset)
  {
    hide Splice;
  }

  predicate RenameCompletes(fs: FileSystem, from: Path, io: Io) {
    io.renameWorks && from in fs
  }

  function Rename(fs: FileSystem, from: Path, to: Path): FileSystem
    requires from in fs
  {
    if from == to then fs else (fs - {from})[to := fs[from]]
  }

  function Unlink(fs: FileSystem, path: Path): FileSystem {
    fs - {path}
  }
}
