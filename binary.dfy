/**
 * `utils.IsBinaryFile` (internal/utils/binary.go): a file is binary when the
 * bytes returned by one read of at most 512 bytes contain a NUL.  A file
 * that cannot be opened, and a read that fails (including the end-of-file
 * of an empty file), make it "not binary".
 */
module Binary {
  import opened Wrappers
  import opened FileSystem

  /** The size of the sniff buffer. */
  const SniffSize: nat := 512

  /** What the single `Read` into the 512-byte buffer returns, or None on an error. */
  function FirstRead(o: OpenResult): (r: Option<seq<byte>>)
    ensures r.Some? ==> o.Opened? && !o.readFails && 0 < |r.value| <= SniffSize
    ensures r.Some? ==> |r.value| == (if |o.content| < SniffSize then |o.content| else SniffSize)
    ensures r.Some? ==> r.value == o.content[..|r.value|]
    ensures r.None? <==> (o.OpenFailed? || o.readFails || |o.content| == 0)
  {
    match o
    case OpenFailed(_) => None
    case Opened(content, readFails) =>
      if readFails || |content| == 0 then None
      else if |content| < SniffSize then Some(content)
      else Some(content[..SniffSize])
  }

  predicate IsBinaryFile(o: OpenResult) {
    match FirstRead(o)
    case None => false
    case Some(buf) => 0 in buf
  }

  /** Binary exactly when the file opens and reads, and a NUL is among its first 512 bytes. */
  lemma BinaryIffNulInPrefix(o: OpenResult)
    ensures IsBinaryFile(o) <==>
      o.Opened? && !o.readFails && exists i :: 0 <= i < |o.content| && i < SniffSize && o.content[i] == 0
  {
    if o.Opened? && !o.readFails && |o.content| > 0 {
      var buf := FirstRead(o).value;
      if exists i :: 0 <= i < |o.content| && i < SniffSize && o.content[i] == 0 {
        var i :| 0 <= i < |o.content| && i < SniffSize && o.content[i] == 0;
        assert buf[i] == 0;
      }
    }
  }

  /** A file that cannot be opened, or whose read fails or hits end-of-file, is not binary. */
  lemma UnreadableIsNotBinary(o: OpenResult)
    requires o.OpenFailed? || o.readFails || o.content == []
    ensures !IsBinaryFile(o)
  {
  }

  /** Whatever follows the first 512 bytes is never looked at. */
  lemma OnlyPrefixMatters(head: seq<byte>, tail: seq<byte>, readFails: bool)
    requires |head| >= SniffSize
    ensures IsBinaryFile(Opened(head + tail, readFails)) == IsBinaryFile(Opened(head, readFails))
  {
    assert (head + tail)[..SniffSize] == head[..SniffSize];
  }

  /** In particular a NUL after the first 512 bytes does not make a file binary. */
  lemma LateNulIsIgnored(head: seq<byte>, tail: seq<byte>)
    requires |head| == SniffSize && 0 !in head
    ensures !IsBinaryFile(Opened(head + [0] + tail, false))
  {
    assert head + [0] + tail == head + ([0] + tail);
    OnlyPrefixMatters(head, [0] + tail, false);
  }
}
