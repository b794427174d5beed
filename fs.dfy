/**
 * The file system as the core sees it: a tree of directory entries whose
 * children are visited in the order the tree lists them (the walks of the
 * core list them in lexical order; the model takes the order as given and
 * does not require it to be sorted), with the outcome of every system
 * call the core makes on an entry recorded in the entry itself.  The
 * ignore-file filter is an abstract function from relative paths to its
 * `(bool, error)` answer.
 */
module FileSystem {
  import opened Wrappers

  newtype byte = x: int | 0 <= x < 256

  /** A wall-clock time, as far as the core looks into one. */
  datatype Time = Time(year: nat, month: nat, day: nat, hour: nat, minute: nat, second: nat)

  /** What `Stat` (which follows symbolic links) reports for an entry. */
  datatype StatResult =
    | StatFailed(statError: string)
    | StatOk(isDir: bool, size: nat, modTime: Time)

  /**
   * What opening an entry and reading from it gives: an open error with its
   * message, or the bytes of the file and whether reading it fails.
   */
  datatype OpenResult =
    | OpenFailed(openError: string)
    | Opened(content: seq<byte>, readFails: bool)

  /**
   * A directory entry.  A directory that cannot be listed has `readable`
   * false; a non-directory (a file, or a symbolic link, which a walk does
   * not follow) carries its stat and open outcomes.
   */
  datatype Node =
    | Dir(name: string, readable: bool, children: seq<Node>)
    | File(name: string, stat: StatResult, open: OpenResult)

  /** The answer of the ignore-file filter for one relative path. */
  datatype IgnoreResult = IgnoreOk(ignored: bool) | IgnoreErr(message: string)

  /** Go's `string(content)` on a byte slice. */
  function BytesToString(bs: seq<byte>): (s: string)
    ensures |s| == |bs|
    ensures forall i :: 0 <= i < |bs| ==> s[i] as int == bs[i] as int
  {
    seq(|bs|, i requires 0 <= i < |bs| => bs[i] as int as char)
  }
}
