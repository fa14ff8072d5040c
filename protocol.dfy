/** Protocol-wide constants of the 9P2000 core: message sizes, the version
    string, the sentinel identifiers and the closed set of error codes. */
module Protocol {

  import Wrappers

  /** File permissions and mode bits. */
  type Perm = bv32

  /** A 9P2000 size field. */
  type Size = bv32

  /** Identifies a transaction (request and reply). */
  type Tag = bv16

  /** Identifies a file in a session. */
  type Fid = bv32

  /** Non-data size of a Twrite message. */
  const IOHDRSZ: nat := 24

  /** Default maximum message size: two mebibytes of data plus the header. */
  const MSIZE: nat := 2 * 1048576 + IOHDRSZ

  /** The default version string offered in version negotiation. */
  const DEFAULT_VERSION: string := "9P2000"

  /** Tag of a message that belongs to no transaction (16-bit). */
  const NOTAG: Tag := 0xffff

  /** FID that names no file (32-bit). */
  const NOFID: Fid := 0xffff_ffff

  /** Numeric user id that names no user (32-bit). */
  const NOUID: bv32 := 0xffff_ffff

  /** Every error this core can signal. */
  datatype Errno = EPERM | ENOENT | EIO | EACCES | EEXIST | ENOTDIR | EINVAL

  /** The numeric value of an error, as carried in an error reply. */
  function Code(e: Errno): (c: nat)
    ensures 1 <= c <= 22
  {
    match e
    case EPERM => 1
    case ENOENT => 2
    case EIO => 5
    case EACCES => 13
    case EEXIST => 17
    case ENOTDIR => 20
    case EINVAL => 22
  }

  /** The inverse of Code on the closed set of error values. */
  function FromCode(c: nat): (r: Wrappers.Option<Errno>)
  {
    match c
    case 1 => Wrappers.Some(EPERM)
    case 2 => Wrappers.Some(ENOENT)
    case 5 => Wrappers.Some(EIO)
    case 13 => Wrappers.Some(EACCES)
    case 17 => Wrappers.Some(EEXIST)
    case 20 => Wrappers.Some(ENOTDIR)
    case 22 => Wrappers.Some(EINVAL)
    case _ => Wrappers.None
  }

  /** Distinct errors have distinct codes, and a code names its error back. */
  lemma CodeRoundTrip(e: Errno, c: nat)
    ensures FromCode(Code(e)) == Wrappers.Some(e)
    ensures FromCode(c).Some? ==> Code(FromCode(c).value) == c
  {
  }

  /** The default message size leaves room for two mebibytes of payload
      after a write header, and the sentinels are the all-ones values of
      their widths. */
  lemma SizesAndSentinels(t: Tag, f: Fid)
    ensures MSIZE == 2097176 && MSIZE - IOHDRSZ == 2 * 1048576
    ensures t <= NOTAG
    ensures f <= NOFID && f <= NOUID
  {
  }
}
