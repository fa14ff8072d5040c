/** The identity and metadata records of 9P2000: QID and Dir, with the QID
    type bits and the Dir mode bits that mirror them. */
module Meta {

  import Wrappers
  import Protocol

  // QID type bits (one byte).
  const QTDIR: bv8 := 0x80      // directories
  const QTAPPEND: bv8 := 0x40   // append-only files
  const QTEXCL: bv8 := 0x20     // exclusive-use files
  const QTMOUNT: bv8 := 0x10    // mounted channel
  const QTAUTH: bv8 := 0x08     // authentication file
  const QTTMP: bv8 := 0x04      // non-backed-up file
  const QTSYMLINK: bv8 := 0x02  // symbolic link (9P2000.u)
  const QTLINK: bv8 := 0x01     // hard link (9P2000.u)
  const QTFILE: bv8 := 0x00     // plain file

  // Dir mode bits.
  const DMDIR: Protocol.Perm := 0x8000_0000
  const DMAPPEND: Protocol.Perm := 0x4000_0000
  const DMEXCL: Protocol.Perm := 0x2000_0000
  const DMMOUNT: Protocol.Perm := 0x1000_0000
  const DMAUTH: Protocol.Perm := 0x0800_0000
  const DMTMP: Protocol.Perm := 0x0400_0000
  const DMREAD: Protocol.Perm := 0x4
  const DMWRITE: Protocol.Perm := 0x2
  const DMEXEC: Protocol.Perm := 0x1

  /** The QID type bits that have a Dir mode counterpart. */
  const QT_MIRRORED: bv8 := 0xfc

  /** The Dir mode bits that mirror a QID type bit: the top six bits. */
  const DM_MIRRORED: Protocol.Perm := 0xfc00_0000

  /** A server's identity for a file: 64-bit path, 32-bit version, type byte. */
  datatype Qid = Qid(path: bv64, vers: bv32, qtype: bv8)

  /** The metadata of one file, field for field and width for width. */
  datatype Dir = Dir(
    dtype: bv16,      // server type
    dev: bv32,        // server subtype
    qid: Qid,         // unique id from server
    mode: Protocol.Perm, // permissions
    atime: bv32,      // last read time
    mtime: bv32,      // last write time
    length: bv64,     // file length
    name: string,     // last element of path
    uid: string,      // owner name
    gid: string,      // group name
    muid: string      // last modifier name
  )

  /** Two QIDs name the same file when their paths agree. */
  predicate SameFile(a: Qid, b: Qid) {
    a.path == b.path
  }

  /** Two QIDs name the same revision of a file when path and version agree. */
  predicate SameRevision(a: Qid, b: Qid) {
    a.path == b.path && a.vers == b.vers
  }

  /** A cached copy taken at QID `cached` is stale for the file now at `current`. */
  predicate Stale(cached: Qid, current: Qid) {
    SameFile(cached, current) && !SameRevision(cached, current)
  }

  /** Same-file and same-revision are equivalences, the second refines the
      first, and a cache is stale exactly when it holds the same file at a
      different version. */
  lemma IdentityIsEquivalence(a: Qid, b: Qid, c: Qid)
    ensures SameRevision(a, a) && SameFile(a, a)
    ensures SameRevision(a, b) ==> SameRevision(b, a) && SameFile(a, b)
    ensures SameRevision(a, b) && SameRevision(b, c) ==> SameRevision(a, c)
    ensures SameFile(a, b) ==> SameFile(b, a)
    ensures SameFile(a, b) && SameFile(b, c) ==> SameFile(a, c)
    ensures Stale(a, b) <==> a.path == b.path && a.vers != b.vers
  {
  }

  /** The Dir mode bits that mirror the QID type bits `t`: each type bit
      from QTTMP up to QTDIR becomes the bit 24 places higher. */
  function ModeBitsOfType(t: bv8): (m: Protocol.Perm)
    ensures m & !DM_MIRRORED == 0
    ensures (m & DMDIR != 0) == (t & QTDIR != 0)
    ensures (m & DMAPPEND != 0) == (t & QTAPPEND != 0)
    ensures (m & DMEXCL != 0) == (t & QTEXCL != 0)
    ensures (m & DMMOUNT != 0) == (t & QTMOUNT != 0)
    ensures (m & DMAUTH != 0) == (t & QTAUTH != 0)
    ensures (m & DMTMP != 0) == (t & QTTMP != 0)
  {
    ((t & QT_MIRRORED) as bv32) << 24
  }

  /** The QID type bits that the high bits of mode `m` stand for. */
  function TypeBitsOfMode(m: Protocol.Perm): (t: bv8)
    ensures t & !QT_MIRRORED == 0
    ensures ModeBitsOfType(t) == m & DM_MIRRORED
  {
    ((m >> 24) as bv8) & QT_MIRRORED
  }

  /** Each mirrored Dir mode bit is its QID type bit shifted left by 24. */
  lemma ModeBitsAreShiftedTypeBits()
    ensures DMDIR == (QTDIR as bv32) << 24
    ensures DMAPPEND == (QTAPPEND as bv32) << 24
    ensures DMEXCL == (QTEXCL as bv32) << 24
    ensures DMMOUNT == (QTMOUNT as bv32) << 24
    ensures DMAUTH == (QTAUTH as bv32) << 24
    ensures DMTMP == (QTTMP as bv32) << 24
    ensures DM_MIRRORED == (QT_MIRRORED as bv32) << 24
  {
  }

  /** Going from type bits to mode bits and back keeps the mirrored type bits
      and drops the two (symlink, hard link) that have no mode counterpart. */
  lemma TypeModeRoundTrip(t: bv8)
    ensures TypeBitsOfMode(ModeBitsOfType(t)) == t & QT_MIRRORED
  {
  }

  /** A file is a directory when its QID type says so. */
  predicate IsDirectory(d: Dir) {
    d.qid.qtype & QTDIR != 0
  }

  /** A Dir is consistent when its mode has DMDIR exactly when its QID type
      has QTDIR. */
  predicate WellFormed(d: Dir) {
    (d.mode & DMDIR != 0) <==> (d.qid.qtype & QTDIR != 0)
  }

  /** A Dir whose high mode bits are exactly the mirror of its QID type is
      well-formed, and then the mode alone tells whether it is a directory. */
  lemma MirroredModeIsWellFormed(d: Dir)
    requires d.mode & DM_MIRRORED == ModeBitsOfType(d.qid.qtype)
    ensures WellFormed(d)
    ensures IsDirectory(d) <==> d.mode & DMDIR != 0
  {
  }

  /** The mode a server reports for a file of QID type `t` with permission
      and other low bits `perm`: the high bits are forced to mirror `t`. */
  function ModeFor(t: bv8, perm: Protocol.Perm): (m: Protocol.Perm)
    ensures m & DM_MIRRORED == ModeBitsOfType(t)
    ensures m & !DM_MIRRORED == perm & !DM_MIRRORED
  {
    (perm & !DM_MIRRORED) | ModeBitsOfType(t)
  }

  /** Checks a Dir received from elsewhere before it is trusted. */
  function CheckDir(d: Dir): (r: Wrappers.Result<Dir, Protocol.Errno>)
    ensures r.Ok? ==> r.value == d
    ensures r.Ok? <==> WellFormed(d)
    ensures r.Err? ==> r.error == Protocol.EINVAL
  {
    if WellFormed(d) then Wrappers.Ok(d) else Wrappers.Err(Protocol.EINVAL)
  }

  /** Every Dir built with ModeFor passes CheckDir. */
  lemma ModeForPassesCheck(d: Dir, perm: Protocol.Perm)
    requires d.mode == ModeFor(d.qid.qtype, perm)
    ensures CheckDir(d) == Wrappers.Ok(d)
  {
  }
}
