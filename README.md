# 9P2000 data model: mount ordering, create targets, open modes, QID/Dir consistency

This project models the core of a Go package for the 9P2000 file protocol,
`harvey_unix.go`. That file only declares constants and records. Its doc
comments still state real rules, and the model makes those rules into Dafny
functions and proves properties about them:

- **Mount flags** (`MountFlag`): a flag word holds a two-bit action
  (`REPL`, `BEFORE`, `AFTER`) and the independent modifier bits `CREATE` and
  `CACHE`. `Decode` and `Encode` convert between the word and a structured
  `Flags` value.
- **Union directories** (`Union`): a mount point holds an ordered sequence of
  member directories. `Mount` applies the action:
  - REPL leaves exactly the new directory;
  - BEFORE puts it first;
  - AFTER puts it last.

  `Lookup`/`Resolve` find the first member holding a name. `CreateTarget`/`Create`
  pick the first member mounted with `CREATE`. A failed create there fails
  the whole create.
- **Open modes** (`OpenMode`): the low two bits select one of
  `OREAD`/`OWRITE`/`ORDWR`/`OEXEC`. `OTRUNC`, `OCEXEC`, `ORCLOSE`, `OAPPEND`
  and `OEXCL` are independent flags. `Validate` rejects `OEXEC|OTRUNC` with
  `EINVAL`.
- **Identity and metadata** (`Meta`): `Qid` and `Dir` have the source's
  field widths as bit-vectors. The `DM*` mode bits mirror the `QT*` type
  bits 24 places higher. A `Dir` is well-formed when `DMDIR` is set in its
  mode exactly when `QTDIR` is set in its QID type.
- **Protocol constants** (`Protocol`): `MSIZE`, `IOHDRSZ`, the version
  string, the `NOTAG`/`NOFID`/`NOUID` sentinels, and the closed set of error
  codes.

Modelling decisions:
- The source's named types `Perm`, `Size` (both 32-bit), `Tag` (16-bit)
  and `FID` (32-bit) are type synonyms for bit-vectors in `Protocol`.
- `MountFlag` is Go's `int`. It is modelled as a 64-bit word (`bv64`).
  Open modes are 32-bit words, and `Perm` is `bv32`.
- Decoding ignores bits that no constant names. The source gives them no
  meaning.
- A mount word whose action bits are `BEFORE|AFTER` (3) names no action.
  `Decode` rejects it with `EINVAL`.
- The comment on `BEFORE` requires both the mount point and the new file to
  be directories. `Mount` returns `ENOTDIR` when that fails for `BEFORE` or
  `AFTER`. `REPL` has no such requirement.
- `Mount` takes the mount point's current union as a parameter. A mount
  point that nothing has been mounted on yet has the union `Fresh`, which
  is the mount point alone. A BEFORE or AFTER mount there keeps the mount
  point's own contents, after or before the new directory.
- That OTRUNC needs write permission comes from the 9P2000 open(5) manual
  page; `harvey_unix.go:91` only says "truncate file first".
- Some behaviour belongs to other code:
  - whether a directory holds a name is the parameter `has`;
  - the create in one directory is the parameter `attempt`.
- Source comment and code disagree on the default message size. The comment
  at `harvey_unix.go:49` says 1048576 + `IOHDRSZ`. The code at line 50 says
  2 * 1048576 + `IOHDRSZ`. The model follows the code.

## Model

| member | source | states |
|---|---|---|
| Protocol.Code | harvey_unix.go:61-70 | every error maps to its fixed numeric code, all within 1..22 |
| Protocol.CodeRoundTrip | harvey_unix.go:61-70 | the codes are distinct and each one maps back to its error |
| Protocol.SizesAndSentinels | harvey_unix.go:48-58 | MSize is 2*1048576 + IOHDRSZ (2097176); NOTAG, NOFID and NOUID are the largest values of their widths |
| Meta.IdentityIsEquivalence | harvey_unix.go:111-116 | same file (equal Path) and same revision (equal Path and Vers) are equivalences; same revision implies same file; a cached QID is stale iff it has the same Path and a different Vers |
| Meta.ModeBitsOfType | harvey_unix.go:72-109 | the mode bits for a QID type set DMDIR, DMAPPEND, DMEXCL, DMMOUNT, DMAUTH and DMTMP iff the type has the matching QT bit, and set no other bit |
| Meta.TypeBitsOfMode | harvey_unix.go:98-105 | the type bits read from a mode use only the mirrored QT bits, and mirroring them back gives exactly the mode's top six bits |
| Meta.ModeBitsAreShiftedTypeBits | harvey_unix.go:74-105 | each DMx equals QTx shifted left by 24, for DIR, APPEND, EXCL, MOUNT, AUTH and TMP |
| Meta.TypeModeRoundTrip | harvey_unix.go:72-105 | type bits to mode bits and back keeps the six mirrored bits and drops QTSYMLINK and QTLINK |
| Meta.MirroredModeIsWellFormed | harvey_unix.go:118-134 | a Dir whose high mode bits mirror its QID type is well-formed (DMDIR iff QTDIR), and then the mode alone says whether it is a directory |
| Meta.ModeFor | harvey_unix.go:98-126 | the mode a server builds keeps the permission and low bits it is given, and its high bits are exactly the mirror of the QID type |
| Meta.CheckDir | harvey_unix.go:118-134 | a Dir is accepted unchanged iff DMDIR in its mode agrees with QTDIR in its QID type; otherwise the result is EINVAL |
| Meta.ModeForPassesCheck | harvey_unix.go:118-134 | every Dir whose mode comes from ModeFor passes CheckDir |
| MountFlag.ActionCode | harvey_unix.go:10-23 | each action's code fits in the two action bits and none is BEFORE or AFTER together |
| MountFlag.Encode | harvey_unix.go:10-35 | the encoded word uses only named bits; its low two bits are the action; CREATE and CACHE are set iff the modifiers are |
| MountFlag.Decode | harvey_unix.go:10-35 | decoding fails (EINVAL) exactly when the action bits are 3; otherwise re-encoding gives the word's named bits |
| MountFlag.DecodeEncode | harvey_unix.go:10-35 | decoding an encoded flag set gives it back |
| MountFlag.EncodeDecode | harvey_unix.go:10-35 | for a word with a valid action, re-encoding its decoding gives the word iff it uses only the named bits |
| MountFlag.ModifiersAreIndependent | harvey_unix.go:24-34 | CREATE and CACHE are disjoint from the action bits and from each other; OR-ing either in sets only that modifier and keeps the action |
| Union.Search | harvey_unix.go:24-27 | scanning the union in order returns the first member with the property, or none exactly when no member has it |
| Union.SearchFindsTheFirst | harvey_unix.go:24-27 | there is only one first match: any first matching position is what the scan returns |
| Union.Fresh | harvey_unix.go:13-18 | the union at a mount point nothing is mounted on is the mount point alone, without CREATE or CACHE, so it offers no create target |
| Union.FreshMountKeepsMountPoint | harvey_unix.go:16-23 | a BEFORE or AFTER mount on a fresh mount point leaves two members; after BEFORE a name in the new directory resolves there and a name only the mount point holds still resolves to the mount point; after AFTER the mount point is searched first |
| Union.Mount | harvey_unix.go:10-23 | a bad action gives EINVAL; BEFORE or AFTER with either side not a directory gives ENOTDIR; otherwise REPL gives exactly [new], BEFORE gives new followed by the old union, AFTER gives the old union followed by new; the member keeps the flag's CREATE and CACHE |
| Union.Lookup | harvey_unix.go:16-20 | a name resolves to the first member in search order that holds it, or nowhere when no member holds it |
| Union.Resolve | harvey_unix.go:16-20 | resolving succeeds iff some member holds the name, and then gives the directory of the first holder in search order; otherwise ENOENT |
| Union.CreateTarget | harvey_unix.go:24-27 | the create target is the first member mounted with CREATE; there is none iff no member has CREATE |
| Union.Create | harvey_unix.go:24-29 | when some member has CREATE, exactly the first such member is tried and no other; the create succeeds iff creating there succeeds, else it fails with that error; with no CREATE member nothing is tried and the result is EPERM |
| Union.ReplReplaces | harvey_unix.go:11-15 | after REPL the union is exactly [new], whatever it held, and every name resolves in new or nowhere |
| Union.ReplTwice | harvey_unix.go:11-15 | REPL of A then REPL of B leaves only B |
| Union.BeforeIsSearchedFirst | harvey_unix.go:16-21 | after BEFORE, a name in the new directory resolves to it; any other name resolves to the member that held it before, one place down |
| Union.AfterIsSearchedLast | harvey_unix.go:22-23 | after AFTER, a name an earlier member holds resolves where it did; only names no earlier member holds reach the new directory |
| Union.BeforeTwice | harvey_unix.go:16-21 | BEFORE of A then BEFORE of B gives [B, A, ...prior] |
| Union.AfterTwice | harvey_unix.go:22-23 | AFTER of A then AFTER of B gives [...prior, A, B] |
| Union.CreateStopsAtFirstTarget | harvey_unix.go:24-29 | in [X, Y(CREATE), Z(CREATE)] a create goes to Y; if Y fails the create fails with Y's error and Z is never tried |
| Union.CreateTargetAfterMount | harvey_unix.go:16-29 | a BEFORE member with CREATE becomes the create target; an AFTER mount keeps an existing create target in place |
| OpenMode.AccessCode | harvey_unix.go:87-90 | every access mode's code fits in the low two bits |
| OpenMode.AccessOf | harvey_unix.go:87-90 | every value of the low two bits selects exactly one access mode, whose code is those bits |
| OpenMode.Encode | harvey_unix.go:85-96 | the encoded word uses only named bits; the low two bits are the access mode; each OR'd bit is set iff its flag is |
| OpenMode.Decode | harvey_unix.go:85-96 | re-encoding a decoded word gives exactly its named bits |
| OpenMode.DecodeEncode | harvey_unix.go:85-96 | decoding an encoded mode gives it back |
| OpenMode.EncodeDecode | harvey_unix.go:85-96 | re-encoding a decoded word gives the word iff it is built only from the open-mode bits |
| OpenMode.FlagsLeaveAccessAlone | harvey_unix.go:87-95 | OTRUNC, OCEXEC, ORCLOSE, OAPPEND and OEXCL do not overlap the access bits; OR-ing any of them in keeps the access mode |
| OpenMode.Validate | harvey_unix.go:90-91 | a word is rejected with EINVAL iff it is OEXEC with OTRUNC; otherwise it is accepted as it decodes |
| OpenMode.ValidationExamples | harvey_unix.go:87-94 | OEXEC with OTRUNC is rejected; OREAD alone and ORDWR with OAPPEND are accepted |
| OpenMode.RequiredPerm | harvey_unix.go:85-109 | an open needs DMREAD for OREAD and ORDWR; DMWRITE for OWRITE, ORDWR and (by the 9P2000 open(5) manual page, not this file) OTRUNC; DMEXEC (not DMREAD) for OEXEC; and no other bit |
| OpenMode.ValidModeNeverExecWrites | harvey_unix.go:90-108 | a valid mode never needs both execute and write permission |

## Left out

- Wire encoding and decoding of QID and Dir, and message framing with MSize and IOHDRSZ: the file has no codec. So the Dir encode/decode round trip is not stated.
- Dir's server type, device, timestamps and name strings are carried as opaque fields. No rule in the file constrains them.
- CACHE is only carried on the union member. Reads from a cache are the I/O layer's job. The rule that CACHE is for mount only is not enforced, because the model does not tell bind from mount.
- OCEXEC, ORCLOSE and OEXCL are decoded as plain flags. Their effects need process or server state: close on exec, remove on close, and exclusive-use checks against QTEXCL.
- Creating a name that already exists in the union is not modelled. The file only describes the case where the name is absent.
- Which directories hold a name, and the create in one directory, are outside this file. They are the parameters `has` and `attempt`.
- Mount-table storage, locking and serialisation of concurrent mounts are left out. They belong to the mount-table owner.
- The build tag and the stringer generation directive are tooling only.
