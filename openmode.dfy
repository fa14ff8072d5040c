/** The mode word of Topen and Tcreate: the low two bits choose exactly one
    access mode, and the higher flag bits are independent and OR'd in. */
module OpenMode {

  import opened Wrappers
  import opened Protocol
  import Meta

  const OREAD: bv32 := 0x0     // open read-only
  const OWRITE: bv32 := 0x1    // open write-only
  const ORDWR: bv32 := 0x2     // open read-write
  const OEXEC: bv32 := 0x3     // execute: read, but check execute permission
  const OTRUNC: bv32 := 0x10   // truncate file first (not with OEXEC)
  const OCEXEC: bv32 := 0x20   // close on exec
  const ORCLOSE: bv32 := 0x40  // remove on close
  const OAPPEND: bv32 := 0x80  // append only
  const OEXCL: bv32 := 0x1000  // exclusive client use

  /** The two bits that hold the access mode. */
  const ACCESS: bv32 := 0x3

  /** The bits that are OR'd in. */
  const FLAGS: bv32 := 0x10f0

  /** Every bit that some open-mode constant names. */
  const KNOWN: bv32 := 0x10f3

  /** The four mutually exclusive access modes. */
  datatype Access = Read | Write | ReadWrite | Exec

  /** A decoded mode word. */
  datatype Mode = Mode(access: Access, trunc: bool, closeOnExec: bool,
                       removeOnClose: bool, append: bool, exclusive: bool)

  /** The access mode's value in the low two bits. */
  function AccessCode(a: Access): (c: bv32)
    ensures c & !ACCESS == 0
  {
    match a
    case Read => OREAD
    case Write => OWRITE
    case ReadWrite => ORDWR
    case Exec => OEXEC
  }

  /** The access mode the low two bits of `w` select: every value of those
      bits selects one, and its code is those bits. */
  function AccessOf(w: bv32): (a: Access)
    ensures AccessCode(a) == w & ACCESS
  {
    var c := w & ACCESS;
    if c == OREAD then Read
    else if c == OWRITE then Write
    else if c == ORDWR then ReadWrite
    else Exec
  }

  /** The mode word of a decoded mode. */
  function Encode(m: Mode): (w: bv32)
    ensures w & !KNOWN == 0
    ensures w & ACCESS == AccessCode(m.access)
    ensures (w & OTRUNC != 0) == m.trunc
    ensures (w & OCEXEC != 0) == m.closeOnExec
    ensures (w & ORCLOSE != 0) == m.removeOnClose
    ensures (w & OAPPEND != 0) == m.append
    ensures (w & OEXCL != 0) == m.exclusive
  {
    AccessCode(m.access)
    | (if m.trunc then OTRUNC else 0)
    | (if m.closeOnExec then OCEXEC else 0)
    | (if m.removeOnClose then ORCLOSE else 0)
    | (if m.append then OAPPEND else 0)
    | (if m.exclusive then OEXCL else 0)
  }

  /** Decodes a mode word. Bits no constant names are ignored. */
  function Decode(w: bv32): (m: Mode)
    ensures Encode(m) == w & KNOWN
  {
    Mode(AccessOf(w), w & OTRUNC != 0, w & OCEXEC != 0, w & ORCLOSE != 0,
         w & OAPPEND != 0, w & OEXCL != 0)
  }

  /** Decoding an encoded mode gives it back. */
  lemma DecodeEncode(m: Mode)
    ensures Decode(Encode(m)) == m
  {
  }

  /** Encoding a decoded word gives back the word exactly when it is built
      only from the open-mode constants. */
  lemma EncodeDecode(w: bv32)
    ensures Encode(Decode(w)) == w <==> w & !KNOWN == 0
  {
  }

  /** The OR'd-in bits are disjoint from the access bits, so OR-ing any of
      them into a word leaves its access mode unchanged. */
  lemma FlagsLeaveAccessAlone(w: bv32, f: bv32)
    requires f & !FLAGS == 0
    ensures FLAGS & ACCESS == 0
    ensures Decode(w | f).access == Decode(w).access
  {
  }

  /** Validates a mode word: OTRUNC with OEXEC is rejected with EINVAL;
      every other word is accepted as it decodes. */
  function Validate(w: bv32): (r: Result<Mode, Errno>)
    ensures r.Ok? ==> r.value == Decode(w)
    ensures r.Err? <==> w & ACCESS == OEXEC && w & OTRUNC != 0
    ensures r.Err? ==> r.error == EINVAL
  {
    var m := Decode(w);
    if m.access == Exec && m.trunc then Err(EINVAL) else Ok(m)
  }

  /** OEXEC|OTRUNC is rejected; OREAD alone and ORDWR|OAPPEND are accepted. */
  lemma ValidationExamples()
    ensures Validate(OEXEC | OTRUNC) == Err(EINVAL)
    ensures Validate(OREAD) == Ok(Mode(Read, false, false, false, false, false))
    ensures Validate(ORDWR | OAPPEND) == Ok(Mode(ReadWrite, false, false, false, true, false))
  {
  }

  /** The permission bits (DMREAD, DMWRITE, DMEXEC) an open in mode `m`
      needs: read for OREAD and ORDWR, write for OWRITE, ORDWR and OTRUNC,
      and for OEXEC execute permission in place of read. */
  function RequiredPerm(m: Mode): (p: Perm)
    ensures p & !(Meta.DMREAD | Meta.DMWRITE | Meta.DMEXEC) == 0
    ensures (p & Meta.DMREAD != 0) <==> m.access == Read || m.access == ReadWrite
    ensures (p & Meta.DMWRITE != 0) <==> m.access == Write || m.access == ReadWrite || m.trunc
    ensures (p & Meta.DMEXEC != 0) <==> m.access == Exec
  {
    var base := match m.access
      case Read => Meta.DMREAD
      case Write => Meta.DMWRITE
      case ReadWrite => Meta.DMREAD | Meta.DMWRITE
      case Exec => Meta.DMEXEC;
    if m.trunc then base | Meta.DMWRITE else base
  }

  /** A mode that passes validation never asks for both execute and write
      permission. */
  lemma ValidModeNeverExecWrites(w: bv32)
    requires Validate(w).Ok?
    ensures var p := RequiredPerm(Validate(w).value);
            !(p & Meta.DMEXEC != 0 && p & Meta.DMWRITE != 0)
  {
  }
}
