/** The flag word of the bind and mount calls: a two-bit action (REPL, BEFORE,
    AFTER) OR'd with the independent CREATE and CACHE modifier bits. The flag
    type is Go's `int`, modelled as a 64-bit two's-complement word. */
module MountFlag {

  import opened Wrappers
  import opened Protocol

  const REPL: bv64 := 0x0000
  const BEFORE: bv64 := 0x0001
  const AFTER: bv64 := 0x0002
  const CREATE: bv64 := 0x0004
  const CACHE: bv64 := 0x0010

  /** The two bits that hold the action. */
  const ORDER: bv64 := 0x0003

  /** Every bit that some flag constant names. */
  const MASK: bv64 := 0x0017

  /** Where a mount puts the new directory in the union. */
  datatype Action = Repl | Before | After

  /** A decoded flag word. */
  datatype Flags = Flags(action: Action, create: bool, cache: bool)

  /** The action's value in the low two bits. */
  function ActionCode(a: Action): (c: bv64)
    ensures c & !ORDER == 0 && c != ORDER
  {
    match a
    case Repl => REPL
    case Before => BEFORE
    case After => AFTER
  }

  /** The flag word of a decoded flag set. */
  function Encode(f: Flags): (w: bv64)
    ensures w & !MASK == 0
    ensures w & ORDER == ActionCode(f.action)
    ensures (w & CREATE != 0) == f.create
    ensures (w & CACHE != 0) == f.cache
  {
    ActionCode(f.action) | (if f.create then CREATE else 0) | (if f.cache then CACHE else 0)
  }

  /** Decodes a flag word. The action is `w & ORDER`; BEFORE|AFTER names no
      action and is rejected. Bits that no constant names carry no meaning
      and are ignored. */
  function Decode(w: bv64): (r: Result<Flags, Errno>)
    ensures r.Err? <==> w & ORDER == ORDER
    ensures r.Err? ==> r.error == EINVAL
    ensures r.Ok? ==> Encode(r.value) == w & MASK
  {
    var order := w & ORDER;
    if order == ORDER then Err(EINVAL)
    else
      var action := if order == REPL then Repl else if order == BEFORE then Before else After;
      Ok(Flags(action, w & CREATE != 0, w & CACHE != 0))
  }

  /** Decoding an encoded flag set gives it back. */
  lemma DecodeEncode(f: Flags)
    ensures Decode(Encode(f)) == Ok(f)
  {
  }

  /** Encoding a decoded word gives back the word exactly when the word uses
      only the named bits. */
  lemma EncodeDecode(w: bv64)
    requires w & ORDER != ORDER
    ensures Decode(w).Ok?
    ensures Encode(Decode(w).value) == w <==> w & !MASK == 0
  {
    assert Encode(Decode(w).value) == w & MASK;
    MaskedIsSelf(w);
  }

  /** A word equals its named bits exactly when it has no other bit set. */
  lemma MaskedIsSelf(w: bv64)
    ensures w & MASK == w <==> w & !MASK == 0
  {
  }

  /** CREATE and CACHE are disjoint from the action bits and from each other,
      so OR-ing either into a word changes only its own modifier. */
  lemma ModifiersAreIndependent(w: bv64)
    ensures CREATE & ORDER == 0 && CACHE & ORDER == 0 && CREATE & CACHE == 0
    ensures Decode(w).Ok? ==> Decode(w | CREATE) == Ok(Decode(w).value.(create := true))
    ensures Decode(w).Ok? ==> Decode(w | CACHE) == Ok(Decode(w).value.(cache := true))
    ensures Decode(w).Err? ==> Decode(w | CREATE).Err? && Decode(w | CACHE).Err?
  {
  }
}
