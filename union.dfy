/** Union directories: the ordered sequence of directories mounted at one
    point, how a mount changes it, how a name resolves in it, and which
    member a create goes to. */
module Union {

  import opened Wrappers
  import opened Protocol
  import opened Meta
  import opened MountFlag

  /** One directory of a union, with the modifiers it was mounted with. */
  datatype Member = Member(dir: Dir, create: bool, cache: bool)

  /** `i` is the first position of `u` whose member satisfies `p`. */
  predicate IsFirst(u: seq<Member>, p: Member -> bool, i: nat) {
    i < |u| && p(u[i]) && forall j :: 0 <= j < i ==> !p(u[j])
  }

  /** Scans the union in search order for the first member satisfying `p`. */
  function Search(u: seq<Member>, p: Member -> bool): (r: Option<nat>)
    ensures r.Some? ==> IsFirst(u, p, r.value)
    ensures r.None? ==> forall j :: 0 <= j < |u| ==> !p(u[j])
  {
    if |u| == 0 then None
    else if p(u[0]) then Some(0)
    else match Search(u[1..], p)
      case None => None
      case Some(i) => Some(i + 1)
  }

  /** There is only one first match: any `i` meeting IsFirst is what Search
      finds. */
  lemma SearchFindsTheFirst(u: seq<Member>, p: Member -> bool, i: nat)
    requires IsFirst(u, p, i)
    ensures Search(u, p) == Some(i)
  {
  }

  /** The union at a mount point nothing has been mounted on yet: the mount
      point alone, without CREATE or CACHE. A BEFORE or AFTER mount there
      adds the new directory beside it, so the mount point's own contents
      stay in the union. */
  function Fresh(mountPoint: Dir): (u: seq<Member>)
    ensures |u| == 1 && u[0].dir == mountPoint && !u[0].create && !u[0].cache
    ensures CreateTarget(u).None?
  {
    [Member(mountPoint, false, false)]
  }

  /** Mounts `newDir` on `mountPoint`, whose union is `u`. REPL makes the union
      exactly `newDir`; BEFORE puts it first and AFTER last, and both need
      `mountPoint` and `newDir` to be directories. The member keeps the CREATE and
      CACHE bits of the flag. */
  function Mount(mountPoint: Dir, u: seq<Member>, newDir: Dir, flag: bv64): (r: Result<seq<Member>, Errno>)
    ensures Decode(flag).Err? ==> r == Err(EINVAL)
    ensures (Decode(flag).Ok? && Decode(flag).value.action != Repl
             && !(IsDirectory(mountPoint) && IsDirectory(newDir))) ==> r == Err(ENOTDIR)
    ensures r.Ok? ==>
              var f := Decode(flag).value;
              var m := Member(newDir, f.create, f.cache);
              && (f.action == Repl ==> r.value == [m])
              && (f.action == Before ==> |r.value| == |u| + 1 && r.value[0] == m && r.value[1..] == u)
              && (f.action == After ==> |r.value| == |u| + 1 && r.value[|u|] == m && r.value[..|u|] == u)
    ensures r.Ok? <==> (Decode(flag).Ok? && (Decode(flag).value.action == Repl
                                              || (IsDirectory(mountPoint) && IsDirectory(newDir))))
  {
    match Decode(flag)
    case Err(e) => Err(e)
    case Ok(f) =>
      var m := Member(newDir, f.create, f.cache);
      match f.action
      case Repl => Ok([m])
      case Before => if IsDirectory(mountPoint) && IsDirectory(newDir) then Ok([m] + u) else Err(ENOTDIR)
      case After => if IsDirectory(mountPoint) && IsDirectory(newDir) then Ok(u + [m]) else Err(ENOTDIR)
  }

  /** The member that resolves a name, given which directories hold it: the
      first in search order. */
  function Lookup(u: seq<Member>, has: Dir -> bool): (r: Option<nat>)
    ensures r.Some? ==> r.value < |u| && has(u[r.value].dir)
                        && forall j :: 0 <= j < r.value ==> !has(u[j].dir)
    ensures r.None? ==> forall j :: 0 <= j < |u| ==> !has(u[j].dir)
  {
    Search(u, (m: Member) => has(m.dir))
  }

  /** Resolves a name to the directory that holds it, or ENOENT. */
  function Resolve(u: seq<Member>, has: Dir -> bool): (r: Result<Dir, Errno>)
    ensures r.Ok? <==> Lookup(u, has).Some?
    ensures r.Ok? ==> r.value == u[Lookup(u, has).value].dir
    ensures r.Err? <==> forall j :: 0 <= j < |u| ==> !has(u[j].dir)
    ensures r.Err? ==> r.error == ENOENT
  {
    match Lookup(u, has)
    case Some(i) => Ok(u[i].dir)
    case None => Err(ENOENT)
  }

  /** A member that accepts creates. */
  predicate Creatable(m: Member) {
    m.create
  }

  /** The position a create goes to: the first member mounted with CREATE. */
  function CreateTarget(u: seq<Member>): (r: Option<nat>)
    ensures r.Some? ==> IsFirst(u, Creatable, r.value)
    ensures r.None? <==> forall j :: 0 <= j < |u| ==> !u[j].create
  {
    Search(u, Creatable)
  }

  /** What a create in a union did: the positions it tried, in order, and
      the position it created in or the error. */
  datatype CreateOutcome = CreateOutcome(tried: seq<nat>, result: Result<nat, Errno>)

  /** Creates a file that does not exist in union `u`. `attempt` is the
      create in one directory (None on success). Only the first CREATE
      member is tried; its failure is the result. With no CREATE member the
      create fails with EPERM. */
  function Create(u: seq<Member>, attempt: Dir -> Option<Errno>): (r: CreateOutcome)
    ensures |r.tried| <= 1
    ensures r == CreateOutcome([], Err(EPERM)) <==> forall j :: 0 <= j < |u| ==> !u[j].create
    ensures |r.tried| == 1 <==> exists j :: 0 <= j < |u| && u[j].create
    ensures CreateTarget(u).Some? ==> r.tried == [CreateTarget(u).value]
    ensures |r.tried| == 1 ==>
              && IsFirst(u, Creatable, r.tried[0])
              && (r.result.Ok? <==> attempt(u[r.tried[0]].dir).None?)
              && (r.result.Ok? ==> r.result.value == r.tried[0])
              && (r.result.Err? ==> r.result.error == attempt(u[r.tried[0]].dir).value)
  {
    match CreateTarget(u)
    case None => CreateOutcome([], Err(EPERM))
    case Some(t) =>
      match attempt(u[t].dir)
      case None => CreateOutcome([t], Ok(t))
      case Some(e) => CreateOutcome([t], Err(e))
  }

  /** The flag word of a mount with the given action and modifiers. */
  function FlagWord(a: Action, create: bool, cache: bool): (w: bv64)
    ensures Decode(w) == Ok(Flags(a, create, cache))
  {
    DecodeEncode(Flags(a, create, cache));
    Encode(Flags(a, create, cache))
  }

  /** After a REPL mount the union is exactly the new directory, whatever it
      held before, and every name resolves in the new directory or nowhere. */
  lemma ReplReplaces(mountPoint: Dir, u: seq<Member>, newDir: Dir, create: bool, cache: bool, has: Dir -> bool)
    ensures Mount(mountPoint, u, newDir, FlagWord(Repl, create, cache)) == Ok([Member(newDir, create, cache)])
    ensures Lookup([Member(newDir, create, cache)], has) == if has(newDir) then Some(0) else None
  {
  }

  /** REPL is not cumulative: mounting A then B with REPL leaves only B. */
  lemma ReplTwice(mountPoint: Dir, u: seq<Member>, a: Dir, b: Dir, fa: bv64, fb: bv64)
    requires Decode(fa).Ok? && Decode(fa).value.action == Repl
    requires Decode(fb).Ok? && Decode(fb).value.action == Repl
    ensures Mount(mountPoint, u, a, fa).Ok?
    ensures Mount(mountPoint, Mount(mountPoint, u, a, fa).value, b, fb)
            == Ok([Member(b, Decode(fb).value.create, Decode(fb).value.cache)])
  {
  }

  /** After a BEFORE mount the new directory is searched first: a name it
      holds resolves to it, and any other name resolves to the member that
      held it before, one place further down. */
  lemma BeforeIsSearchedFirst(u: seq<Member>, m: Member, has: Dir -> bool)
    ensures has(m.dir) ==> Lookup([m] + u, has) == Some(0)
    ensures !has(m.dir) ==>
              Lookup([m] + u, has) == (match Lookup(u, has) case None => None case Some(i) => Some(i + 1))
  {
  }

  /** After an AFTER mount the new directory is searched last: a name some
      earlier member holds still resolves to that member, and the new
      directory is reached only for names no earlier member holds. */
  lemma {:induction false} AfterIsSearchedLast(u: seq<Member>, m: Member, has: Dir -> bool)
    ensures Lookup(u, has).Some? ==> Lookup(u + [m], has) == Lookup(u, has)
    ensures Lookup(u, has).None? ==> Lookup(u + [m], has) == if has(m.dir) then Some(|u|) else None
  {
    var p := (x: Member) => has(x.dir);
    var v := u + [m];
    match Lookup(u, has)
    case Some(i) =>
      assert v[i] == u[i];
      forall j | 0 <= j < i ensures !p(v[j]) {
        assert v[j] == u[j];
      }
      SearchFindsTheFirst(v, p, i);
    case None =>
      forall j | 0 <= j < |u| ensures !p(v[j]) {
        assert v[j] == u[j];
      }
      if has(m.dir) {
        SearchFindsTheFirst(v, p, |u|);
      } else {
        assert forall j :: 0 <= j < |v| ==> !p(v[j]) by {
          forall j | 0 <= j < |v| ensures !p(v[j]) {
            if j < |u| { assert v[j] == u[j]; }
          }
        }
      }
  }

  /** Two BEFORE mounts of A then B give the search order [B, A, ...prior]. */
  lemma {:induction false} BeforeTwice(mountPoint: Dir, u: seq<Member>, a: Dir, b: Dir, fa: bv64, fb: bv64)
    requires IsDirectory(mountPoint) && IsDirectory(a) && IsDirectory(b)
    requires Decode(fa).Ok? && Decode(fa).value.action == Before
    requires Decode(fb).Ok? && Decode(fb).value.action == Before
    ensures Mount(mountPoint, u, a, fa).Ok?
    ensures
      var ma := Member(a, Decode(fa).value.create, Decode(fa).value.cache);
      var mb := Member(b, Decode(fb).value.create, Decode(fb).value.cache);
      Mount(mountPoint, Mount(mountPoint, u, a, fa).value, b, fb) == Ok([mb, ma] + u)
  {
    var ma := Member(a, Decode(fa).value.create, Decode(fa).value.cache);
    var mb := Member(b, Decode(fb).value.create, Decode(fb).value.cache);
    var r1 := Mount(mountPoint, u, a, fa).value;
    assert r1 == [r1[0]] + r1[1..] == [ma] + u;
    var r2 := Mount(mountPoint, r1, b, fb).value;
    assert r2 == [r2[0]] + r2[1..] == [mb] + r1;
    assert [mb] + ([ma] + u) == [mb, ma] + u;
  }

  /** Two AFTER mounts of A then B give the search order [...prior, A, B]. */
  lemma {:induction false} AfterTwice(mountPoint: Dir, u: seq<Member>, a: Dir, b: Dir, fa: bv64, fb: bv64)
    requires IsDirectory(mountPoint) && IsDirectory(a) && IsDirectory(b)
    requires Decode(fa).Ok? && Decode(fa).value.action == After
    requires Decode(fb).Ok? && Decode(fb).value.action == After
    ensures Mount(mountPoint, u, a, fa).Ok?
    ensures
      var ma := Member(a, Decode(fa).value.create, Decode(fa).value.cache);
      var mb := Member(b, Decode(fb).value.create, Decode(fb).value.cache);
      Mount(mountPoint, Mount(mountPoint, u, a, fa).value, b, fb) == Ok(u + [ma, mb])
  {
    var ma := Member(a, Decode(fa).value.create, Decode(fa).value.cache);
    var mb := Member(b, Decode(fb).value.create, Decode(fb).value.cache);
    var r1 := Mount(mountPoint, u, a, fa).value;
    assert r1 == r1[..|u|] + [r1[|u|]] == u + [ma];
    var r2 := Mount(mountPoint, r1, b, fb).value;
    assert r2 == r2[..|r1|] + [r2[|r1|]] == r1 + [mb];
    assert (u + [ma]) + [mb] == u + [ma, mb];
  }

  /** A union [X, Y, Z] where only Y and Z were mounted with CREATE sends a
      create to Y; if it fails there the create fails with Y's error and Z
      is never tried. */
  lemma CreateStopsAtFirstTarget(x: Dir, y: Dir, z: Dir, attempt: Dir -> Option<Errno>)
    requires attempt(y).Some?
    ensures Create([Member(x, false, false), Member(y, true, false), Member(z, true, false)], attempt)
            == CreateOutcome([1], Err(attempt(y).value))
  {
    var u := [Member(x, false, false), Member(y, true, false), Member(z, true, false)];
    SearchFindsTheFirst(u, Creatable, 1);
  }

  /** A BEFORE mount with CREATE becomes the create target; an AFTER mount
      leaves an existing create target where it was. */
  lemma {:induction false} CreateTargetAfterMount(u: seq<Member>, m: Member)
    ensures m.create ==> CreateTarget([m] + u) == Some(0)
    ensures CreateTarget(u).Some? ==> CreateTarget(u + [m]) == CreateTarget(u)
  {
    if m.create {
      SearchFindsTheFirst([m] + u, Creatable, 0);
    }
    if CreateTarget(u).Some? {
      var i := CreateTarget(u).value;
      var v := u + [m];
      forall j | 0 <= j <= i ensures v[j] == u[j] { }
      SearchFindsTheFirst(v, Creatable, i);
    }
  }

  /** A BEFORE mount on a fresh mount point keeps the mount point's own
      contents after the new directory's: a name the new directory holds
      resolves there, and a name only the mount point holds still resolves,
      to the mount point. An AFTER mount keeps the mount point first. */
  lemma {:induction false} FreshMountKeepsMountPoint(mountPoint: Dir, newDir: Dir, flag: bv64, has: Dir -> bool)
    requires IsDirectory(mountPoint) && IsDirectory(newDir)
    requires Decode(flag).Ok? && Decode(flag).value.action != Repl
    ensures Mount(mountPoint, Fresh(mountPoint), newDir, flag).Ok?
    ensures var v := Mount(mountPoint, Fresh(mountPoint), newDir, flag).value;
            && |v| == 2
            && (Decode(flag).value.action == Before ==>
                  && (has(newDir) ==> Resolve(v, has) == Ok(newDir))
                  && (!has(newDir) && has(mountPoint) ==> Resolve(v, has) == Ok(mountPoint)))
            && (Decode(flag).value.action == After ==>
                  && (has(mountPoint) ==> Resolve(v, has) == Ok(mountPoint))
                  && (!has(mountPoint) && has(newDir) ==> Resolve(v, has) == Ok(newDir)))
  {
    var f := Decode(flag).value;
    var u := Fresh(mountPoint);
    var m := Member(newDir, f.create, f.cache);
    if f.action == Before {
      BeforeIsSearchedFirst(u, m, has);
    } else {
      AfterIsSearchedLast(u, m, has);
    }
  }
}
