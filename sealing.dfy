/**
 * An anonymous memory file (memfd_create(2)) and the file-sealing rules of
 * fcntl(2), section "File Sealing": F_ADD_SEALS, F_SEAL_SEAL, F_SEAL_SHRINK,
 * F_SEAL_GROW, F_SEAL_WRITE and F_SEAL_FUTURE_WRITE.
 *
 * The rules are a pure state machine (Step, Run); the Memfd class performs
 * the same operations in place and records the ones that succeeded.
 */
module Sealing {
  import opened Wrappers

  /** The seals, named as the memfd crate names them. */
  datatype FileSeal = SealSeal | SealShrink | SealGrow | SealWrite | SealFutureWrite

  /** What the kernel keeps for a memfd: its length, its seals, its bytes, and whether a writable shared mapping is live. */
  datatype MemfdState = MemfdState(size: nat, seals: set<FileSeal>, contents: seq<bv8>, writableMapping: bool)

  /** The operations the staging code performs on a memfd. */
  datatype MemfdOp =
    | Resize(newSize: nat)          // ftruncate, via File::set_len
    | AddSeals(added: set<FileSeal>) // fcntl(F_ADD_SEALS)
    | MapWritable                   // mmap(PROT_READ | PROT_WRITE, MAP_SHARED)
    | Write(data: seq<bv8>)         // a store of the whole mapping
    | Unmap                         // munmap, when the mapping is dropped

  /** A new memfd is empty and unsealed; without MFD_ALLOW_SEALING it starts with F_SEAL_SEAL set. */
  function Initial(allowSealing: bool): (st: MemfdState)
    ensures st.size == 0 && st.contents == [] && !st.writableMapping
    ensures allowSealing ==> st.seals == {}
    ensures !allowSealing ==> st.seals == {SealSeal}
  {
    MemfdState(0, if allowSealing then {} else {SealSeal}, [], false)
  }

  /** ftruncate: growing zero-fills, shrinking drops the tail. */
  function Resized(contents: seq<bv8>, n: nat): (r: seq<bv8>)
    ensures |r| == n
    ensures forall i :: 0 <= i < n ==> r[i] == if i < |contents| then contents[i] else 0
  {
    if n <= |contents| then contents[..n] else contents + seq(n - |contents|, _ => 0)
  }

  /** EPERM from ftruncate: shrinking under F_SEAL_SHRINK or growing under F_SEAL_GROW. */
  predicate ResizePermitted(size: nat, seals: set<FileSeal>, newSize: nat)
  {
    !(newSize < size && SealShrink in seals) && !(newSize > size && SealGrow in seals)
  }

  /** EPERM once F_SEAL_SEAL is set; EBUSY when F_SEAL_WRITE meets a live writable shared mapping. */
  predicate AddSealsPermitted(st: MemfdState, added: set<FileSeal>)
  {
    SealSeal !in st.seals && !(SealWrite in added && st.writableMapping)
  }

  /** EPERM for a writable shared mapping under F_SEAL_WRITE or F_SEAL_FUTURE_WRITE. */
  predicate WritableMapPermitted(seals: set<FileSeal>)
  {
    SealWrite !in seals && SealFutureWrite !in seals
  }

  /**
   * One operation under the sealing rules: None when the kernel refuses it.
   * A write goes through a live writable mapping and must cover it exactly
   * (`copy_from_slice` panics on a length mismatch).
   */
  function Step(st: MemfdState, op: MemfdOp): Option<MemfdState>
  {
    match op
    case Resize(n) =>
      if ResizePermitted(st.size, st.seals, n) then Some(st.(size := n, contents := Resized(st.contents, n))) else None
    case AddSeals(added) =>
      if AddSealsPermitted(st, added) then Some(st.(seals := st.seals + added)) else None
    case MapWritable =>
      if WritableMapPermitted(st.seals) then Some(st.(writableMapping := true)) else None
    case Write(data) =>
      if st.writableMapping && |data| == st.size then Some(st.(contents := data)) else None
    case Unmap =>
      Some(st.(writableMapping := false))
  }

  /** A sequence of operations, stopping at the first refusal. */
  function Run(st: MemfdState, ops: seq<MemfdOp>): Option<MemfdState>
    decreases |ops|
  {
    if ops == [] then Some(st)
    else match Step(st, ops[0])
      case None => None
      case Some(next) => Run(next, ops[1..])
  }

  /** Running one more operation is one more step from where the run ended. */
  lemma {:induction false} RunAppend(st: MemfdState, ops: seq<MemfdOp>, op: MemfdOp)
    ensures Run(st, ops + [op]) == match Run(st, ops) case None => None case Some(s) => Step(s, op)
    decreases |ops|
  {
    if ops == [] {
      assert ops + [op] == [op];
      assert [op][1..] == [];
    } else {
      assert (ops + [op])[1..] == ops[1..] + [op];
      match Step(st, ops[0])
      case None =>
      case Some(next) => RunAppend(next, ops[1..], op);
    }
  }

  /** A well-formed state keeps its length and its bytes in step. */
  predicate Consistent(st: MemfdState)
  {
    |st.contents| == st.size
  }

  /** Every operation keeps a memfd consistent. */
  lemma {:induction false} RunConsistent(st: MemfdState, ops: seq<MemfdOp>)
    requires Consistent(st)
    ensures Run(st, ops).Some? ==> Consistent(Run(st, ops).value)
    decreases |ops|
  {
    if ops != [] {
      match Step(st, ops[0])
      case None =>
      case Some(next) => RunConsistent(next, ops[1..]);
    }
  }

  /** The staging sequence of the copy path, in the order the callback issues it. */
  function StagingOps(bytes: seq<bv8>): seq<MemfdOp>
  {
    [Resize(|bytes|), AddSeals({SealShrink, SealGrow}), AddSeals({SealSeal}), MapWritable, Write(bytes), Unmap]
  }

  /** The region the copy path leaves behind. */
  function Sealed(bytes: seq<bv8>): MemfdState
  {
    MemfdState(|bytes|, {SealShrink, SealGrow, SealSeal}, bytes, false)
  }

  /** In the staging order no step is refused, and the memfd ends holding exactly the bytes, size-sealed and seal-sealed. */
  lemma StagingSucceeds(bytes: seq<bv8>)
    ensures Run(Initial(true), StagingOps(bytes)) == Some(Sealed(bytes))
  {
    var ops := StagingOps(bytes);
    var s0 := Initial(true);
    var s1 := s0.(size := |bytes|, contents := Resized([], |bytes|));
    var s2 := s1.(seals := {SealShrink, SealGrow});
    var s3 := s2.(seals := {SealShrink, SealGrow, SealSeal});
    var s4 := s3.(writableMapping := true);
    var s5 := s4.(contents := bytes);
    var s6 := s5.(writableMapping := false);
    assert s0.seals + {SealShrink, SealGrow} == s2.seals;
    assert s2.seals + {SealSeal} == s3.seals;
    assert Step(s0, ops[0]) == Some(s1);
    assert Step(s1, ops[1]) == Some(s2);
    assert Step(s2, ops[2]) == Some(s3);
    assert Step(s3, ops[3]) == Some(s4);
    assert Step(s4, ops[4]) == Some(s5);
    assert Step(s5, ops[5]) == Some(s6);
    assert Run(s6, ops[6..]) == Some(s6);
    assert Run(s5, ops[5..]) == Some(s6);
    assert Run(s4, ops[4..]) == Some(s6);
    assert Run(s3, ops[3..]) == Some(s6);
    assert Run(s2, ops[2..]) == Some(s6);
    assert Run(s1, ops[1..]) == Some(s6);
    assert s6 == Sealed(bytes);
  }

  /**
   * The order is forced: size seals before a non-empty resize, F_SEAL_SEAL
   * before the size seals, a write seal before the mapping, or a memfd
   * created without sealing allowed, each make the kernel refuse a step.
   */
  lemma StagingOrderIsForced(bytes: seq<bv8>)
    ensures |bytes| > 0 ==> Run(Initial(true), [AddSeals({SealShrink, SealGrow}), Resize(|bytes|)]) == None
    ensures Run(Initial(true), [Resize(|bytes|), AddSeals({SealSeal}), AddSeals({SealShrink, SealGrow})]) == None
    ensures Run(Initial(true), [Resize(|bytes|), AddSeals({SealWrite}), MapWritable]) == None
    ensures Run(Initial(false), [Resize(|bytes|), AddSeals({SealShrink, SealGrow})]) == None
  {
    var n := |bytes|;
    var grown := Initial(true).(size := n, contents := Resized([], n));
    if n > 0 {
      assert Run(Initial(true).(seals := {SealShrink, SealGrow}), [Resize(n)]) == None;
    }
    assert Run(grown.(seals := {SealSeal}), [AddSeals({SealShrink, SealGrow})]) == None;
    assert Run(grown, [AddSeals({SealSeal}), AddSeals({SealShrink, SealGrow})])
        == Run(grown.(seals := {SealSeal}), [AddSeals({SealShrink, SealGrow})]);
    assert Run(grown.(seals := {SealWrite}), [MapWritable]) == None;
    assert Run(grown, [AddSeals({SealWrite}), MapWritable]) == Run(grown.(seals := {SealWrite}), [MapWritable]);
    var grownUnsealable := Initial(false).(size := n, contents := Resized([], n));
    assert Run(grownUnsealable, [AddSeals({SealShrink, SealGrow})]) == None;
  }

  /** Once shrink, grow and seal seals are in place, no sequence of operations changes the length or the seals. */
  lemma {:induction false} SealedSizeIsFrozen(st: MemfdState, ops: seq<MemfdOp>)
    requires {SealShrink, SealGrow, SealSeal} <= st.seals
    ensures Run(st, ops).Some? ==> Run(st, ops).value.size == st.size && Run(st, ops).value.seals == st.seals
    decreases |ops|
  {
    if ops != [] {
      match Step(st, ops[0])
      case None =>
      case Some(next) =>
        assert next.size == st.size && next.seals == st.seals;
        SealedSizeIsFrozen(next, ops[1..]);
    }
  }

  /**
   * No write seal is added, so the staged bytes stay writable: anyone holding
   * the descriptor can map the region writable and overwrite it.
   */
  lemma SealedRegionStaysWritable(bytes: seq<bv8>, other: seq<bv8>)
    requires |other| == |bytes|
    ensures Run(Sealed(bytes), [MapWritable, Write(other)]) == Some(Sealed(other).(writableMapping := true))
  {
    var mapped := Sealed(bytes).(writableMapping := true);
    assert Step(Sealed(bytes), MapWritable) == Some(mapped);
    assert Run(mapped.(contents := other), []) == Some(mapped.(contents := other));
    assert Run(mapped, [Write(other)]) == Some(mapped.(contents := other));
  }

  /** The options of memfd_create: MFD_ALLOW_SEALING or not. */
  datatype MemfdOptions = MemfdOptions(allowSealing: bool)

  /**
   * An open memfd. Every method takes a `failure` flag standing for the
   * errors that do not come from sealing (ENOMEM, EINTR, EIO, ...).
   */
  class Memfd {
    const fd: int
    const allowSealing: bool
    var size: nat
    var seals: set<FileSeal>
    var contents: seq<bv8>
    var writableMapping: bool
    /** The operations that succeeded, oldest first. */
    ghost var history: seq<MemfdOp>

    function State(): MemfdState
      reads this
    {
      MemfdState(size, seals, contents, writableMapping)
    }

    /** The state is the one the recorded operations lead to from creation. */
    ghost predicate Valid()
      reads this
    {
      |contents| == size && Run(Initial(allowSealing), history) == Some(State())
    }

    constructor (fd: int, allowSealing: bool)
      ensures Valid() && this.fd == fd && this.allowSealing == allowSealing
      ensures State() == Initial(allowSealing) && history == []
    {
      this.fd := fd;
      this.allowSealing := allowSealing;
      size := 0;
      seals := if allowSealing then {} else {SealSeal};
      contents := [];
      writableMapping := false;
      history := [];
    }

    /** Performs `op` when the kernel allows it and nothing else fails; records it on success. */
    method Apply(op: MemfdOp, failure: bool) returns (ok: bool)
      requires Valid()
      modifies this
      ensures Valid()
      ensures ok == (!failure && Step(old(State()), op).Some?)
      ensures ok ==> State() == Step(old(State()), op).value && history == old(history) + [op]
      ensures !ok ==> State() == old(State()) && history == old(history)
    {
      var next := Step(State(), op);
      if failure || next.None? {
        return false;
      }
      RunAppend(Initial(allowSealing), history, op);
      RunConsistent(Initial(allowSealing), history + [op]);
      size, seals, contents, writableMapping := next.value.size, next.value.seals, next.value.contents, next.value.writableMapping;
      history := history + [op];
      ok := true;
    }

    /** `File::set_len`. */
    method SetLen(n: nat, failure: bool) returns (ok: bool)
      requires Valid()
      modifies this
      ensures Valid()
      ensures ok == (!failure && ResizePermitted(old(size), old(seals), n))
      ensures ok ==> size == n && contents == Resized(old(contents), n) && history == old(history) + [Resize(n)]
      ensures !ok ==> State() == old(State()) && history == old(history)
      ensures seals == old(seals) && writableMapping == old(writableMapping)
    {
      ok := Apply(Resize(n), failure);
    }

    /** `Memfd::add_seals`: one F_ADD_SEALS with the whole set. */
    method AddSeals(added: set<FileSeal>, failure: bool) returns (ok: bool)
      requires Valid()
      modifies this
      ensures Valid()
      ensures ok == (!failure && AddSealsPermitted(old(State()), added))
      ensures seals == if ok then old(seals) + added else old(seals)
      ensures ok ==> history == old(history) + [MemfdOp.AddSeals(added)]
      ensures !ok ==> history == old(history)
      ensures size == old(size) && contents == old(contents) && writableMapping == old(writableMapping)
    {
      ok := Apply(MemfdOp.AddSeals(added), failure);
    }

    /** `Memfd::add_seal`: F_ADD_SEALS with a single seal. */
    method AddSeal(seal: FileSeal, failure: bool) returns (ok: bool)
      requires Valid()
      modifies this
      ensures Valid()
      ensures ok == (!failure && AddSealsPermitted(old(State()), {seal}))
      ensures seals == if ok then old(seals) + {seal} else old(seals)
      ensures ok ==> history == old(history) + [MemfdOp.AddSeals({seal})]
      ensures !ok ==> history == old(history)
      ensures size == old(size) && contents == old(contents) && writableMapping == old(writableMapping)
    {
      ok := AddSeals({seal}, failure);
    }

    /** `MmapMut::map_mut`: a writable shared mapping of the whole file. */
    method MapMut(failure: bool) returns (ok: bool)
      requires Valid()
      modifies this
      ensures Valid()
      ensures ok == (!failure && WritableMapPermitted(old(seals)))
      ensures writableMapping == (old(writableMapping) || ok)
      ensures ok ==> history == old(history) + [MapWritable]
      ensures !ok ==> history == old(history)
      ensures size == old(size) && contents == old(contents) && seals == old(seals)
    {
      ok := Apply(MapWritable, failure);
    }

    /** `copy_from_slice` into the mapping: needs a live mapping of exactly the source's length. */
    method CopyFromSlice(src: seq<bv8>)
      requires Valid() && writableMapping && |src| == size
      modifies this
      ensures Valid()
      ensures contents == src && history == old(history) + [Write(src)]
      ensures size == old(size) && seals == old(seals) && writableMapping
    {
      var ok := Apply(Write(src), false);
    }

    /** Dropping the mapping. */
    method Unmap()
      requires Valid()
      modifies this
      ensures Valid()
      ensures !writableMapping && history == old(history) + [MemfdOp.Unmap]
      ensures size == old(size) && contents == old(contents) && seals == old(seals)
    {
      var ok := Apply(MemfdOp.Unmap, false);
    }
  }

  /** `MemfdOptions::create`: a fresh, empty memfd, or nothing on failure (EMFILE, ENOMEM, ...). */
  method Create(opts: MemfdOptions, name: string, fd: int, failure: bool) returns (m: Memfd?)
    ensures failure <==> m == null
    ensures m != null ==> fresh(m) && m.Valid() && m.fd == fd && m.allowSealing == opts.allowSealing
    ensures m != null ==> m.State() == Initial(opts.allowSealing) && m.history == []
  {
    if failure {
      return null;
    }
    m := new Memfd(fd, opts.allowSealing);
  }
}
