/**
 * The appsink callbacks of src/main.rs: each new sample is sent to the
 * consumer as one descriptor, either the sample's own (zero-copy) or that
 * of a freshly staged, sealed memfd holding a copy; end of stream shuts the
 * write half of the socket.
 */
module SampleCallbacks {
  import opened Wrappers
  import opened Sealing
  import opened Socket

  /** The `gstreamer::FlowError` values the callback returns. */
  datatype FlowError = Eos | Error

  /** `Result<FlowSuccess, FlowError>`; FlowSuccess is always `Ok` here. */
  datatype FlowResult = Ok | Err(error: FlowError)

  /** A GStreamer memory: backed by a descriptor (FdMemory or a subtype such as DmaBuf), or not. */
  datatype GstMemory =
    | FdMemory(fd: int, bytes: seq<bv8>)
    | SystemMemory(bytes: seq<bv8>)

  datatype GstBuffer = GstBuffer(memories: seq<GstMemory>)

  /** A pulled sample; it may come without a buffer. */
  datatype Sample = Sample(buffer: Option<GstBuffer>)

  /** Which of the fallible calls fail, for reasons outside the model (out of memory, descriptors, ...). */
  datatype Faults = Faults(mapReadable: bool, create: bool, setLen: bool, addSeals: bool,
                           addSeal: bool, mmap: bool, send: bool)

  /** None of the staging calls fails on its own. */
  predicate StagingFaultFree(f: Faults)
  {
    !f.mapReadable && !f.create && !f.setLen && !f.addSeals && !f.addSeal && !f.mmap
  }

  /** The bytes the copy path stages: those of a sample whose single memory is not descriptor-backed. */
  function CopyPathBytes(pulled: Option<Sample>): Option<seq<bv8>>
  {
    if pulled.Some? && pulled.value.buffer.Some? && |pulled.value.buffer.value.memories| == 1
       && pulled.value.buffer.value.memories[0].SystemMemory?
    then Some(pulled.value.buffer.value.memories[0].bytes)
    else None
  }

  /** The descriptor the zero-copy path sends: that of a sample whose single memory is descriptor-backed. */
  function ZeroCopyFd(pulled: Option<Sample>): Option<int>
  {
    if pulled.Some? && pulled.value.buffer.Some? && |pulled.value.buffer.value.memories| == 1
       && pulled.value.buffer.value.memories[0].FdMemory?
    then Some(pulled.value.buffer.value.memories[0].fd)
    else None
  }

  /**
   * What one callback returns, what it delivers to the consumer, and whether
   * it posted an error message on the pipeline bus (`element_error!`).
   */
  datatype Outcome = Outcome(result: FlowResult, sent: seq<Message>, errorPosted: bool)

  /** Sending the one-byte frame marker with a descriptor. */
  function SendOutcome(fd: int, sendFails: bool, writeShut: bool): Outcome
  {
    if sendFails || writeShut then Outcome(Err(Error), [], true) else Outcome(Ok, [Message([0], [fd])], false)
  }

  /**
   * The intended behaviour of `new_sample`, stated without the memfd: a
   * sample is delivered as exactly one message, or not at all, and only
   * failures of the underlying calls (never a sealing rule) stop it.
   */
  function NewSampleSpec(pulled: Option<Sample>, faults: Faults, memfdFd: int, writeShut: bool): (o: Outcome)
    ensures o.result.Ok? <==> |o.sent| == 1
    ensures |o.sent| <= 1
    ensures forall m <- o.sent :: m.payload == [0] && |m.fds| == 1
    ensures writeShut ==> o.sent == []
    ensures o.result == Err(Eos) <==> pulled.None?
    ensures o.errorPosted <==> o.result == Err(Error)
    ensures (pulled.Some? && (pulled.value.buffer.None? || |pulled.value.buffer.value.memories| != 1))
            ==> o == Outcome(Err(Error), [], true)
    ensures ZeroCopyFd(pulled).Some? ==> o == SendOutcome(ZeroCopyFd(pulled).value, faults.send, writeShut)
    ensures CopyPathBytes(pulled).Some? && StagingFaultFree(faults) ==> o == SendOutcome(memfdFd, faults.send, writeShut)
    ensures CopyPathBytes(pulled).Some? && !StagingFaultFree(faults) ==> o == Outcome(Err(Error), [], true)
  {
    match pulled
    case None => Outcome(Err(Eos), [], false)
    case Some(sample) =>
      match sample.buffer
      case None => Outcome(Err(Error), [], true)
      case Some(buffer) =>
        if |buffer.memories| != 1 then Outcome(Err(Error), [], true)
        else match buffer.memories[0]
          case FdMemory(fd, _) => SendOutcome(fd, faults.send, writeShut)
          case SystemMemory(_) =>
            if StagingFaultFree(faults) then SendOutcome(memfdFd, faults.send, writeShut)
            else Outcome(Err(Error), [], true)
  }

  /**
   * The `new_sample` callback. `pulled` is what `pull_sample` produced
   * (None when it failed), `memfdFd` the descriptor the kernel would give a
   * new memfd. Returns the flow result, the memfd on the copy path, and
   * whether an error message was posted on the bus (before every Error
   * return, never before Eos).
   */
  method NewSample(pulled: Option<Sample>, socket: UnixStream, faults: Faults, memfdFd: int)
    returns (r: FlowResult, region: Memfd?, errorPosted: bool)
    modifies socket
    ensures r == NewSampleSpec(pulled, faults, memfdFd, old(socket.writeShut)).result
    ensures errorPosted == NewSampleSpec(pulled, faults, memfdFd, old(socket.writeShut)).errorPosted
    ensures socket.sent == old(socket.sent) + NewSampleSpec(pulled, faults, memfdFd, old(socket.writeShut)).sent
    ensures socket.writeShut == old(socket.writeShut) && socket.readShut == old(socket.readShut)
    ensures CopyPathBytes(pulled).None? ==> region == null
    ensures region == null || fresh(region)
    ensures CopyPathBytes(pulled).Some? && StagingFaultFree(faults) ==>
              && region != null && fresh(region) && region.Valid() && region.fd == memfdFd
              && region.history == StagingOps(CopyPathBytes(pulled).value)
              && region.State() == Sealed(CopyPathBytes(pulled).value)
  {
    region := null;
    if pulled.None? {
      return Err(Eos), null, false;
    }
    var buffer := pulled.value.buffer;
    if buffer.None? {
      return Err(Error), null, true;
    }
    if |buffer.value.memories| != 1 {
      return Err(Error), null, true;
    }
    var mem := buffer.value.memories[0];
    match mem {
      case FdMemory(fd, _) =>
        var ok := socket.SendFds([0], [fd], faults.send);
        r, errorPosted := if ok then Ok else Err(Error), !ok;
      case SystemMemory(bytes) =>
        if faults.mapReadable {
          return Err(Error), null, true;
        }
        var mapped := bytes;
        var staged;
        region, staged := StageCopy(mapped, faults, memfdFd);
        if !staged {
          return Err(Error), region, true;
        }
        var ok := socket.SendFds([0], [region.fd], faults.send);
        r, errorPosted := if ok then Ok else Err(Error), !ok;
    }
  }

  /**
   * The copy path up to the send: a memfd with sealing allowed, sized to the
   * mapped length, then shrink and grow sealed, then seal-sealed, then
   * filled through a writable mapping. The first failure stops it.
   */
  method StageCopy(mapped: seq<bv8>, faults: Faults, memfdFd: int) returns (region: Memfd?, staged: bool)
    ensures staged == (!faults.create && !faults.setLen && !faults.addSeals && !faults.addSeal && !faults.mmap)
    ensures region == null || fresh(region)
    ensures staged ==> && region != null && region.Valid() && region.fd == memfdFd
                       && region.history == StagingOps(mapped) && region.State() == Sealed(mapped)
  {
    region := Create(MemfdOptions(allowSealing := true), "gstreamer-examples", memfdFd, faults.create);
    if region == null {
      return null, false;
    }
    var ok := region.SetLen(|mapped|, faults.setLen);
    if !ok {
      return region, false;
    }
    ok := region.AddSeals({SealShrink, SealGrow}, faults.addSeals);
    if !ok {
      return region, false;
    }
    ok := region.AddSeal(SealSeal, faults.addSeal);
    if !ok {
      return region, false;
    }
    ok := region.MapMut(faults.mmap);
    if !ok {
      return region, false;
    }
    region.CopyFromSlice(mapped);
    region.Unmap();
    StagingSucceeds(mapped);
    staged := true;
  }

  /** The `eos` callback: shut down the write half and ignore the result. */
  method EndOfStream(socket: UnixStream, failure: bool)
    modifies socket
    ensures socket.sent == old(socket.sent) && socket.readShut == old(socket.readShut)
    ensures socket.writeShut == (old(socket.writeShut) || !failure)
  {
    var ignored := socket.Shutdown(Shutdown.Write, failure);
  }
}
