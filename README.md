# lensing: frame transport and format negotiation, modelled in Dafny

lensing captures a desktop video stream and passes every frame to a consumer
process as a file descriptor over a Unix socket. This project models the two
pieces of its own logic.

- **PipeWire format vocabulary and offers** (`src/pw_capture.rs`, files
  `spa.dfy` and `pw_capture.dfy`). This covers:
  - the split of a 64-bit DRM layout modifier into 32-bit halves;
  - the table from four DRM fourcc codes to SPA video formats;
  - the EnumFormat offer and the Buffers (DmaBuf) request, kept as a tree of SPA
    values (object, property, id, range choice over rectangles or fractions)
    and not as bytes;
  - the filtering of the caller's `(code, modifier)` candidates into offers;
  - the `param_changed` reset, and the `process` drain that keeps only the
    freshest buffer and turns its data chunks into plane records.
- **Per-sample staging and sending** (`src/main.rs`, files `sealing.dfy`,
  `socket.dfy` and `main.dfy`).
  - A sample whose single memory is descriptor-backed is sent as is.
  - A sample whose single memory is not descriptor-backed is copied into a
    new memfd. The memfd is resized, then sealed against shrink and grow,
    then sealed against further sealing. Only then are the bytes copied in,
    through a writable mapping, and the memfd is sent.
  - A sample without a buffer, or whose buffer does not hold exactly one
    memory, is rejected with an error and nothing is sent.
  - End of stream shuts down the write half of the socket.

The memfd follows the file-sealing rules of fcntl(2), section "File Sealing".
These rules are written once, as a pure state machine (`Sealing.Step`,
`Sealing.Run`). The `Memfd` class performs the same operations in place and
keeps a ghost history of the operations that succeeded. Errors that do not
come from the sealing rules (ENOMEM, EMFILE, EIO, a lost peer) are boolean
parameters.

The numeric SPA ids (object types, parameter ids, keys, media types, video
formats, `SPA_DATA_DmaBuf` and the property-flag bits) are those of libspa's
headers. libspa itself is not part of this model.

Details of the code that the model keeps as they are:
- The copy path adds only F_SEAL_SHRINK, F_SEAL_GROW and F_SEAL_SEAL. The
  staged bytes therefore stay writable through any writable mapping
  (`Sealing.SealedRegionStaysWritable`).
- Each candidate the table can express gets its own offer, duplicates
  included.
- `param_changed` sets the four format fields to 0. The TODO at
  src/pw_capture.rs:173 marks where parsing of the selected format would go.
- Each plane's fd is 0 (TODO at src/pw_capture.rs:203).
- The modifier is put into a 32-bit Id, so only its low half is offered
  (`PwCapture.OfferKeepsOnlyLowModifierBits`).
- The Buffers request sends `dataType` as `Id(DmaBuf)`.

## Model

| member | source | states |
|---|---|---|
| `PwCapture.PipewireFrameFormat.ModifierHi` | src/pw_capture.rs:24-26 | the high half h satisfies h·2^32 ≤ modifier < (h+1)·2^32 |
| `PwCapture.PipewireFrameFormat.ModifierLo` | src/pw_capture.rs:27-29 | hi·2^32 + lo == modifier, with lo < 2^32 |
| `PwCapture.FourccToSpaVideoFormat` | src/pw_capture.rs:45-58 | Some(BGRA/RGBA/BGRx/RGBx) exactly for DRM ARGB8888/ABGR8888/XRGB8888/XBGR8888 (built from their four characters), None otherwise; every result is in the supported set |
| `PwCapture.FourccToSpaVideoFormatInjective` | src/pw_capture.rs:45-58 | two codes that map to the same format are equal |
| `PwCapture.FormatDmabufParams` | src/pw_capture.rs:60-75 | a ParamBuffers/Buffers object with one property, dataType = Id(DmaBuf), with empty flags |
| `PwCapture.FormatGetParams` | src/pw_capture.rs:77-139 | a Format/EnumFormat object with exactly six properties, keyed in the order mediaType, mediaSubtype, format, modifier, size, framerate |
| `PwCapture.OfferValues` | src/pw_capture.rs:82-137 | a reader finds video, raw, the given format, the modifier's low 32 bits, a 256×256 size range over [1×1, 8192×8192], and an fps/1 framerate range over [0/1, 1000/1], all with choice flags 0 |
| `PwCapture.OfferFlags` | src/pw_capture.rs:82-101 | only the modifier property has flags, and they are MANDATORY \| DONT_FIXATE |
| `PwCapture.OfferRangesOrdered` | src/pw_capture.rs:102-137 | every range has min ≤ default ≤ max exactly when fps ≤ 1000 |
| `PwCapture.OfferKeepsOnlyLowModifierBits` | src/pw_capture.rs:97-101 | two offers for the same format and rate are equal iff the modifiers agree modulo 2^32 |
| `PwCapture.CandidateOffer` | src/pw_capture.rs:213-216 | a candidate yields an offer iff its code maps; the offer is the EnumFormat object for that candidate's mapped format, its own modifier and the given rate |
| `PwCapture.FormatParams` | src/pw_capture.rs:213-216 | no more offers than candidates; every offer comes from an expressible candidate; every expressible candidate's offer is present; the list is non-empty when one candidate is expressible |
| `PwCapture.FormatParamsOfferSupportedFormats` | src/pw_capture.rs:213-216 | every offer names one of the four SPA video formats the table maps to (RGBA, BGRA, RGBx, BGRx) |
| `PwCapture.FormatParamsAppend` | src/pw_capture.rs:213-216 | the offers of a concatenation are the concatenation of the offers, so the input order is kept |
| `PwCapture.FormatParamsSingle` | src/pw_capture.rs:213-216 | one candidate contributes its own offer or nothing |
| `PwCapture.DmabufPlanes` | src/pw_capture.rs:200-207 | one plane per data block, in order, with that chunk's offset and stride and fd 0 |
| `PwCapture.CaptureStream.constructor` | src/pw_capture.rs:153 | the shared format starts all zero; nothing is queued or requested |
| `PwCapture.CaptureStream.DequeueBuffer` | src/pw_capture.rs:191 | yields the oldest queued buffer and removes it, or None on an empty queue |
| `PwCapture.CaptureStream.ParamChanged` | src/pw_capture.rs:165-184 | a null or non-Format parameter changes nothing; a Format parameter zeroes all four format fields and requests the DmaBuf Buffers parameter once |
| `PwCapture.CaptureStream.Process` | src/pw_capture.rs:188-210 | empties the queue; an empty queue calls nothing, otherwise the frame callback gets the current format and the planes of the last buffer queued |
| `PwCapture.LatestBufferWins` | src/pw_capture.rs:189-208 | with two buffers queued, only the newer one reaches the frame callback |
| `Sealing.Initial` | src/main.rs:155-156 | a new memfd is empty and unmapped; it has no seals when sealing was allowed, and only F_SEAL_SEAL otherwise |
| `Sealing.Resized` | src/main.rs:166 | resizing keeps the common prefix and zero-fills growth |
| `Sealing.StagingSucceeds` | src/main.rs:155-211 | in the callback's order no step is refused, and the memfd ends with size = mapped length, contents = mapped bytes and seals = {Shrink, Grow, Seal} |
| `Sealing.StagingOrderIsForced` | src/main.rs:155-197 | a non-empty resize after the size seals, adding the size seals after F_SEAL_SEAL, mapping writable after a write seal, or sealing without MFD_ALLOW_SEALING, is each refused |
| `Sealing.SealedSizeIsFrozen` | src/main.rs:176-197 | after shrink, grow and seal seals, no sequence of operations changes the size or the seal set |
| `Sealing.SealedRegionStaysWritable` | src/main.rs:176-211 | without a write seal, the sealed region can still be mapped writable and overwritten |
| `Sealing.Create` | src/main.rs:155-164 | creation fails only on an outside failure, and otherwise yields a fresh, empty memfd with the requested sealing option |
| `Sealing.Memfd.SetLen` | src/main.rs:166-174 | succeeds iff no outside failure and ftruncate's seal checks pass; then the size and the contents are the resized ones |
| `Sealing.Memfd.AddSeals` | src/main.rs:176-187 | succeeds iff no outside failure, F_SEAL_SEAL is absent, and no write seal meets a live mapping; then the seals grow by the set |
| `Sealing.Memfd.AddSeal` | src/main.rs:189-197 | the same check for one seal |
| `Sealing.Memfd.MapMut` | src/main.rs:200-208 | a writable shared mapping succeeds iff no outside failure and neither write seal is set |
| `Sealing.Memfd.CopyFromSlice` | src/main.rs:210 | requires a live mapping of the slice's exact length, since the copy panics otherwise; the contents become the slice |
| `Sealing.Memfd.Unmap` | src/main.rs:199-211 | the mapping ends with the `unsafe` block; nothing else changes |
| `Socket.UnixStream.SendFds` | src/main.rs:121-133 | succeeds iff no outside failure and the write half is open; appends exactly that payload with those descriptors |
| `Socket.UnixStream.Shutdown` | src/main.rs:79 | closes the named halves on success; messages already sent are kept |
| `SampleCallbacks.NewSampleSpec` | src/main.rs:83-229 | Ok iff exactly one message is sent; a message is `[0]` with one descriptor; a failed pull is Eos; a sample without a buffer, or a buffer without exactly one memory, is Error with nothing sent; the zero-copy path sends the memory's own descriptor; the copy path sends the memfd's, or nothing after any staging failure; nothing is sent once the write half is shut; an error is posted on the bus exactly on the Error results |
| `SampleCallbacks.StageCopy` | src/main.rs:155-211 | staging succeeds iff create, set_len, add_seals, add_seal and mmap all do; then the fresh memfd's history is exactly resize, size seals, F_SEAL_SEAL, map, copy, unmap, and its size, contents and seals are the mapped length, the mapped bytes and {Shrink, Grow, Seal} |
| `SampleCallbacks.NewSample` | src/main.rs:83-229 | the result, the messages appended to the socket and whether a bus error was posted are those of `NewSampleSpec`; no memfd is made off the copy path; on a fault-free copy path the memfd is sealed and holds the mapped bytes |
| `SampleCallbacks.EndOfStream` | src/main.rs:74-81 | shuts only the write half, sends nothing and ignores failure |

## Left out

- Portal session setup, source selection and opening the PipeWire remote (src/main.rs:35-54): asynchronous D-Bus calls outside the core.
- The GStreamer pipeline, element construction and the appsink downcast (src/main.rs:56-67): library plumbing.
- The `Arc<Mutex<..>>` around the socket and its lock calls: the socket is a single owned object here.
- The real syscalls behind memfd, mmap and `send_fds`. They are abstract operations under the fcntl(2) sealing rules. Descriptor duplication in the kernel and closing on drop are not modelled.
- The memfd's name, which only labels it in /proc.
- Whether mapping a zero-length file fails depends on the mmap crate, which is not part of this model. Such a failure is covered by the generic mmap failure flag.
- Sealing.Memfd.MapMut: a memfd records only whether a writable mapping is live, not how many mappings there are. This is enough for a callback that maps once and drops the mapping.
- SPA POD serialisation and deserialisation (`PodSerializer`, `PodDeserializer`): the model stops at the value tree. The parameter's bytes are carried but never read.
- The PipeWire main loop, context, core connection, `stream.connect`, `main_loop.run` and the `state_changed` message.
- The commented-out Wayland window code.
- The check `datas.len() < 0` can never hold, so it has no branch here. `maybe_buffer` is modelled as reassignable, so the last buffer dequeued wins.
- `update_params` is recorded as a log of parameter lists on the stream object. Handing the stream into the closure is not modelled.
- PwCapture.FormatParams: the offers are kept as values. At src/pw_capture.rs:215 the closure returns the pointer of a temporary byte vector, which is freed before `stream.connect` reads it (the pointers dangle); the model gives the list the evident meaning. The source also does not compile as written in at least these places: `format_params` is not `mut` but is passed through `as_mut_slice()`; `format` is captured mutably by `param_changed` while `process` also reads it; `maybe_buffer` is not `mut` but is reassigned in the drain loop (src/pw_capture.rs:189-192); and `stream` is used inside the closure of its own builder (src/pw_capture.rs:183); and src/main.rs:200 uses `MmapMut`, which no `use` in src/main.rs imports. The model keeps that format as a field of `CaptureStream` shared by both methods.
- The text of the bus error messages (`element_error!`) is not modelled, only whether one is posted.
