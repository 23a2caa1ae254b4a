# A Dafny model of the audio code

This project models seven parts of the repository and proves what they are for:

* **dr_wav's WAV container** (`example/dr_wav.h`): the writer with its placeholder sizes and the two patches it makes by
  seeking back, the metadata printer that either writes or counts, the opener that walks the chunks twice, and the
  metadata parser with its memory arena. `Bytes` and the `DrWav*` files, except those of the next item. `DrWavOpenSpec`
  says what opening comes to, the round trips are in the `*RoundTrip` files, and what holds of
  files of any origin in `DrWavUnsized`, `DrWavReturns`, `DrWavEndless`, `DrWavOrderly`, `DrWavUse`, `DrWavArena`,
  `DrWavOverrun` and `DrWavHalfFilled`; `DrWavOrderlyFiles`, `DrWavLongSampler` and `DrWavEmptyText` are about written
  files that the round trips leave out.
* **dr_wav's IMA ADPCM decoder** and its seek: `DrWavImaSpec`, `DrWavIma`, `DrWavImaWhole`, `DrWavImaTotal`.
* **SwapQueue**, a lock-free queue between two threads: `SwapQueueSpec`, `SwapQueueProof`, `SwapQueue`.
* **The FIR filters**, plain and vectorised: `FirSpec`, `FirFilters`.
* **The ring buffer**: `RingBuffer`.
* **WebRTC's WAV header** writer and reader: `WavHeaderSpec`, `WavHeader`, `WavHeaderIo`.
* **Reference counting, the growing buffer, timestamps and the calendar**: `RefCountSpec`, `RefCountProof`,
  `ScopedRefptr`, `BufferT`, `TimeUtils`.

Code that works by changing things is modelled as classes and methods with loops, each proved against a specification
on values; the theorems are about the specifications. Concurrent code is a transition system in which every atomic
operation is one step and the threads' steps interleave freely.

The project stands on its own: `dafny verify dfyconfig.toml` checks all of it.

## What the proofs brought to light

Where the code falls short of what its comments or its callers would expect, the model does what the code does, and the
condition under which the expectation holds is proved.

* An RF64 file with metadata that dr_wav has written cannot be opened with metadata from memory: the second walk tries
  to skip a data chunk of 0xFFFFFFFF bytes, and the memory stream refuses (`DrWavOpenRoundTrip.ReadFile`,
  `OpenFile`; `DrWavRoundTrip.SmallRf64File` is one).
* Opening need not come to an end. Distances of 2 GiB and more are cast to an `int` in two places and lead back to a
  chunk already read: a fmt chunk with size field 0xFFFFFFF8, or a LIST of that size behind any file with metadata
  (`DrWavEndless.FmtHangs`, `ListHangs`). A walk never ends if and only if it comes back to a place, which is decided by
  a bounded number of turns (`DrWavReturns.ScanHangsExactly`, `ReadHangsExactly`, `OpenDecided`).
* A sampler chunk whose loop count does not fit its size is not counted, yet the second walk writes its header into the
  next slot, and keeps it if the chunk has bare 36 bytes. That slot can lie behind the array. Exactly when it does is
  said by `DrWavArena.ArenaExactly` and, chunk by chunk, `InBoundsExactly`; `DrWavOverrun.Overruns` is a file of the one
  kind, and `DrWavLongSampler.SmallLongFiles` one of the other.
* dr_wav writes files of the other kind: a smpl chunk with 24 bytes of sampler data or more is written but never read
  back (`DrWavLeafRoundTrip.SmplCounted`, `DrWavLongSampler.WrittenOpens`), and puts a slot outside the array when
  something else is read back but nothing behind it (`WrittenOpens`, `LongLast`).
* The reported number of metadata objects can exceed the number of those filled in, for instance for a cue chunk whose
  count does not fit its size (`DrWavArena.FilledExactly`, `DrWavHalfFilled.HalfFilled`).
* An empty INFO string, label or note is counted into the size its LIST declares but not written, so that the LIST
  overruns what follows; this is the only way the declared size is wrong (`DrWavMetadata.DeclaredSizeExact`,
  `ListFramed`). The file need not open again (`DrWavEmptyText.EmptyTitleRefused`).
* A RIFF data chunk that claims 0xFFFFFFFF bytes is measured by reading to the end of the stream. A comment promises
  that the stream is moved back; nothing does so, and the next read delivers nothing (`DrWavUnsized.StreamAtSamples`,
  `TwoFramesUnsized`, `ReadsNothing`).
* The predicted size of an RF64 file is clamped to 32 bits like that of a RIFF file (`DrWavWriter.PredictedSize`,
  `PredictedTooSmall`).
* Seeking more than 2 GiB through uncompressed data moves the stream correctly but can leave the frame cursor behind:
  each `int`-sized step counts its whole frames and forgets the rest (`DrWavReader.CursorExact`,
  `CursorFallsBehind`).
* Moving the ring buffer's read pointer overflows an `int` when twice the capacity does not fit one
  (`RingBuffer.DrainOverflows`: write N elements, read them, write N more, which `FullAtTheEnd` does, and skip them
  all).
* A float WAV header near the size limit has a RIFF size that has wrapped around, since the parameter check allows for
  the shorter PCM header; a frame of more than 65535 bytes has a wrapped block align (`WavHeader.RiffSizeExact`,
  `RiffSizeWraps`, `DerivedFieldsExact`, `BlockAlignWraps`). The reader recomputes both with the same truncation, so
  that the round trip holds all the same.
* The WAV header reader does not skip the padding byte behind an odd-sized chunk: it finds what stands behind a padded
  chunk if and only if the chunk has even size (`WavHeader.FoundBehindPadded`, `PaddingBeforeData`,
  `RefusedForPadding`).
* Moving a `BufferT` into itself empties it (`BufferT.BufferT.MoveFrom`).

## Model

| member | source | states |
|---|---|---|
| `DrWavStreams.MemoryReadStream.Read` | `example/dr_wav.h:5375-5394` | delivers the next bytes, fewer only at the end, and advances by what it delivered |
| `DrWavStreams.MemoryReadStream.Seek` | `example/dr_wav.h:5396-5423` | moves to the target, from the start or from here, exactly when it lies within the data; otherwise fails and stays |
| `DrWavStreams.MemoryReadStream.SeekForward` | `example/dr_wav.h:1960-1978` | a 64-bit forward seek made of `int` steps succeeds exactly when the target is within the data |
| `DrWavStreams.MemoryReadStream.SeekFromStart` | `example/dr_wav.h:1980-2006` | the same for an absolute target |
| `DrWavStreams.MemoryWriteStream.Write` | `example/dr_wav.h:5425-5463` | overwrites in place and extends at the end, never loses data when the block grows, and the block never exceeds twice the old one plus the write |
| `DrWavStreams.MemoryWriteStream.Seek` | `example/dr_wav.h:5465-5492` | a seek outside the written data stops at its nearer end |
| `DrWavStreams.OverwriteTwice` | `example/dr_wav.h:5425-5463` | two adjacent writes are one write of the concatenation, wherever they land |
| `DrWavStreams.OverwriteField` | `example/dr_wav.h:5425-5463` | patching a field by one of the same length leaves everything around it alone |
| `DrWavMetadata.PiecesConcat` | `example/dr_wav.h:3996-4358` | printing a concatenation of metadata lists, part by part, is concatenating what is printed |
| `DrWavMetadata.DeclaredPieceCovers` | `example/dr_wav.h:4159-4270` | the size declared for one object in a list is what is written for it, and is too large exactly when the object is skipped for its empty text |
| `DrWavMetadata.DeclaredSizeExact` | `example/dr_wav.h:4159-4358` | the size a LIST chunk declares equals the bytes of its body if and only if no object in it is skipped |
| `DrWavMetadata.FramedChunk` | `example/dr_wav.h:4007-4157` | a chunk whose size field holds the length of its body, padded to even length, is one well-framed chunk; what follows it is framed on its own |
| `DrWavMetadata.ListFramed` | `example/dr_wav.h:4159-4358` | a written LIST obeys the container rule (declared size, padding, nothing left over) exactly when none of its objects is skipped |
| `DrWavMetadata.ListBodyFramed` | `example/dr_wav.h:4181-4358` | inside a LIST every sub-chunk is framed and the sub-chunks fill the body |
| `DrWavMetadata.PrintFramed` | `example/dr_wav.h:3996-4358` | everything printed is a run of well-framed chunks of even total length, provided no listed object is skipped |
| `DrWavMetadataWriter.WriteTopLevels` | `example/dr_wav.h:3996-4157` | the first walk emits the top-level chunks and reports whether INFO and adtl objects occur |
| `DrWavMetadataWriter.DeclaredListSize` | `example/dr_wav.h:4159-4175` | the first loop over a list adds up the 32-bit size the LIST will declare |
| `DrWavMetadataWriter.WriteList` | `example/dr_wav.h:4159-4358` | a LIST is emitted with the size added up before |
| `DrWavMetadataWriter.WriteOrCountMetadata` | `example/dr_wav.h:3917-4358` | one walk either writes exactly the printed bytes at the write position or, without a stream, returns exactly how many that would be |
| `DrWavParser.MetadataParser.GetMemory` | `example/dr_wav.h:2089-2110` | aligns the arena cursor and advances it, noting whether it stays inside the arena sized by the first pass |
| `DrWavParser.MetadataParser.ReadSmplObject` | `example/dr_wav.h:2151-2213` | reads a smpl chunk as its specification says: header, loops and sampler data, or nothing on a short read or a wrong loop count |
| `DrWavParser.MetadataParser.ReadCueObject` | `example/dr_wav.h:2215-2267` | reads a cue chunk and its points likewise |
| `DrWavParser.MetadataParser.ReadInstObject` | `example/dr_wav.h:2269-2294` | reads an inst chunk |
| `DrWavParser.MetadataParser.ReadAcidObject` | `example/dr_wav.h:2296-2322` | reads an acid chunk |
| `DrWavParser.MetadataParser.ProcessText` | `example/dr_wav.h:2546-2613` | reads labl, note and ltxt chunks: a fixed part and optional text |
| `DrWavParser.MetadataParser.ProcessInfo` | `example/dr_wav.h:2615-2645` | counts or reads an INFO string |
| `DrWavParser.MetadataParser.ProcessUnknownChunk` | `example/dr_wav.h:2647-2683` | counts or reads a chunk nobody knows |
| `DrWavParser.MetadataParser.ProcessListItem` | `example/dr_wav.h:2840-2941` | one sub-chunk of a LIST: its header, its object, the seek to its end, or the early ends of the loop |
| `DrWavParser.MetadataParser.ProcessListChunk` | `example/dr_wav.h:2832-2941` | the loop over the sub-chunks of a LIST |
| `DrWavParser.MetadataParser.ProcessOneChunk` | `example/dr_wav.h:2690-2947` | one chunk in either pass, advancing stream and parser exactly as its specification |
| `DrWavLeafRoundTrip.SmplCounted` | `example/dr_wav.h:2695-2726` | the counting pass takes in a printed smpl chunk if and only if its sampler data is shorter than one loop (24 bytes); otherwise it passes over it |
| `DrWavLeafRoundTrip.ReadSmplBack` | `example/dr_wav.h:2151-2213` | reading a printed smpl chunk completes the same object within the memory counted for it |
| `DrWavLeafRoundTrip.ReadCueBack` | `example/dr_wav.h:2215-2267` | the same for a cue chunk |
| `DrWavLeafRoundTrip.ReadInstBack` | `example/dr_wav.h:2269-2294` | the same for an inst chunk, signed fields included |
| `DrWavLeafRoundTrip.ReadAcidBack` | `example/dr_wav.h:2296-2322` | the same for an acid chunk |
| `DrWavLeafRoundTrip.ReadTextBack` | `example/dr_wav.h:2546-2613` | the same for labl, note and ltxt chunks |
| `DrWavLeafRoundTrip.ReadInfoBack` | `example/dr_wav.h:2615-2645` | the same for an INFO string |
| `DrWavLeafRoundTrip.ReadUnknownBack` | `example/dr_wav.h:2647-2683` | the same for an unknown chunk |
| `DrWavLeafRoundTrip.CountTopLevel` | `example/dr_wav.h:2690-2790` | the counting pass over a printed top-level chunk adds one object and the memory it will need |
| `DrWavLeafRoundTrip.ReadTopLevel` | `example/dr_wav.h:2690-2790` | the reading pass over it completes that object within that memory |
| `DrWavLeafRoundTrip.CountSubchunk` | `example/dr_wav.h:2840-2941` | the counting pass over a printed sub-chunk adds one object and its memory |
| `DrWavLeafRoundTrip.ReadSubchunk` | `example/dr_wav.h:2840-2941` | the reading pass over it completes that object within that memory |
| `DrWavListRoundTrip.CountList` | `example/dr_wav.h:2832-2941` | counting a whole printed LIST adds exactly the objects that belong to it, in order |
| `DrWavListRoundTrip.ReadList` | `example/dr_wav.h:2832-2941` | reading it completes exactly those objects, in order, within the memory counted |
| `DrWavOpener.ReadHeader` | `example/dr_wav.h:1922-1958` | reads a chunk header of any of the containers: identifier, size, padding |
| `DrWavOpener.ChunkWalk.WalkFmt` | `example/dr_wav.h:3259-3338` | reads a fmt chunk, with its extension if it has one, and seeks past what is left of it by a distance cast to `int` |
| `DrWavOpener.ChunkWalk.WalkData` | `example/dr_wav.h:3341-3364` | notes the data chunk; stops there unless metadata may follow, and then skips it with its padding |
| `DrWavOpener.ChunkWalk.WalkFact` | `example/dr_wav.h:3366-3403` | takes the frame count of compressed formats from a fact chunk |
| `DrWavOpener.ChunkWalk.Walk` | `example/dr_wav.h:3226-3606` | any number of turns of the first walk leave the loop, or stay in it, as the specification says, for any data |
| `DrWavOpener.ReadOne` | `example/dr_wav.h:3651-3671` | one turn of the second walk: a chunk processed and the 64-bit seek to its end |
| `DrWavOpener.ReadAllMetadata` | `example/dr_wav.h:3651-3671` | any number of turns of the second walk, for any data |
| `DrWavOpener.OpenStreamWithin` | `example/dr_wav.h:3007-3809` | opening a stream, with both loops cut off after any number of turns, gives what the specification gives for so many turns |
| `DrWavOpener.OpenStream` | `example/dr_wav.h:3007-3809` | opening a stream, for any data at all, gives the outcome, the figures and the final stream position of the loops themselves, and says so when one of them never ends |
| `DrWavOpenSpec.ScanOn` | `example/dr_wav.h:3226-3606` | the first loop, defined by the turns in which it ends if it does, is one turn and then the loop |
| `DrWavOpenSpec.ReadOn` | `example/dr_wav.h:3651-3671` | the same for the second loop |
| `DrWavReturns.ScanHangsExactly` | `example/dr_wav.h:3226-3606` | the first walk never ends if and only if it comes back to a chunk header it has read: the same position and, with metadata wanted, the same lag between position and count of bytes read |
| `DrWavReturns.ScanDecided` | `example/dr_wav.h:3226-3606` | without metadata, one turn more than there are bytes decides whether it ends; with metadata, as many turns as there are places |
| `DrWavReturns.ReadHangsExactly` | `example/dr_wav.h:3651-3671` | the second walk never ends if and only if it comes back to a position |
| `DrWavReturns.ReadDecided` | `example/dr_wav.h:3651-3671` | one turn more than there are bytes decides it |
| `DrWavReturns.OpenDecided` | `example/dr_wav.h:3226-3671` | opening never comes to an end if and only if it has not after so many turns |
| `DrWavUnsized.StreamAtSamples` | `example/dr_wav.h:3674-3697` | for any file that opens, the stream stands at the samples if and only if the file is not a RIFF file (of less than 4 GiB) whose data size field reads 0xFFFFFFFF, or the data chunk has nothing in it; otherwise it stands at the end of the file |
| `DrWavUnsized.UnsizedFile` | `example/dr_wav.h:3684-3697` | every plain RIFF file whose data chunk claims 0xFFFFFFFF bytes opens with the true number of frames and the stream at its end |
| `DrWavUnsized.TwoFramesUnsized` | `example/dr_wav.h:3684-3697` | one such file of 48 bytes: two frames at 44, the stream at 48 |
| `DrWavUnsized.OpenAndRead` | `example/dr_wav.h:5743-5783` | opening and then reading delivers the frames asked for when the stream stands at the samples, and otherwise what stands where it is |
| `DrWavUnsized.ReadsNothing` | `example/dr_wav.h:3684-3697` | of an unsized file, opening and then reading delivers no frame at all |
| `DrWavEndless.FmtComesBack` | `example/dr_wav.h:3323-3327` | a fmt chunk with size field 0xFFFFFFF8 is followed by itself |
| `DrWavEndless.FmtHangs` | `example/dr_wav.h:3226-3338` | a file that begins with such a chunk hangs the opener, with metadata wanted or not |
| `DrWavEndless.ListComesBack` | `example/dr_wav.h:2919-2933` | a LIST of size 0xFFFFFFF8 whose first sub-chunk is unknown and has size 0xFFFFFFF0 is followed by itself in the second walk, with the parser unchanged |
| `DrWavEndless.ListHolds` | `example/dr_wav.h:3651-3671` | the second walk never ends once it meets such a LIST |
| `DrWavEndless.ListHangs` | `example/dr_wav.h:3643-3671` | any finished RIFF file with metadata and these sixteen bytes behind it: opening it with metadata never ends, opening it without gives what the file alone gives |
| `DrWavEndless.SmallListHangs` | `example/dr_wav.h:3643-3671` | one such file, with a title, an instrument and two frames |
| `DrWavUse.ListUses` | `example/dr_wav.h:2832-2941` | in a LIST of an orderly file both passes meet the same sub-chunks; how many are counted, how many filled and how many slots needed is what the list says, and the reading pass is in bounds exactly when there are so many |
| `DrWavUse.ChunkUses` | `example/dr_wav.h:2690-2947` | the same for every chunk of an orderly file, the sampler chunk with a wrong loop count included, whose header is written to a slot before the count is checked |
| `DrWavArena.WalksUse` | `example/dr_wav.h:3226-3671` | the same for both walks over a whole orderly file: fmt sizes from 16 to 0x7FFFFFFF, fact chunks that hold a count, LIST sub-chunks of at most 0x7FFFFFFF bytes |
| `DrWavArena.ArenaExactly` | `example/dr_wav.h:3007-3809` | every orderly file, whoever wrote it: opening ends; the reported number is what is counted, the filled objects are those taken, and all stays inside the arena if and only if nothing is counted or no more slots are needed than counted |
| `DrWavArena.InBoundsExactly` | `example/dr_wav.h:3643-3671` | where the counted objects are whole: in bounds if and only if nothing is counted, or no sampler chunk of bare 36 bytes claims loops and every longer one with a wrong loop count is followed by a counted object |
| `DrWavArena.OpensInBounds` | `example/dr_wav.h:3643-3671` | in particular in bounds, with metadata or without, when every sampler chunk has as many loops as its size says |
| `DrWavArena.FilledExactly` | `example/dr_wav.h:3673-3676` | the reported number of objects is the number of those filled if and only if every counted object is whole |
| `DrWavHalfFilled.HalfFilled` | `example/dr_wav.h:2215-2267` | a 28-byte cue chunk with a count of none: one object reported, none filled |
| `DrWavOrderlyFiles.WrittenOrderly` | `example/dr_wav.h:3996-4358` | every RIFF or RF64 file written from printable objects and long sampler data is orderly and whole; its sampler chunks all count if and only if no sampler data are long; its strays are followed if and only if the list says so |
| `DrWavLongSampler.WrittenOpens` | `example/dr_wav.h:3007-3809` | any such RIFF file opens with its metadata: everything but the long sampler objects comes back in its order, in bounds if and only if nothing comes back or each long sampler object is followed by something that does |
| `DrWavLongSampler.LongLast` | `example/dr_wav.h:2151-2213` | for a list that comes back whole and one long sampler object behind it: in bounds if and only if the list is empty or an INFO or adtl list follows |
| `DrWavLongSampler.SmallLongFiles` | `example/dr_wav.h:2151-2213` | an instrument and 24 bytes of sampler data: out of bounds in this order, in bounds in the other |
| `DrWavOverrun.Overruns` | `example/dr_wav.h:2151-2213` | a 36-byte smpl chunk that claims one loop, then an inst chunk: two objects in an array made for one |
| `DrWavEmptyText.EmptyTextRefused` | `example/dr_wav.h:4159-4358` | a file written with a single empty INFO string and at most eight bytes of samples is refused, with its metadata or without: the LIST swallows the header of the data chunk |
| `DrWavEmptyText.EmptyTitleRefused` | `example/dr_wav.h:4159-4358` | one such file of sixty bytes |
| `DrWavWalks.ScanTop` | `example/dr_wav.h:3226-3606` | the first walk passes over printed top-level chunks counting each one |
| `DrWavWalks.ScanPrint` | `example/dr_wav.h:3226-3606` | the first walk over all printed metadata counts its stable partition and ends right behind it |
| `DrWavWalks.ReadTop` | `example/dr_wav.h:3651-3671` | the second walk over printed top-level chunks completes each one |
| `DrWavWalks.ReadPrint` | `example/dr_wav.h:3651-3671` | the second walk over all printed metadata completes its stable partition (top level, INFO, adtl) within the memory counted |
| `DrWavFile.FileLayout` | `example/dr_wav.h:4449-4562` | where prologue, fmt chunk, metadata, data header, samples and padding stand in a file |
| `DrWavFile.PrologueBack` | `example/dr_wav.h:3030-3196` | reading the prologue of a RIFF, Wave64 or RF64 file gives back the container, and for RF64 the data size of its ds64 chunk |
| `DrWavFile.ScanFmtChunk` | `example/dr_wav.h:3259-3338` | the first walk reads a written fmt chunk back field by field |
| `DrWavOpenRoundTrip.ScanFile` | `example/dr_wav.h:3226-3606` | the first walk over a whole written file finds format, data position and size, and counts the metadata |
| `DrWavOpenRoundTrip.ReadFile` | `example/dr_wav.h:3643-3676` | the second walk over a written RIFF file completes every object; over an RF64 file in memory it fails at the data chunk |
| `DrWavOpenRoundTrip.OpenFile` | `example/dr_wav.h:3007-3809` | opening a written file succeeds exactly when the reader accepts the format and the metadata can be reached, and then gives back container, format fields, frame count, sample position and size, and a RIFF file's metadata as its stable partition, never leaving the arena sized in pass one |
| `DrWavOpenRoundTrip.SamplesInPlace` | `example/dr_wav.h:4540-4556` | the sample bytes stand where opening says they do |
| `DrWavWriter.DrwavWriter.constructor` | `example/dr_wav.h:4408-4562` | after opening for writing the stream holds the header with placeholder sizes and no samples |
| `DrWavWriter.DrwavWriter.WriteHeader` | `example/dr_wav.h:4449-4562` | writes prologue, fmt, metadata and data header one behind the other and returns the position of the samples |
| `DrWavWriter.DrwavWriter.WriteRaw` | `example/dr_wav.h:6023-6035` | appends the bytes and counts them |
| `DrWavWriter.DrwavWriter.WritePcmFrames` | `example/dr_wav.h:6037-6074` | appends exactly the bytes of the frames, in as many writes as it takes |
| `DrWavWriter.PatchRiffSize` | `example/dr_wav.h:5606-5636` | seeking back and overwriting the size field of a RIFF, Wave64 or RF64 prologue gives the same file with the new size and nothing else changed |
| `DrWavWriter.PatchDataSize` | `example/dr_wav.h:5606-5636` | the same for the data size, in the data header or the ds64 chunk |
| `DrWavWriter.DrwavWriter.Uninit` | `example/dr_wav.h:5577-5650` | after any sequence of writes, padding and two patches leave exactly the finished file: true sizes, the samples, the padding |
| `DrWavWriter.TargetWriteSizeBytes` | `example/dr_wav.h:4605-4624` | computes the predicted file size from a counting walk over the metadata |
| `DrWavWriter.PredictedSize` | `example/dr_wav.h:4360-4404` | the finished file has the predicted size if and only if the RIFF chunk fits its size field (RF64 included, whose prediction is clamped to 32 bits) |
| `DrWavWriter.PredictedTooSmall` | `example/dr_wav.h:4360-4404` | an RF64 file with 4 GiB of samples is 73 bytes larger than predicted |
| `DrWavRoundTrip.WriteThenOpen` | `example/dr_wav.h:3007-3809` | whatever format the writer accepted, tags beyond 16 bits included, reopening the finished file gives what the truncated format fields say |
| `DrWavRoundTrip.PortableFmt` | `example/dr_wav.h:2950-2973` | a format that fits the 16-bit fields, with whole bytes a sample, is stored without loss, accepted by the reader, and has the frame size of its block align |
| `DrWavRoundTrip.RoundTrip` | `example/dr_wav.h:5577-5650` | init_write, writes, uninit, init: the same container, format fields and frame count, the sample bytes in place, the metadata as its stable partition |
| `DrWavRoundTrip.ReadBack` | `example/dr_wav.h:5743-5783` | reading every frame from where opening puts the samples yields the sample bytes themselves |
| `DrWavRoundTrip.SmallRf64File` | `example/dr_wav.h:3643-3671` | the same list in an RF64 file: rejected when opened with metadata, opened with both frames without |
| `DrWavRoundTrip.SmallFile` | `example/dr_wav.h:3996-4358` | one concrete RIFF file to which the round trip applies: an INFO title given first and an inst chunk given second come back in the opposite order, with both frames |
| `DrWavReader.PcmReader.ReadRaw` | `example/dr_wav.h:5677-5739` | reads no more than remains, or passes over it when there is no buffer, and keeps position, counter and cursor in step |
| `DrWavReader.PcmReader.ReadPcmFrames` | `example/dr_wav.h:5743-5783` | delivers the next frames, or what is left, from where the stream really stands, even when the frame cursor has fallen behind |
| `DrWavReader.PcmReader.SeekToPcmFrame` | `example/dr_wav.h:5944-5985` | the stream ends up exactly at the clamped target frame; the cursor is what the `int`-sized steps add up to |
| `DrWavReader.CursorExact` | `example/dr_wav.h:5969-5982` | that sum is the number of frames skipped if and only if one step was enough or the frame size divides 0x7FFFFFFF |
| `DrWavReader.CursorFallsBehind` | `example/dr_wav.h:5969-5982` | a skip over 0x20000000 frames of four bytes counts one too few |
| `DrWavImaSpec.TakeSplit` | `example/dr_wav.h:6336-6492` | on any data, taking a frames and then b is taking a + b when the first a all came; when they did not, asking for more changes nothing |
| `DrWavImaSpec.ReadTwice` | `example/dr_wav.h:6336-6492` | the same for two calls of the reader |
| `DrWavIma.ImaDecoder.constructor` | `example/dr_wav.h:924-931` | the decoder starts with an empty cache, no block and a zeroed predictor |
| `DrWavIma.ImaDecoder.DecodeNibble` | `example/dr_wav.h:6453-6485` | one nibble moves predictor and step index of its channel as specified and stores the sample; step index stays in 0..88, the predictor in 16 bits |
| `DrWavIma.ImaDecoder.DecodeChannel` | `example/dr_wav.h:6444-6486` | four bytes fill one channel's column of the 16-slot cache and leave the other channel alone |
| `DrWavIma.ImaDecoder.LoadBlock` | `example/dr_wav.h:6366-6409` | a block header sets predictors, step indices, byte counter and first frame; a bad step index skips the block, a short read fails |
| `DrWavIma.ImaDecoder.LoadGroup` | `example/dr_wav.h:6435-6488` | four bytes of each channel fill the cache with eight frames; the byte counter wraps if the block was not whole |
| `DrWavIma.ImaDecoder.Deliver` | `example/dr_wav.h:6412-6426` | hands out the oldest cached frame |
| `DrWavIma.ImaDecoder.Read` | `example/dr_wav.h:6336-6492` | for any data, any state and any count the loop delivers the specified frames, leaves the specified state, and ends |
| `DrWavIma.ImaDecoder.SeekToFirstPcmFrame` | `example/dr_wav.h:5851-5876` | back to the start state |
| `DrWavIma.ImaDecoder.SeekToPcmFrame` | `example/dr_wav.h:5905-5943` | a seek, forwards by decoding in pieces of 2048 samples or backwards from the start, leaves the state of having taken exactly that many frames |
| `DrWavIma.CachedColumns` | `example/dr_wav.h:6469-6484` | the cache filled column by column is the eight frames of the group |
| `DrWavImaWhole.RefillInStep` | `example/dr_wav.h:6366-6488` | on whole blocks a refill never fails and never loses or reorders a pending frame |
| `DrWavImaWhole.TakeWhole` | `example/dr_wav.h:6336-6492` | from any reachable state on whole blocks, reading gives the next frames of the decoded file |
| `DrWavImaWhole.SeekThenRead` | `example/dr_wav.h:5905-5943` | seeking to n from anywhere and reading k gives frames n to n + k of the decoded file |
| `DrWavImaWhole.RunIsPlain` | `example/dr_wav.h:6336-6492` | any run of reads and seeks delivers what a plain sequence of frames with a cursor would |
| `DrWavImaWhole.Consumed` | `example/dr_wav.h:6363-6488` | when the last frame is out, the stream stands exactly at the end of the data |
| `DrWavImaWhole.DecodeAll` | `example/dr_wav.h:6336-6492` | reading everything delivers all frames and consumes exactly the data chunk |
| `DrWavImaWhole.GroupsPerChannel` | `example/dr_wav.h:6439-6486` | sample k of every frame of a block is channel k run over its own nibbles only, four bytes of every group, low nibble first |
| `DrWavImaTotal.BlocksCount` | `example/dr_wav.h:3757-3772` | how many frames whole blocks decode to |
| `DrWavImaTotal.TotalAtOpen` | `example/dr_wav.h:3757-3772` | the frame count computed at opening is the number of frames the blocks decode to, the last block possibly cut short after a group |
| `SwapQueueProof.SlotsApart` | `webrtc/rtc_base/swap_queue.h:139-186` | while both threads may touch their slot it is never the same slot |
| `SwapQueueProof.StepIndexed` | `webrtc/rtc_base/swap_queue.h:111-198` | every step keeps the indices, the count in 0..N, the ring equation and what the checks of calls under way rely on |
| `SwapQueueProof.StepContents` | `webrtc/rtc_base/swap_queue.h:111-198` | only the fetch_add, the fetch_sub and the exchange change the queue's items: append, drop the front, empty; what the fetch_sub removes is what the consumer holds |
| `SwapQueueProof.StepConserved` | `webrtc/rtc_base/swap_queue.h:145-186` | slots, hands and returned items together are the initial slots and what callers passed in: items are only swapped |
| `SwapQueueProof.Linearizable` | `webrtc/rtc_base/swap_queue.h:111-203` | after any interleaving from a fresh queue the log of calls is a legal history of a plain bounded queue whose items are now in the ring |
| `SwapQueueProof.Fifo` | `webrtc/rtc_base/swap_queue.h:130-203` | in a legal history, items inserted are items removed or dropped, in order, followed by the items there |
| `SwapQueueProof.FifoAlways` | `webrtc/rtc_base/swap_queue.h:111-203` | hence first in, first out on every interleaving |
| `SwapQueueProof.RingEquation` | `webrtc/rtc_base/swap_queue.h:115-198` | read index, announced consumer advance and count equal write index and announced producer advance modulo N |
| `SwapQueueProof.InsertNeverOverfills` | `webrtc/rtc_base/swap_queue.h:139-193` | on every run the count stays within N, below N when an insert adds to it, above 0 when a remove subtracts |
| `SwapQueueProof.ClearDuringInsert` | `webrtc/rtc_base/swap_queue.h:111-122` | a Clear between an Insert's swap and its fetch_add drops everything before that item and keeps the item |
| `SwapQueueProof.SizeIsLowerBound` | `webrtc/rtc_base/swap_queue.h:205-213` | after SizeAtLeast, whatever the producer does, the counted items stay at the front |
| `SwapQueueProof.VerifierKept` | `webrtc/rtc_base/swap_queue.h:124-133` | if the first slots and everything passed in satisfy the item verifier, so does everything in the ring and everything handed back |
| `SwapQueue.SwapQueue.constructor` | `webrtc/rtc_base/swap_queue.h:95-98` | a fresh queue of copies of the prototype |
| `SwapQueue.SwapQueue.InsertLoad` | `webrtc/rtc_base/swap_queue.h:139-142` | the load that refuses a full queue |
| `SwapQueue.SwapQueue.InsertSwap` | `webrtc/rtc_base/swap_queue.h:144-145` | the swap with the slot at the write index |
| `SwapQueue.SwapQueue.InsertAdd` | `webrtc/rtc_base/swap_queue.h:151-160` | the fetch_add; the old count was below N |
| `SwapQueue.SwapQueue.InsertBump` | `webrtc/rtc_base/swap_queue.h:154-159` | the write index moves on around the ring |
| `SwapQueue.SwapQueue.RemoveLoad` | `webrtc/rtc_base/swap_queue.h:180-183` | the load that refuses an empty queue |
| `SwapQueue.SwapQueue.RemoveSwap` | `webrtc/rtc_base/swap_queue.h:185-186` | the swap with the slot at the read index |
| `SwapQueue.SwapQueue.RemoveSub` | `webrtc/rtc_base/swap_queue.h:192-193` | the fetch_sub |
| `SwapQueue.SwapQueue.RemoveBump` | `webrtc/rtc_base/swap_queue.h:195-200` | the read index moves on around the ring |
| `SwapQueue.SwapQueue.ClearExchange` | `webrtc/rtc_base/swap_queue.h:115-116` | the exchange that resets the count |
| `SwapQueue.SwapQueue.ClearAdvance` | `webrtc/rtc_base/swap_queue.h:115-121` | the read index moves on by the old count |
| `SwapQueue.SwapQueue.Insert` | `webrtc/rtc_base/swap_queue.h:130-163` | a whole insert with the consumer stopped anywhere: inserted exactly when there was room, otherwise the argument is untouched |
| `SwapQueue.SwapQueue.Remove` | `webrtc/rtc_base/swap_queue.h:171-203` | a whole remove with the producer stopped anywhere: the front item exactly when there was one |
| `SwapQueue.SwapQueue.Clear` | `webrtc/rtc_base/swap_queue.h:111-122` | a whole Clear empties the queue |
| `FirSpec.OutputsSplit` | `webrtc/common_audio/fir_filter_c.cc:34-59` | cutting a chunk in two changes no output |
| `FirSpec.ChunkingIndependent` | `webrtc/common_audio/fir_filter_c.cc:34-59` | the outputs of a stream do not depend on where it was cut |
| `FirSpec.ImpulseResponse` | `webrtc/common_audio/fir_filter_c.cc:23-48` | the response to a unit impulse is the coefficients in order |
| `FirSpec.TapsAreConv` | `webrtc/common_audio/fir_filter_c.cc:28-48` | adding products oldest sample first with reversed coefficients is the causal convolution |
| `FirSpec.PaddedIsConv` | `webrtc/common_audio/fir_filter_sse.cc:35-45` | a row of history and input against reversed coefficients behind leading zeros is the convolution |
| `FirFilters.FIRFilterC.constructor` | `webrtc/common_audio/fir_filter_c.cc:23-32` | coefficients reversed, history zero |
| `FirFilters.FIRFilterC.FilterOne` | `webrtc/common_audio/fir_filter_c.cc:39-48` | the two inner loops add the products of the window that spans state and input |
| `FirFilters.FIRFilterC.UpdateState` | `webrtc/common_audio/fir_filter_c.cc:50-58` | both cases of the state update leave the last samples of the stream |
| `FirFilters.FIRFilterC.Filter` | `webrtc/common_audio/fir_filter_c.cc:34-59` | a chunk gives the convolution over everything seen so far and leaves the rest of the output alone |
| `FirFilters.FIRFilterSimd.constructor` | `webrtc/common_audio/fir_filter_sse.cc:24-45` | coefficients padded to a multiple of the lanes with leading zeros, longer history zero |
| `FirFilters.FIRFilterSimd.DotSse2` | `webrtc/common_audio/fir_filter_sse.cc:55-75` | four lane sums and their reduction are the sum of all products |
| `FirFilters.FIRFilterSimd.DotAvx2` | `webrtc/common_audio/fir_filter_avx2.cc:58-81` | eight lane sums and their reduction are the sum of all products |
| `FirFilters.FIRFilterSimd.DotNeon` | `webrtc/common_audio/fir_filter_neon.cc:54-66` | four lane sums and the pairwise reduction are the sum of all products |
| `FirFilters.FIRFilterSimd.ShiftState` | `webrtc/common_audio/fir_filter_sse.cc:78-79` | the memmove leaves the last samples of the stream in front |
| `FirFilters.FIRFilterSimd.Filter` | `webrtc/common_audio/fir_filter_sse.cc:47-80` | the vector filters put out exactly what the plain filter puts out, for chunks up to the maximum length |
| `RingBuffer.ReadThenStepBack` | `webrtc/common_audio/ring_buffer.c:177-212` | moving the read pointer by a count and back by what it moved restores the buffer |
| `RingBuffer.Stuffing` | `webrtc/common_audio/ring_buffer.c:177-212` | stepping back brings the newest history in front of the unread elements |
| `RingBuffer.WriteAppends` | `webrtc/common_audio/ring_buffer.c:143-175` | a write appends what fits to the unread elements and drops as much from the front of the history |
| `RingBuffer.WindowOfStream` | `webrtc/common_audio/ring_buffer.c:98-232` | over any run the buffer holds the last N elements accepted, and the reader stands where its moves have taken it in that stream |
| `RingBuffer.RingBuffer.constructor` | `webrtc/common_audio/ring_buffer.c:54-86` | a zeroed buffer, all of it history |
| `RingBuffer.RingBuffer.AvailableRead` | `webrtc/common_audio/ring_buffer.c:214-224` | the number of unread elements, wrapped or not |
| `RingBuffer.RingBuffer.AvailableWrite` | `webrtc/common_audio/ring_buffer.c:226-232` | the number of history elements |
| `RingBuffer.RingBuffer.GetBufferReadRegions` | `webrtc/common_audio/ring_buffer.c:25-52` | the one or two regions, one behind the other, are the next unread elements |
| `RingBuffer.RingBuffer.Read` | `webrtc/common_audio/ring_buffer.c:98-141` | delivers the oldest unread elements, in place or copied, and moves past them; nothing else of the destination changes |
| `RingBuffer.RingBuffer.Write` | `webrtc/common_audio/ring_buffer.c:143-175` | writes what fits, split at the end of the array or not, as the tape does |
| `RingBuffer.RingBuffer.MoveReadPtr` | `webrtc/common_audio/ring_buffer.c:177-212` | moves the boundary by the clamped count, both ways around the end |
| `RingBuffer.RingBuffer.HalfRangeFits` | `webrtc/common_audio/ring_buffer.c:182-200` | no intermediate read position exceeds an `int` while twice the capacity fits one |
| `RingBuffer.RingBuffer.DrainOverflows` | `webrtc/common_audio/ring_buffer.c:182-200` | a full buffer whose read position stands at the end can be drained in one move exactly when twice the capacity fits an `int` |
| `RingBuffer.FullAtTheEnd` | `webrtc/common_audio/ring_buffer.c:98-200` | writing N elements into a new buffer of N, reading them and writing N more leads there |
| `WavHeaderSpec.FourCCText` | `webrtc/common_audio/wav_header.cc:113-122` | comparing four-character codes as text is comparing them as packed numbers |
| `WavHeaderSpec.HeaderLength` | `webrtc/common_audio/wav_header.cc:79-111` | the headers are 44 and 58 bytes long |
| `WavHeader.FindPast` | `webrtc/common_audio/wav_header.cc:167-181` | the chunk search passes over any chunks with other identifiers |
| `WavHeader.FieldsHold` | `webrtc/common_audio/wav_header.cc:287-341` | accepted parameters survive every field they are stored in |
| `WavHeader.RoundTrip` | `webrtc/common_audio/wav_header.cc:375-439` | whatever the writer accepts comes back unchanged past any foreign chunks and with any RIFF size that is no smaller; only the data position changes |
| `WavHeader.HeaderRoundTrip` | `webrtc/common_audio/wav_header.cc:353-439` | reading a written header gives the parameters back, with the data right behind the header |
| `WavHeader.ReadWriteRead` | `webrtc/common_audio/wav_header.cc:353-439` | whatever file the reader accepts, writing its parameters again gives a header that reads the same |
| `WavHeader.RiffSizeExact` | `webrtc/common_audio/wav_header.cc:149-152` | the RIFF size is the true one exactly for PCM, or for float payloads of at most 2^32 - 51 bytes |
| `WavHeader.RiffSizeWraps` | `webrtc/common_audio/wav_header.cc:328-335` | parameters that the check accepts and whose RIFF size has wrapped around |
| `WavHeader.DerivedFieldsExact` | `webrtc/common_audio/wav_header.cc:154-162` | the byte rate never wraps for accepted parameters; the block align is true exactly when a frame fits 16 bits |
| `WavHeader.BlockAlignWraps` | `webrtc/common_audio/wav_header.cc:154-162` | accepted parameters for which the block align has wrapped |
| `WavHeader.FoundBehindPadded` | `webrtc/common_audio/wav_header.cc:167-181` | what stands behind a padded chunk is found there if and only if the chunk size is even; otherwise whatever is found lies further on |
| `WavHeader.FmtBehindPadded` | `webrtc/common_audio/wav_header.cc:167-181` | the same for a fmt chunk in either format, wherever and in however long a file |
| `WavHeader.PaddingBeforeData` | `webrtc/common_audio/wav_header.cc:375-439` | a file with a padded chunk before the data chunk comes back as written if and only if that chunk has even size |
| `WavHeader.RefusedForPadding` | `webrtc/common_audio/wav_header.cc:375-439` | a file that is refused for one byte of junk and its padding, and accepted, byte for byte as long, when the padding is declared as junk |
| `WavHeaderIo.FindWaveChunk` | `webrtc/common_audio/wav_header.cc:167-181` | the search loop finds the first chunk with the sought identifier, for any data, whether or not seeks may pass the end, and always ends |
| `WavHeaderIo.ReadFmtChunkData` | `webrtc/common_audio/wav_header.cc:183-201` | accepts a 16-byte fmt payload, or 18 bytes with a zero extension |
| `WavHeaderIo.ParseFields` | `webrtc/common_audio/wav_header.cc:410-438` | the fields are checked against one another and against the parameter check |
| `WavHeaderIo.ReadWavHeader` | `webrtc/common_audio/wav_header.cc:375-439` | the reader's outcome for any data, including the formats on which it stops the program |
| `WavHeaderIo.WriteWavHeader` | `webrtc/common_audio/wav_header.cc:203-373` | fills the first bytes of the buffer with the header exactly when the parameters pass the check and the format is PCM or float; otherwise leaves it alone |
| `RefCountProof.StepOrderly` | `webrtc/api/scoped_refptr.h:76-156` | every step of every operation keeps the operations under way consistent with the handles they use |
| `RefCountProof.StepObject` | `webrtc/rtc_base/ref_counter.h:25-52` | every step keeps, for every object, count = references, and its life in order: born, referenced, last reference dropped once, deleted by the thread that dropped it |
| `RefCountProof.TouchesLive` | `webrtc/api/ref_counted_base.h:23-30` | no step adds to, releases or deletes an object that is already deleted |
| `RefCountProof.HasOneRef` | `webrtc/rtc_base/ref_counter.h:54-66` | a count of one seen through an owning handle means that no other handle, operation or caller has a reference |
| `RefCountProof.NothingLeft` | `webrtc/api/scoped_refptr.h:100-103` | with all handles empty, threads idle and no reference owned by hand, every object has had its last reference dropped exactly once and is gone |
| `RefCountProof.EveryRun` | `webrtc/api/scoped_refptr.h:76-156` | all of this after any schedule of any number of threads, handles and objects |
| `ScopedRefptr.RefCounted.DecRef` | `webrtc/rtc_base/ref_counter.h:37-52` | reports the last reference dropped exactly when the count reaches zero |
| `ScopedRefptr.RefCounted.Release` | `webrtc/api/ref_counted_base.h:24-30` | deletes the object exactly on the last reference |
| `ScopedRefptr.ScopedRefptr.Copy` | `webrtc/api/scoped_refptr.h:83-86` | a copy adds one reference |
| `ScopedRefptr.ScopedRefptr.Move` | `webrtc/api/scoped_refptr.h:94-98` | a move takes the reference over without touching a count |
| `ScopedRefptr.ScopedRefptr.AssignRaw` | `webrtc/api/scoped_refptr.h:120-128` | adds the new reference before dropping the old one: self assignment through the only reference changes nothing |
| `ScopedRefptr.ScopedRefptr.MoveAssign` | `webrtc/api/scoped_refptr.h:139-142` | the temporary drops exactly the old reference; moving a handle into itself changes nothing |
| `ScopedRefptr.ScopedRefptr.Destroy` | `webrtc/api/scoped_refptr.h:100-103` | drops the reference |
| `BufferT.AmortisedGrowth` | `webrtc/rtc_base/buffer.h:358-380` | over any run of requests with headroom, elements copied stay within three times the capacity, and the capacity within three halves of the larger of the first one and the largest request |
| `BufferT.ExactGrowthIsQuadratic` | `webrtc/rtc_base/buffer.h:332-339` | without the headroom appending one by one copies n(n-1)/2 elements |
| `BufferT.BufferT.EnsureCapacityWithHeadroom` | `webrtc/rtc_base/buffer.h:358-380` | keeps the contents, grows as the cost model says, and hands back only zeroed blocks if so asked |
| `BufferT.BufferT.AppendData` | `webrtc/rtc_base/buffer.h:261-269` | appends; unused memory stays free of the caller's data |
| `BufferT.BufferT.SetData` | `webrtc/rtc_base/buffer.h:207-215` | replaces the contents and zeroes what they used to reach |
| `BufferT.BufferT.AppendWith` | `webrtc/rtc_base/buffer.h:293-317` | appends what the setter wrote |
| `BufferT.BufferT.SetWith` | `webrtc/rtc_base/buffer.h:232-254` | replaces the contents by what the setter wrote |
| `BufferT.BufferT.SetSize` | `webrtc/rtc_base/buffer.h:319-330` | truncates or grows, keeping the common part; the grown part holds none of the caller's old data |
| `BufferT.BufferT.Clear` | `webrtc/rtc_base/buffer.h:341-347` | empties the buffer at the same capacity, all of it zeroed if so asked |
| `BufferT.BufferT.Destroy` | `webrtc/rtc_base/buffer.h:118` | the last block is handed back zeroed |
| `BufferT.BufferT.MoveFrom` | `webrtc/rtc_base/buffer.h:154-164` | takes over the block, hands back its own zeroed; moving a buffer into itself loses the contents |
| `TimeUtils.TimestampWrapAroundHandler.Unwrap` | `webrtc/rtc_base/time_utils.cc:238-255` | the method is its specification on the handler's state |
| `TimeUtils.UnwrapExact` | `webrtc/rtc_base/time_utils.cc:238-255` | one step returns the true timestamp if and only if it is near enough in the direction it lies, as spelled out |
| `TimeUtils.WindowFollows` | `webrtc/rtc_base/time_utils.cc:238-255` | less than 0x10000000 either way is always near enough |
| `TimeUtils.WindowIsSharp` | `webrtc/rtc_base/time_utils.cc:238-255` | and no wider window is |
| `TimeUtils.UnwrapRun` | `webrtc/rtc_base/time_utils.cc:235-255` | on every run within that window the true timestamps are returned |
| `TimeUtils.NextDayNumber` | `webrtc/rtc_base/time_utils.cc:281-293` | the day after a date has the next day number, across months, leap years and years |
| `TimeUtils.DaysCounted` | `webrtc/rtc_base/time_utils.cc:281-293` | the day number of the n-th day counted one by one is n |
| `TimeUtils.DateReached` | `webrtc/rtc_base/time_utils.cc:281-293` | every valid date from 1970 on is reached by counting |
| `TimeUtils.SecondsCounted` | `webrtc/rtc_base/time_utils.cc:257-301` | the seconds are those of the days counted one by one, and -1 exactly for what is no valid time since 1970 |
| `TimeUtils.SecondsArePosix` | `webrtc/rtc_base/time_utils.cc:257-301` | the formula of section 4.16 of the POSIX.1-2017 Base Definitions |
| `TimeUtils.SecondsOrdered` | `webrtc/rtc_base/time_utils.cc:257-301` | one time is earlier than another if and only if it has fewer seconds |

## Left out

dr_wav

- AIFF and RIFX files are recognised and answered with an outcome of their own; what the code does with them is not modelled.
- DrWavOpener.ChunkWalk.Walk: answers a bext chunk, when metadata is wanted, with an outcome that stands for "outside this model"; writing, counting and reading bext is not modelled.
- DrWavOpener.ReadOne: does the same, and so do DrWavOpener.ReadAllMetadata and DrWavOpener.OpenStreamWithin.
- DrWavOpener.OpenStream: answers a file with a bext chunk, when metadata is wanted, and AIFF and RIFX files with that outcome.
- DrWavParser.MetadataParser.ProcessOneChunk: passes over a bext chunk.
- DrWavRoundTrip.WriteThenOpen: leaves out lists with empty strings and long sampler data; `DrWavLongSampler.WrittenOpens` is about the latter.
- DrWavOpener.ReadAllMetadata: the loops of the code, which need not end, are run for any number of turns; what an endless walk would write behind the arena is not modelled.
- DrWavOpenRoundTrip.OpenFile: leaves out RF64 files with 4 GiB of samples or more when metadata is wanted, because the first walk then goes on inside the samples.
- DrWavUnsized.StreamAtSamples: leaves out RIFF files of 4 GiB and more, in which the count of bytes read can come to differ from the stream position without leaving the file.
- Sequential writing, chunk callbacks, files and wide-character paths, allocation callbacks and failing allocations.
- MS ADPCM decoding, and the conversions between sample formats (A-law, mu-law, float and so on).
- Sizes of `size_t` and 64-bit wrap-around outside the size fields and the count of bytes read. Casts to `int` wrap around, as they do on every common compiler.
- Objects that the reading pass leaves half filled are a slot marked incomplete; what bytes it holds is not modelled.
- The printed lists of the round trips exclude what the findings above show not to survive: empty strings, long sampler data, unknown chunks whose identifiers clash with known ones, and chunks too large for their size fields.
- DrWavWriter.TargetWriteSizeBytes: computes the data size with integers, where the code multiplies in a double.
- DrWavWriter.DrwavWriter.Uninit: asks for a header below 2 GiB, because the code casts the position of the data size field to `int`.
- DrWavIma.ImaDecoder.SeekToPcmFrame: asks for the same of the data position, as does DrWavReader.PcmReader.SeekToPcmFrame; output samples are listed frame by frame, and the output pointer is not modelled.

WebRTC

- Weak memory orders in SwapQueue and RefCounter: every atomic step is sequentially consistent.
- SwapQueue with size 0, which its own checks forbid.
- Floating-point rounding in the filters: samples and coefficients are exact reals. Aligned and unaligned loads are the same load. The input of a filter never overlaps its output.
- FirFilters.FIRFilterSimd: one class stands for the SSE2, AVX2 and NEON filters, whose source differs only in lane count, instructions and final reduction.
- RingBuffer.RingBuffer.MoveReadPtr: asks that the read position fits an `int` before it is wrapped, and so does RingBuffer.RingBuffer.Read; when it does not is said by `DrainOverflows`.
- RingBuffer elements have no size in bytes; a read in place returns a position where the code returns a pointer.
- WavReader and WavWriter on top of the header code; A-law and mu-law headers, on which the writer stops the program.
- Signed overflow of `int` and `long` fields outside the cases named above (years beyond the range of `int`, reference counts beyond 2^31).
- Reference counting through raw pointers that no handle owns, other than those that `release()` hands out; conversions between handle types.
- BufferT comparison and iteration, overlap between a buffer and the data it is given, the state of a moved-from buffer in debug builds, and BufferT.BufferT.EnsureCapacity, whose exact growth the amortised bound does not cover.
- real_fourier, resamplers, audio_converter, channel buffers, smoothing filters, logging, tracing, threads and events.
