/** drwav__metadata_parser and drwav__metadata_process_chunk as they run: reads and seeks on the
    stream, sums in the counting stage, slots and arena memory in the reading stage. Every method
    does to the object what the function of DrWavParserSpec says. */
module DrWavParser {
  import opened Bytes
  import opened DrWavMetadata
  import opened DrWavStreams
  import opened DrWavParserSpec

  class MetadataParser {
    const stream: MemoryReadStream
    const arena: Arena
    var stage: Stage
    var metadataCount: nat
    var extraCapacity: nat
    var slots: seq<Slot>
    var dataCursor: nat
    var inBounds: bool

    constructor (stream: MemoryReadStream, arena: Arena)
      ensures this.stream == stream && this.arena == arena
      ensures Snapshot() == Parser(CountStage, 0, 0, arena, [], 0, true)
    {
      this.stream := stream;
      this.arena := arena;
      stage, metadataCount, extraCapacity, slots, dataCursor, inBounds := CountStage, 0, 0, [], 0, true;
    }

    function Snapshot(): Parser
      reads this
    {
      Parser(stage, metadataCount, extraCapacity, arena, slots, dataCursor, inBounds)
    }

    method GetMemory(size: nat, align: nat)
      modifies this
      ensures Snapshot() == old(Snapshot()).GetMemory(size, align)
    {
      if align > 0 {
        var modulo := dataCursor % align;
        if modulo != 0 {
          dataCursor := dataCursor + (align - modulo);
        }
      }
      dataCursor := dataCursor + size;
      inBounds := inBounds && dataCursor <= arena.start + (arena.objectBytes * metadataCount + extraCapacity);
    }

    method RequestExtra(bytes: nat, align: nat)
      modifies this
      ensures Snapshot() == old(Snapshot()).RequestExtra(bytes, align)
    {
      extraCapacity := extraCapacity + (bytes + if align > 0 then align - 1 else 0);
    }

    method TouchSlot()
      modifies this`inBounds
      ensures Snapshot() == old(Snapshot()).TouchSlot()
    {
      inBounds := inBounds && |slots| < metadataCount;
    }

    method Count()
      modifies this`metadataCount
      ensures Snapshot() == old(Snapshot()).Counted()
    {
      metadataCount := metadataCount + 1;
    }

    method AcceptIf(accepted: bool, slot: Slot)
      modifies this`slots
      ensures Snapshot() == old(Snapshot()).AcceptIf(accepted, slot)
    {
      if accepted {
        slots := slots + [slot];
      }
    }

    /** The object and its stream are where the function's step says. */
    ghost predicate After(s: Step, bytesRead: nat)
      reads this, stream
    {
      stream.Valid() && Snapshot() == s.p && stream.currentReadPos == s.pos && bytesRead == s.bytesRead
    }

    // ---------- smpl and cue ----------

    method ReadLoopArray(count: nat) returns (loops: seq<SmplLoop>, bytesRead: nat)
      requires stream.Valid()
      modifies stream
      ensures stream.Valid()
      ensures (loops, bytesRead) == ReadLoops(stream.data, old(stream.currentReadPos), count)
      ensures stream.currentReadPos == old(stream.currentReadPos) + bytesRead
    {
      hide LoopFrom;
      loops, bytesRead := [], 0;
      ghost var all := ReadLoops(stream.data, stream.currentReadPos, count).0;
      assert [] + all == all;
      var i := 0;
      while i < count
        invariant 0 <= i <= count && stream.Valid()
        invariant stream.currentReadPos == old(stream.currentReadPos) + bytesRead
        invariant ReadLoops(stream.data, old(stream.currentReadPos), count)
               == var rest := ReadLoops(stream.data, stream.currentReadPos, count - i);
                  (loops + rest.0, bytesRead + rest.1)
      {
        ghost var rest := ReadLoops(stream.data, stream.currentReadPos, count - i).0;
        var b := stream.Read(SMPL_LOOP_BYTES);
        bytesRead := bytesRead + |b|;
        if |b| == SMPL_LOOP_BYTES {
          assert loops + rest == loops + [LoopFrom(b)] + rest[1..];
          loops := loops + [LoopFrom(b)];
        } else {
          assert loops + rest == loops;
          return;
        }
        i := i + 1;
      }
      assert loops + [] == loops;
    }

    method ReadPointArray(count: nat) returns (points: seq<CuePoint>, bytesRead: nat)
      requires stream.Valid()
      modifies stream
      ensures stream.Valid()
      ensures (points, bytesRead) == ReadPoints(stream.data, old(stream.currentReadPos), count)
      ensures stream.currentReadPos == old(stream.currentReadPos) + bytesRead
    {
      hide PointFrom;
      points, bytesRead := [], 0;
      ghost var all := ReadPoints(stream.data, stream.currentReadPos, count).0;
      assert [] + all == all;
      var i := 0;
      while i < count
        invariant 0 <= i <= count && stream.Valid()
        invariant stream.currentReadPos == old(stream.currentReadPos) + bytesRead
        invariant ReadPoints(stream.data, old(stream.currentReadPos), count)
               == var rest := ReadPoints(stream.data, stream.currentReadPos, count - i);
                  (points + rest.0, bytesRead + rest.1)
      {
        ghost var rest := ReadPoints(stream.data, stream.currentReadPos, count - i).0;
        var b := stream.Read(CUE_POINT_BYTES);
        bytesRead := bytesRead + |b|;
        if |b| == CUE_POINT_BYTES {
          assert points + rest == points + [PointFrom(b)] + rest[1..];
          points := points + [PointFrom(b)];
        } else {
          assert points + rest == points;
          return;
        }
        i := i + 1;
      }
      assert points + [] == points;
    }

    method ReadSmplObject(size: nat) returns (totalBytesRead: nat)
      requires stream.Valid() && SMPL_BYTES <= size
      modifies this, stream
      ensures After(ReadSmpl(stream.data, old(stream.currentReadPos), old(Snapshot()), size), totalBytesRead)
    {
      hide U32At, LoopFrom, ReadLoops, SmplHeaderFrom;
      var h := stream.Read(SMPL_BYTES);
      totalBytesRead := |h|;
      if |h| < SMPL_BYTES {
        return;
      }
      TouchSlot();
      var slot := Incomplete;
      var loopCount, dataSize := U32At(h, 28), U32At(h, 32);
      if loopCount == (size - SMPL_BYTES) / SMPL_LOOP_BYTES {
        GetMemory(LOOP_OBJECT_BYTES * loopCount, METADATA_ALIGNMENT);
        var loops, loopBytes := ReadLoopArray(loopCount);
        totalBytesRead := totalBytesRead + loopBytes;
        var s := [];
        if dataSize > 0 {
          GetMemory(dataSize, 1);
          s := stream.Read(dataSize);
          totalBytesRead := totalBytesRead + |s|;
        }
        if |loops| == loopCount && |s| == dataSize {
          slot := Complete(Smpl(SmplHeaderFrom(h), loops, s));
        }
      }
      AcceptIf(totalBytesRead == size, slot);
    }

    method CountSmplObject(size: nat) returns (bytesRead: nat)
      requires stream.Valid() && SMPL_BYTES <= size
      modifies this, stream
      ensures After(CountSmpl(stream.data, old(stream.currentReadPos), old(Snapshot()), size), bytesRead)
    {
      hide U32At;
      bytesRead := 0;
      var ok := stream.Seek(28, FromCurrent);
      if !ok { return; }
      bytesRead := bytesRead + 28;
      var buffer := stream.Read(4);
      bytesRead := bytesRead + |buffer|;
      if |buffer| == 4 {
        var loopCount := U32At(buffer, 0);
        var calculatedLoopCount := (size - SMPL_BYTES) / SMPL_LOOP_BYTES;
        if calculatedLoopCount == loopCount {
          buffer := stream.Read(4);
          bytesRead := bytesRead + |buffer|;
          if |buffer| == 4 {
            Count();
            RequestExtra(LOOP_OBJECT_BYTES * loopCount, METADATA_ALIGNMENT);
            RequestExtra(U32At(buffer, 0), 1);
          }
        }
      }
    }

    method ReadCueObject(size: nat) returns (totalBytesRead: nat)
      requires stream.Valid() && CUE_BYTES <= size
      modifies this, stream
      ensures After(ReadCue(stream.data, old(stream.currentReadPos), old(Snapshot()), size), totalBytesRead)
    {
      hide U32At, PointFrom, ReadPoints;
      var h := stream.Read(CUE_BYTES);
      totalBytesRead := |h|;
      if |h| < CUE_BYTES {
        return;
      }
      TouchSlot();
      var slot := Incomplete;
      var count := U32At(h, 0);
      if count == (size - CUE_BYTES) / CUE_POINT_BYTES {
        GetMemory(CUE_POINT_OBJECT_BYTES * count, METADATA_ALIGNMENT);
        var points, pointBytes := ReadPointArray(count);
        totalBytesRead := totalBytesRead + pointBytes;
        if |points| == count {
          slot := Complete(Cue(points));
        }
      }
      AcceptIf(totalBytesRead == size, slot);
    }

    // ---------- fixed-size chunks ----------

    method ReadInstObject() returns (bytesRead: nat)
      requires stream.Valid()
      modifies this, stream
      ensures After(ReadInst(stream.data, old(stream.currentReadPos), old(Snapshot())), bytesRead)
    {
      var b := stream.Read(INST_BYTES);
      bytesRead := |b|;
      if |b| == INST_BYTES {
        TouchSlot();
        AcceptIf(true, Complete(InstFrom(b)));
      }
    }

    method ReadAcidObject() returns (bytesRead: nat)
      requires stream.Valid()
      modifies this, stream
      ensures After(ReadAcid(stream.data, old(stream.currentReadPos), old(Snapshot())), bytesRead)
    {
      hide U32At, U16At;
      var b := stream.Read(ACID_BYTES);
      bytesRead := |b|;
      if |b| == ACID_BYTES {
        TouchSlot();
        AcceptIf(true, Complete(AcidFrom(b)));
      }
    }

    // ---------- strings and unknown chunks ----------

    method ProcessText(size: nat, fixed: nat, make: (seq<byte>, seq<byte>) -> Metadata) returns (totalBytesRead: nat)
      requires stream.Valid()
      modifies this, stream
      ensures After(ProcessTextChunk(stream.data, old(stream.currentReadPos), old(Snapshot()), size, fixed, make),
                    totalBytesRead)
    {
      totalBytesRead := 0;
      if size < fixed {
        return;
      }
      if stage == CountStage {
        Count();
        RequestExtra(size - fixed, 1);
        return;
      }
      var b := stream.Read(fixed);
      totalBytesRead := |b|;
      if |b| < fixed {
        return;
      }
      TouchSlot();
      var n := size - fixed;
      if n > 0 {
        GetMemory(n, 1);
        var s := stream.Read(n);
        totalBytesRead := totalBytesRead + |s|;
        AcceptIf(totalBytesRead == size, if |s| == n then Complete(make(b, s[..n - 1])) else Incomplete);
      } else {
        AcceptIf(true, Complete(make(b, [])));
      }
    }

    method ProcessInfo(size: nat, kind: InfoKind) returns (bytesRead: nat)
      requires stream.Valid()
      modifies this, stream
      ensures After(ProcessInfoText(stream.data, old(stream.currentReadPos), old(Snapshot()), size, kind), bytesRead)
    {
      bytesRead := 0;
      if stage == CountStage {
        Count();
        RequestExtra(size, 1);
        return;
      }
      TouchSlot();
      if size > 0 {
        GetMemory(size, 1);
        var s := stream.Read(size);
        bytesRead := |s|;
        AcceptIf(bytesRead == size, if |s| == size then Complete(InfoText(kind, s[..size - 1])) else Incomplete);
      } else {
        AcceptIf(true, Complete(InfoText(kind, [])));
      }
    }

    method ProcessUnknownChunk(id: FourCC, size: nat, location: Location) returns (bytesRead: nat)
      requires stream.Valid()
      modifies this, stream
      ensures After(ProcessUnknown(stream.data, old(stream.currentReadPos), old(Snapshot()), id, size, location),
                    bytesRead)
    {
      bytesRead := 0;
      if location == InvalidLocation {
        return;
      }
      if id == ID_DATA || id == ID_FMT || id == ID_FACT {
        return;
      }
      if stage == CountStage {
        Count();
        RequestExtra(size, 1);
        return;
      }
      TouchSlot();
      GetMemory(size, 1);
      var s := stream.Read(size);
      bytesRead := |s|;
      AcceptIf(bytesRead == size, Complete(Unknown(id, location, s)));
    }

    // ---------- lists and dispatch ----------

    method ProcessSub(id: FourCC, size: u32, listType: Location) returns (bytesRead: nat)
      requires stream.Valid()
      modifies this, stream
      ensures After(ProcessSubchunk(stream.data, old(stream.currentReadPos), old(Snapshot()), id, size, listType),
                    bytesRead)
    {
      hide ProcessTextChunk, ProcessInfoText, ProcessUnknown, MakeLabel, MakeRegion, InfoKindOf;
      if id == ID_LABL {
        bytesRead := ProcessText(size, LABEL_OR_NOTE_BYTES, MakeLabel(LabelText));
      } else if id == ID_NOTE {
        bytesRead := ProcessText(size, LABEL_OR_NOTE_BYTES, MakeLabel(NoteText));
      } else if id == ID_LTXT {
        bytesRead := ProcessText(size, LABELLED_TEXT_BYTES, MakeRegion());
      } else if InfoKindOf(id).0 {
        bytesRead := ProcessInfo(size, InfoKindOf(id).1);
      } else {
        bytesRead := ProcessUnknownChunk(id, size, listType);
      }
    }

    /** A subchunk, the part of it left unread, and its padding; false leaves the list. */
    method ProcessTurn(id: FourCC, subSize: u32, listType: Location) returns (goOn: bool, bytesRead: nat)
      requires stream.Valid()
      modifies this, stream
      ensures stream.Valid()
      ensures Turn(goOn, stream.currentReadPos, Snapshot(), bytesRead)
           == SubchunkTurn(stream.data, old(stream.currentReadPos), old(Snapshot()), id, subSize, listType)
    {
      hide ProcessSubchunk;
      bytesRead := ProcessSub(id, subSize, listType);
      if bytesRead < subSize {
        var bytesToSeek := subSize - bytesRead;
        goOn := stream.Seek(ToInt32(bytesToSeek), FromCurrent);
        if !goOn { return; }
        bytesRead := bytesRead + bytesToSeek;
      }
      if subSize % 2 == 1 {
        goOn := stream.Seek(1, FromCurrent);
        if !goOn { return; }
        bytesRead := bytesRead + 1;
      }
      goOn := true;
    }

    /** One turn of the list loop: a list tag, or a subchunk. */
    method ProcessListItem(listType: Location, bytesSoFar: nat)
      returns (goOn: bool, nextType: Location, bytesRead: nat)
      requires stream.Valid()
      modifies this, stream
      ensures stream.Valid()
      ensures Item(goOn, stream.currentReadPos, Snapshot(), nextType, bytesRead)
           == ListItem(stream.data, old(stream.currentReadPos), old(Snapshot()), listType, bytesSoFar)
    {
      hide U32At, SubchunkTurn;
      goOn, nextType, bytesRead := true, listType, bytesSoFar;
      var subchunkId := stream.Read(4);
      bytesRead := bytesRead + |subchunkId|;
      if |subchunkId| < 4 { goOn := false; return; }
      var id := U32At(subchunkId, 0);
      if id == ID_ADTL {
        nextType := InsideAdtlList;
        return;
      } else if id == ID_INFO {
        nextType := InsideInfoList;
        return;
      }
      var sizeBuffer := stream.Read(4);
      bytesRead := bytesRead + |sizeBuffer|;
      if |sizeBuffer| < 4 { goOn := false; return; }
      var turnBytes;
      goOn, turnBytes := ProcessTurn(id, U32At(sizeBuffer, 0), listType);
      bytesRead := bytesRead + turnBytes;
    }

    method ProcessListChunk(size: nat) returns (bytesRead: nat)
      requires stream.Valid()
      modifies this, stream
      ensures After(ProcessList(stream.data, old(stream.currentReadPos), old(Snapshot()), InvalidLocation, 0, size),
                    bytesRead)
    {
      hide ListItem;
      bytesRead := 0;
      var listType := InvalidLocation;
      ghost var outcome := ProcessList(stream.data, stream.currentReadPos, Snapshot(), listType, 0, size);
      while bytesRead < size
        invariant stream.Valid()
        invariant outcome == ProcessList(stream.data, stream.currentReadPos, Snapshot(), listType, bytesRead, size)
        decreases size - bytesRead
      {
        var goOn;
        goOn, listType, bytesRead := ProcessListItem(listType, bytesRead);
        if !goOn { return; }
      }
    }

    /** drwav__metadata_process_chunk. */
    method ProcessOneChunk(id: FourCC, size: nat) returns (bytesRead: nat)
      requires stream.Valid()
      modifies this, stream
      ensures After(ProcessChunk(stream.data, old(stream.currentReadPos), old(Snapshot()), id, size), bytesRead)
    {
      hide CountSmpl, ReadSmpl, CountCue, ReadCue, ReadInst, ReadAcid, ProcessList, ProcessUnknown;
      bytesRead := 0;
      if id == ID_SMPL {
        if size >= SMPL_BYTES {
          if stage == CountStage {
            bytesRead := CountSmplObject(size);
          } else {
            bytesRead := ReadSmplObject(size);
          }
        }
      } else if id == ID_INST {
        if size == INST_BYTES {
          if stage == CountStage {
            Count();
          } else {
            bytesRead := ReadInstObject();
          }
        }
      } else if id == ID_ACID {
        if size == ACID_BYTES {
          if stage == CountStage {
            Count();
          } else {
            bytesRead := ReadAcidObject();
          }
        }
      } else if id == ID_CUE {
        if size >= CUE_BYTES {
          if stage == CountStage {
            bytesRead := CountCueObject(size);
          } else {
            bytesRead := ReadCueObject(size);
          }
        }
      } else if id == ID_BEXT {
      } else if id == ID_LIST || id == ID_list {
        bytesRead := ProcessListChunk(size);
      } else {
        bytesRead := ProcessUnknownChunk(id, size, TopLevel);
      }
    }

    method CountCueObject(size: nat) returns (bytesRead: nat)
      requires stream.Valid() && CUE_BYTES <= size
      modifies this
      ensures After(CountCue(old(stream.currentReadPos), old(Snapshot()), size), bytesRead)
    {
      bytesRead := 0;
      Count();
      var cueCount := (size - CUE_BYTES) / CUE_POINT_BYTES;
      RequestExtra(CUE_POINT_OBJECT_BYTES * cueCount, METADATA_ALIGNMENT);
    }

    /** drwav__metadata_alloc, and the switch to the reading stage. */
    method Allocate()
      modifies this
      ensures Snapshot() == StartReading(old(Snapshot()))
    {
      slots := [];
      dataCursor := arena.start;
      GetMemory(arena.objectBytes * metadataCount, 1);
      stage := ReadStage;
    }
  }
}
