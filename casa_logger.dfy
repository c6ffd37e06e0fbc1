/**
 * The rotating request log (`CasaLogger`).
 *
 * The log directory is a map from file slot to bytes: `Active` is `casa.log`,
 * `Rotated(k)` is `casa.log.k`; a slot is present exactly when the file exists.
 * Each write first rotates when the active file has reached `maxFileSize`,
 * then appends one JSON line and advances a wrapping revision counter.
 * JSON encoding and the timestamp are inputs: `encode` stands for
 * `JSONEncoder().encode` and may fail.
 */
module CasaLogger {
  import opened Wrappers
  import Decimal

  type Byte = b: int | 0 <= b < 0x100
  type Bytes = seq<Byte>

  const Newline: Byte := 0x0A

  const DefaultMaxFileSize := 1_000_000
  const DefaultMaxFiles := 5

  /** Swift `Int` (64 bits). */
  type Int64 = x: int | -0x8000_0000_0000_0000 <= x < 0x8000_0000_0000_0000

  datatype LogEntry = LogEntry(timestamp: string, level: string, message: string, metadata: map<string, string>)

  /** A file of the log directory. */
  datatype Slot = Active | Rotated(index: int)

  type Directory = map<Slot, Bytes>

  function Lookup(d: Directory, s: Slot): Option<Bytes> {
    if s in d then Some(d[s]) else None
  }

  /** Size the rotation check sees: a missing active file counts as empty. */
  function ActiveSize(d: Directory): nat {
    if Active in d then |d[Active]| else 0
  }

  /** `revision &+= 1` on a 64-bit Int. */
  function WrappingIncrement(r: Int64): (r': Int64)
    ensures (r' - r) % 0x1_0000_0000_0000_0000 == 1
    ensures r' > r || r' == -0x8000_0000_0000_0000
  {
    if r == 0x7FFF_FFFF_FFFF_FFFF then -0x8000_0000_0000_0000 else r + 1
  }

  // ---------------------------------------------------------------------
  // Rotation, specified slot by slot

  /**
   * What slot s holds once the directory d has been rotated with `maxFiles`:
   * the active file is gone, `casa.log.1` holds the old active content,
   * `casa.log.j` (2 <= j <= maxFiles) holds the old `casa.log.(j-1)` when that
   * existed; below maxFiles an index whose predecessor was missing ends empty,
   * while `casa.log.maxFiles` then keeps its old content. Every other slot is untouched.
   */
  function RotatedSlot(d: Directory, maxFiles: int, s: Slot): Option<Bytes> {
    match s
    case Active => None
    case Rotated(j) =>
      if j == 1 then Lookup(d, Active)
      else if 2 <= j <= maxFiles && Rotated(j - 1) in d then Some(d[Rotated(j - 1)])
      else if 2 <= j < maxFiles then None
      else Lookup(d, s)
  }

  /** Every slot that can be present after a rotation of d. */
  function RotationCandidates(d: Directory, maxFiles: int): set<Slot> {
    d.Keys + {Rotated(1)} + if maxFiles > 0 then IndexRange(maxFiles) else {}
  }

  /** The directory after one rotation. */
  function Rotation(d: Directory, maxFiles: int): Directory {
    map s | s in RotationCandidates(d, maxFiles) && RotatedSlot(d, maxFiles, s).Some? :: RotatedSlot(d, maxFiles, s).value
  }

  /** The rotated directory holds, at slot s, what `RotatedSlot` says. */
  lemma RotationLookupAt(d: Directory, maxFiles: int, s: Slot)
    ensures Lookup(Rotation(d, maxFiles), s) == RotatedSlot(d, maxFiles, s)
  {
  }

  lemma RotationLookup(d: Directory, maxFiles: int)
    ensures forall s :: Lookup(Rotation(d, maxFiles), s) == RotatedSlot(d, maxFiles, s)
  {
    forall s ensures Lookup(Rotation(d, maxFiles), s) == RotatedSlot(d, maxFiles, s) {
      RotationLookupAt(d, maxFiles, s);
    }
  }

  /** Two directories that agree on every slot are equal. */
  lemma DirectoryExtensionality(a: Directory, b: Directory)
    requires forall s :: Lookup(a, s) == Lookup(b, s)
    ensures a == b
  {
    assert forall s :: s in a <==> Lookup(a, s).Some?;
    assert a.Keys == b.Keys;
  }

  /** The rotation check of `rotateIfNeeded`: nothing happens below the threshold. */
  function RotationCheck(d: Directory, maxFileSize: int, maxFiles: int): (r: Directory)
    ensures ActiveSize(d) < maxFileSize ==> r == d
    ensures ActiveSize(d) >= maxFileSize ==> Active !in r && Lookup(r, Rotated(1)) == Lookup(d, Active)
  {
    RotationLookup(d, maxFiles);
    assert Lookup(Rotation(d, maxFiles), Active) == None;
    if ActiveSize(d) >= maxFileSize then Rotation(d, maxFiles) else d
  }

  /** After rotation `casa.log.1` holds exactly the old active content and no active file exists. */
  lemma RotationMovesActiveToFirst(d: Directory, maxFiles: int)
    ensures Active !in Rotation(d, maxFiles)
    ensures Lookup(Rotation(d, maxFiles), Rotated(1)) == Lookup(d, Active)
  {
    RotationLookup(d, maxFiles);
    assert Lookup(Rotation(d, maxFiles), Active) == None;
  }

  /**
   * Shifting runs from the highest index down, so every rotated file below
   * maxFiles reappears one index higher and none is lost before it moves.
   */
  lemma RotationShiftsEachIndex(d: Directory, maxFiles: int, k: int)
    requires 1 <= k < maxFiles && Rotated(k) in d
    ensures Rotated(k + 1) in Rotation(d, maxFiles)
    ensures Rotation(d, maxFiles)[Rotated(k + 1)] == d[Rotated(k)]
  {
    RotationLookup(d, maxFiles);
    assert Lookup(Rotation(d, maxFiles), Rotated(k + 1)) == Some(d[Rotated(k)]);
  }

  /**
   * Rotation creates no index above maxFiles (nor above 1), leaves higher and
   * non-positive indices as they were, and replaces `casa.log.maxFiles` only when
   * `casa.log.(maxFiles-1)` existed.
   */
  lemma RotationCreatesNothingAboveLimit(d: Directory, maxFiles: int)
    ensures forall j :: j > maxFiles && j > 1 ==> Lookup(Rotation(d, maxFiles), Rotated(j)) == Lookup(d, Rotated(j))
    ensures forall j :: j <= 0 ==> Lookup(Rotation(d, maxFiles), Rotated(j)) == Lookup(d, Rotated(j))
    ensures maxFiles >= 2 && Rotated(maxFiles - 1) !in d ==>
              Lookup(Rotation(d, maxFiles), Rotated(maxFiles)) == Lookup(d, Rotated(maxFiles))
  {
    forall j | (j > maxFiles && j > 1) || j <= 0
      ensures Lookup(Rotation(d, maxFiles), Rotated(j)) == Lookup(d, Rotated(j))
    {
      RotationLookupAt(d, maxFiles, Rotated(j));
    }
    RotationLookupAt(d, maxFiles, Rotated(maxFiles));
  }

  // ---------------------------------------------------------------------
  // Writing one line

  /** Appends a line to the active file, creating it when it is missing. */
  function Appended(d: Directory, line: Bytes): (r: Directory)
    ensures Active in r
    ensures Active in d ==> r[Active] == d[Active] + line
    ensures Active !in d ==> r[Active] == line
    ensures forall s :: s != Active ==> Lookup(r, s) == Lookup(d, s)
  {
    if Active in d then d[Active := d[Active] + line] else d[Active := line]
  }

  /** The directory after `write`, given what encoding the entry produced. */
  function AfterWrite(d: Directory, maxFileSize: int, maxFiles: int, encoded: Option<Bytes>): Directory {
    var rotated := RotationCheck(d, maxFileSize, maxFiles);
    if encoded.None? then rotated else Appended(rotated, encoded.value + [Newline])
  }

  /**
   * A write leaves every earlier byte of the active file in place and adds
   * exactly the encoded entry and a newline at its end; after a rotation the
   * active file holds just that line.
   */
  lemma WriteAppendsOneLine(d: Directory, maxFileSize: int, maxFiles: int, data: Bytes)
    ensures var r := AfterWrite(d, maxFileSize, maxFiles, Some(data));
      && Active in r
      && (ActiveSize(d) < maxFileSize && Active in d ==>
            r[Active][..|d[Active]|] == d[Active] && r[Active][|d[Active]|..] == data + [Newline])
      && (ActiveSize(d) >= maxFileSize || Active !in d ==> r[Active] == data + [Newline])
  {
    var rotated := RotationCheck(d, maxFileSize, maxFiles);
    var r := Appended(rotated, data + [Newline]);
    if ActiveSize(d) < maxFileSize && Active in d {
      assert r[Active] == d[Active] + (data + [Newline]);
    }
  }

  /** A failed encoding appends nothing, though the rotation may already have happened. */
  lemma FailedEncodingAppendsNothing(d: Directory, maxFileSize: int, maxFiles: int)
    ensures AfterWrite(d, maxFileSize, maxFiles, None) == RotationCheck(d, maxFileSize, maxFiles)
    ensures ActiveSize(d) >= maxFileSize ==> Active !in AfterWrite(d, maxFileSize, maxFiles, None)
  {
  }

  // ---------------------------------------------------------------------
  // How many rotated files there can be

  /** Every rotated file has an index in 1..maxFiles. */
  predicate WithinLimit(d: Directory, maxFiles: int) {
    forall s :: s in d && s.Rotated? ==> 1 <= s.index <= maxFiles
  }

  function RotatedFiles(d: Directory): set<Slot> {
    set s | s in d.Keys && s.Rotated?
  }

  /** Rotated slots with an index in 1..n. */
  function IndexRange(n: nat): (r: set<Slot>)
    ensures forall s :: s in r <==> s.Rotated? && 1 <= s.index <= n
    ensures |r| == n
  {
    if n == 0 then {}
    else
      var r := IndexRange(n - 1) + {Rotated(n)};
      assert Rotated(n) !in IndexRange(n - 1);
      r
  }

  lemma SubsetCardinality<T>(a: set<T>, b: set<T>)
    requires a <= b
    ensures |a| <= |b|
  {
    if a != {} {
      var x :| x in a;
      SubsetCardinality(a - {x}, b - {x});
    }
  }

  /** A directory within the limit holds at most maxFiles rotated files. */
  lemma {:induction false} RotatedCountBound(d: Directory, maxFiles: nat)
    requires WithinLimit(d, maxFiles)
    ensures |RotatedFiles(d)| <= maxFiles
  {
    assert RotatedFiles(d) <= IndexRange(maxFiles);
    SubsetCardinality(RotatedFiles(d), IndexRange(maxFiles));
  }

  /**
   * With maxFiles >= 1, a write keeps every rotated file within 1..maxFiles,
   * so the number of rotated files never exceeds maxFiles however many writes follow.
   */
  lemma WriteKeepsWithinLimit(d: Directory, maxFileSize: int, maxFiles: nat, encoded: Option<Bytes>)
    requires maxFiles >= 1 && WithinLimit(d, maxFiles)
    ensures WithinLimit(AfterWrite(d, maxFileSize, maxFiles, encoded), maxFiles)
    ensures |RotatedFiles(AfterWrite(d, maxFileSize, maxFiles, encoded))| <= maxFiles
  {
    var rotated := RotationCheck(d, maxFileSize, maxFiles);
    RotationLookup(d, maxFiles);
    forall s | s in rotated && s.Rotated?
      ensures 1 <= s.index <= maxFiles
    {
      assert Lookup(rotated, s).Some?;
    }
    var r := AfterWrite(d, maxFileSize, maxFiles, encoded);
    forall s | s in r && s.Rotated?
      ensures 1 <= s.index <= maxFiles
    {
      assert Lookup(r, s) == Lookup(rotated, s);
    }
    RotatedCountBound(r, maxFiles);
  }

  // ---------------------------------------------------------------------
  // `logRequest`

  /** The keys `RequestMetadata` needs told apart: "method" from "status", and "requestId" from "latencyMs". */
  lemma RequestKeysDistinct()
    ensures "method" != "status" && "requestId" != "latencyMs"
  {
    assert "method"[0] != "status"[0];
    assert "requestId"[0] != "latencyMs"[0];
  }

  /** The metadata of a request entry: the method, path and request id verbatim, the numbers in decimal. */
  function RequestMetadata(httpMethod: string, path: string, status: int, requestId: string, latencyMs: int): (m: map<string, string>)
    ensures m.Keys == {"method", "path", "status", "requestId", "latencyMs"}
    ensures m["method"] == httpMethod && m["path"] == path && m["requestId"] == requestId
    ensures m["status"] == Decimal.IntToString(status) && m["latencyMs"] == Decimal.IntToString(latencyMs)
  {
    RequestKeysDistinct();
    map["method" := httpMethod, "path" := path, "status" := Decimal.IntToString(status),
        "requestId" := requestId, "latencyMs" := Decimal.IntToString(latencyMs)]
  }

  /** The status and the latency read back from a request entry's metadata are the ones logged. */
  lemma RequestMetadataParses(httpMethod: string, path: string, status: int, requestId: string, latencyMs: int)
    ensures Decimal.ParseInt(RequestMetadata(httpMethod, path, status, requestId, latencyMs)["status"]) == Some(status)
    ensures Decimal.ParseInt(RequestMetadata(httpMethod, path, status, requestId, latencyMs)["latencyMs"]) == Some(latencyMs)
  {
    Decimal.ParseIntToString(status);
    Decimal.ParseIntToString(latencyMs);
  }

  // ---------------------------------------------------------------------
  // The logger object

  class Logger {
    const maxFileSize: int
    const maxFiles: int
    /** The log directory: `casa.log` and its rotated copies. */
    var files: Directory
    var revision: Int64

    /** `existing` is what the log directory already holds when the logger starts. */
    constructor (maxFileSize: int, maxFiles: int, existing: Directory)
      ensures this.maxFileSize == maxFileSize && this.maxFiles == maxFiles
      ensures files == existing && revision == 0
    {
      this.maxFileSize := maxFileSize;
      this.maxFiles := maxFiles;
      files := existing;
      revision := 0;
    }

    /** `init()` with its default limits: rotate at 1,000,000 bytes, keep up to five rotated files. */
    constructor WithDefaults(existing: Directory)
      ensures maxFileSize == DefaultMaxFileSize && maxFiles == DefaultMaxFiles
      ensures files == existing && revision == 0
    {
      maxFileSize := DefaultMaxFileSize;
      maxFiles := DefaultMaxFiles;
      files := existing;
      revision := 0;
    }

    /** `readLog`: the decoded active file, or "" when it is missing or not valid text. */
    function ReadLog(decode: Bytes -> Option<string>): (text: string)
      reads this
      ensures Active !in files ==> text == ""
      ensures Active in files && decode(files[Active]).Some? ==> text == decode(files[Active]).value
      ensures Active in files && decode(files[Active]).None? ==> text == ""
      ensures text != "" ==> Active in files && decode(files[Active]) == Some(text)
    {
      if Active in files then decode(files[Active]).GetOr("") else ""
    }

    method RotateIfNeeded()
      modifies this`files
      ensures files == RotationCheck(old(files), maxFileSize, maxFiles)
    {
      var size := if Active in files then |files[Active]| else 0;
      if size < maxFileSize {
        return;
      }
      ghost var d := files;
      var index := maxFiles - 1;
      while index >= 1
        invariant index <= maxFiles - 1
        invariant index >= 0 || index == maxFiles - 1
        invariant forall s :: Lookup(files, s) == ShiftedSlot(d, maxFiles, index, s)
      {
        ghost var before := files;
        var src, dst := Rotated(index), Rotated(index + 1);
        if src in files {
          files := files - {dst};
          files := (files - {src})[dst := files[src]];
        }
        ShiftOneIndex(d, maxFiles, index, before, files);
        index := index - 1;
      }
      ghost var shifted := files;
      files := files - {Rotated(1)};
      if Active in files {
        files := (files - {Active})[Rotated(1) := files[Active]];
      }
      MoveActiveToFirst(d, maxFiles, index, shifted, files);
      RotationLookup(d, maxFiles);
      DirectoryExtensionality(files, Rotation(d, maxFiles));
    }

    /** `write`: rotate if needed, then append the encoded entry and a newline, then bump `revision`. */
    method Write(entry: LogEntry, encode: LogEntry -> Option<Bytes>)
      modifies this`files, this`revision
      ensures files == AfterWrite(old(files), maxFileSize, maxFiles, encode(entry))
      ensures revision == if encode(entry).Some? then WrappingIncrement(old(revision)) else old(revision)
    {
      RotateIfNeeded();
      var data := encode(entry);
      if data.None? {
        return;
      }
      var line := data.value + [Newline];
      if Active in files {
        files := files[Active := files[Active] + line];
      } else {
        files := files[Active := line];
      }
      revision := WrappingIncrement(revision);
    }

    /** `log(level:message:metadata:)`, stamped with the given time. */
    method Log(level: string, message: string, metadata: map<string, string>, timestamp: string,
               encode: LogEntry -> Option<Bytes>)
      modifies this`files, this`revision
      ensures var entry := LogEntry(timestamp, level, message, metadata);
        && files == AfterWrite(old(files), maxFileSize, maxFiles, encode(entry))
        && revision == if encode(entry).Some? then WrappingIncrement(old(revision)) else old(revision)
    {
      Write(LogEntry(timestamp, level, message, metadata), encode);
    }

    /** `logRequest`: an "info" entry with message "request" and the five request fields. */
    method LogRequest(httpMethod: string, path: string, status: int, requestId: string, latencyMs: int,
                      timestamp: string, encode: LogEntry -> Option<Bytes>)
      modifies this`files, this`revision
      ensures var entry := LogEntry(timestamp, "info", "request", RequestMetadata(httpMethod, path, status, requestId, latencyMs));
        && files == AfterWrite(old(files), maxFileSize, maxFiles, encode(entry))
        && revision == if encode(entry).Some? then WrappingIncrement(old(revision)) else old(revision)
    {
      Log("info", "request", RequestMetadata(httpMethod, path, status, requestId, latencyMs), timestamp, encode);
    }
  }

  /**
   * The directory part-way through the shifting loop of `rotateIfNeeded`,
   * when the indices above `next` (up to maxFiles - 1) have been processed.
   */
  function ShiftedSlot(d: Directory, maxFiles: int, next: int, s: Slot): Option<Bytes> {
    match s
    case Active => Lookup(d, Active)
    case Rotated(j) =>
      if j <= next || j > maxFiles then Lookup(d, s)
      else if j == maxFiles then
        (if maxFiles - 1 > next && Rotated(maxFiles - 1) in d then Some(d[Rotated(maxFiles - 1)]) else Lookup(d, s))
      else if j == next + 1 then None
      else Lookup(d, Rotated(j - 1))
  }

  /** One pass of the shifting loop: `casa.log.next` (if present) replaces `casa.log.(next+1)`. */
  lemma ShiftOneIndex(d: Directory, maxFiles: int, next: int, before: Directory, after: Directory)
    requires 1 <= next <= maxFiles - 1
    requires forall s :: Lookup(before, s) == ShiftedSlot(d, maxFiles, next, s)
    requires after == if Rotated(next) in before
                      then ((before - {Rotated(next + 1)}) - {Rotated(next)})[Rotated(next + 1) := before[Rotated(next)]]
                      else before
    ensures forall s :: Lookup(after, s) == ShiftedSlot(d, maxFiles, next - 1, s)
  {
    forall s ensures Lookup(after, s) == ShiftedSlot(d, maxFiles, next - 1, s) {
      assert Lookup(before, s) == ShiftedSlot(d, maxFiles, next, s);
      assert Lookup(before, Rotated(next)) == ShiftedSlot(d, maxFiles, next, Rotated(next));
      match s
      case Active =>
      case Rotated(j) =>
        if j == next {
        } else if j == next + 1 {
          assert Lookup(before, Rotated(next)) == Lookup(d, Rotated(next));
        } else {
        }
    }
  }

  /** The end of `rotateIfNeeded`: `casa.log.1` is removed, then the active file is moved there. */
  lemma MoveActiveToFirst(d: Directory, maxFiles: int, next: int, shifted: Directory, after: Directory)
    requires next <= 0 && (next == 0 || next == maxFiles - 1)
    requires forall s :: Lookup(shifted, s) == ShiftedSlot(d, maxFiles, next, s)
    requires after == if Active in shifted
                      then ((shifted - {Rotated(1)}) - {Active})[Rotated(1) := shifted[Active]]
                      else shifted - {Rotated(1)}
    ensures forall s :: Lookup(after, s) == RotatedSlot(d, maxFiles, s)
  {
    forall s ensures Lookup(after, s) == RotatedSlot(d, maxFiles, s) {
      assert Lookup(shifted, s) == ShiftedSlot(d, maxFiles, next, s);
      assert Lookup(shifted, Active) == Lookup(d, Active);
    }
  }
}
