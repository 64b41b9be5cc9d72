/**
 * The bookkeeping of the ZIP writer (`CompressAction`): MS-DOS time and date
 * packing (section 4.4.6 of the PKWARE ZIP APPNOTE), the local file header,
 * central directory header and end-of-central-directory records (sections
 * 4.3.7, 4.3.12 and 4.3.16), the offsets that tie them together, the entry
 * names and the archive name.
 *
 * The archive stream is modelled as a sequence of records rather than bytes:
 * each `Chunk` stands for one packed struct followed by the bytes written
 * after it, and `StreamSize` counts the bytes they occupy.  Deflate, the file
 * system and the clock are inputs.
 */
module Zip {
  import opened Basics
  import opened CrcBits
  import opened Crc32
  import PathUtils

  // ---------------------------------------------------------------------
  // Integer widths.

  const TWO_16: nat := 0x1_0000
  const TWO_32: nat := 0x1_0000_0000

  /** Conversion to `uint16_t`: the low 16 bits, in two's complement. */
  function Low16(x: int): (r: nat)
    ensures r < TWO_16
    ensures 0 <= x < TWO_16 ==> r == x
  {
    x % TWO_16
  }

  /** Conversion to `uint32_t`. */
  function Low32(x: int): (r: nat)
    ensures r < TWO_32
    ensures 0 <= x < TWO_32 ==> r == x
  {
    x % TWO_32
  }

  /** Adding to a `uint32_t` wraps the same way as adding first and converting last. */
  lemma Low32Add(a: int, b: int)
    ensures Low32(Low32(a) + b) == Low32(a + b)
  {
  }

  function Pow2(k: nat): (r: nat)
    ensures r >= 1
  {
    if k == 0 then 1 else 2 * Pow2(k - 1)
  }

  /** Bitwise OR of two non-negative integers. */
  function BitOr(a: nat, b: nat): nat
    decreases a + b
  {
    if a == 0 then b
    else if b == 0 then a
    else 2 * BitOr(a / 2, b / 2) + (if a % 2 == 1 || b % 2 == 1 then 1 else 0)
  }

  /** OR-ing a value below `2^k` into a multiple of `2^k` is addition. */
  lemma {:induction false} BitOrDisjoint(a: nat, b: nat, k: nat)
    requires b < Pow2(k)
    ensures BitOr(a * Pow2(k), b) == a * Pow2(k) + b
    decreases k
  {
    if k > 0 {
      var p := Pow2(k - 1);
      var x := a * Pow2(k);
      assert x == 2 * (a * p);
      if x != 0 && b != 0 {
        assert x / 2 == a * p && x % 2 == 0;
        BitOrDisjoint(a, b / 2, k - 1);
      }
    }
  }

  lemma Pow2Sixteen()
    ensures Pow2(16) == TWO_16
  {
    assert Pow2(4) == 16;
    assert Pow2(8) == 256;
    assert Pow2(12) == 4096;
  }

  /** OR-ing two values below `2^k` stays below `2^k`. */
  lemma {:induction false} BitOrBelow(a: nat, b: nat, k: nat)
    requires a < Pow2(k) && b < Pow2(k)
    ensures BitOr(a, b) < Pow2(k)
    decreases k
  {
    if a != 0 && b != 0 {
      BitOrBelow(a / 2, b / 2, k - 1);
    }
  }

  /** C++ `/` by 2 on an `int`: truncates toward zero. */
  function Half(x: int): int
  {
    if x >= 0 then x / 2 else -((-x) / 2)
  }

  // ---------------------------------------------------------------------
  // MS-DOS time and date.

  /** The fields of `struct tm` the writer reads (year counts from 1900, month from 0). */
  datatype LocalTime = LocalTime(year: int, mon: int, mday: int, hour: int, min: int, sec: int)

  /**
   * `dos_time`: `hour << 11 | min << 5 | sec / 2`, converted to `uint16_t`.
   * Conversion keeps the low 16 bits of each operand of the OR.
   */
  function DosTime(t: LocalTime): (r: nat)
    ensures r < TWO_16
  {
    Pow2Sixteen();
    BitOrBelow(Low16(t.hour * 2048), Low16(t.min * 32), 16);
    BitOrBelow(BitOr(Low16(t.hour * 2048), Low16(t.min * 32)), Low16(Half(t.sec)), 16);
    BitOr(BitOr(Low16(t.hour * 2048), Low16(t.min * 32)), Low16(Half(t.sec)))
  }

  /** `dos_date`: `(year - 80) << 9 | (month + 1) << 5 | day`, converted to `uint16_t`. */
  function DosDate(t: LocalTime): (r: nat)
    ensures r < TWO_16
  {
    Pow2Sixteen();
    BitOrBelow(Low16((t.year - 80) * 512), Low16((t.mon + 1) * 32), 16);
    BitOrBelow(BitOr(Low16((t.year - 80) * 512), Low16((t.mon + 1) * 32)), Low16(t.mday), 16);
    BitOr(BitOr(Low16((t.year - 80) * 512), Low16((t.mon + 1) * 32)), Low16(t.mday))
  }

  /** Division by `k` splits `q * k + r` back into `q` and `r`. */
  lemma DivMod(q: nat, r: nat, k: nat)
    requires r < k
    ensures (q * k + r) / k == q && (q * k + r) % k == r
  {
    var z := q * k + r;
    var d, m := z / k, z % k;
    assert d * k + m == z;
    if d > q {
      assert (d - q) * k == d * k - q * k;
      MulAtLeast(d - q, k);
    } else if d < q {
      assert (q - d) * k == q * k - d * k;
      MulAtLeast(q - d, k);
    }
  }

  lemma MulAtLeast(a: nat, k: nat)
    requires a >= 1
    ensures a * k >= k
  {
    assert a * k == (a - 1) * k + k;
  }

  /** Three fields packed as `(a * 2^k + b) * 32 + c`, with `b` and `c` in range, split back by division and remainder. */
  lemma Unpack(a: nat, b: nat, c: nat, k: nat)
    requires b < Pow2(k) && c < 32
    ensures var z := (a * Pow2(k) + b) * 32 + c;
      z % 32 == c && z / 32 % Pow2(k) == b && z / 32 / Pow2(k) == a
  {
    var ab := a * Pow2(k) + b;
    DivMod(ab, c, 32);
    DivMod(a, b, Pow2(k));
  }

  /** OR-ing `a << (k + 5)`, `b << 5` and `c` adds them when `b` and `c` fit their fields. */
  lemma Pack(a: nat, b: nat, c: nat, k: nat)
    requires b < Pow2(k) && c < 32 && Pow2(k + 5) == Pow2(k) * 32 && Pow2(5) == 32
    ensures BitOr(BitOr(a * Pow2(k + 5), b * 32), c) == (a * Pow2(k) + b) * 32 + c
  {
    ShiftBy5(a, b, Pow2(k), Pow2(k + 5));
    BitOrDisjoint(a, b * 32, k + 5);
    BitOrDisjoint(a * Pow2(k) + b, c, 5);
  }

  lemma ShiftBy5(a: nat, b: nat, p: nat, q: nat)
    requires b < p && q == p * 32
    ensures b * 32 < q && a * q + b * 32 == (a * p + b) * 32
  {
    assert a * (p * 32) == (a * p) * 32;
  }

  lemma PowersBy5()
    ensures Pow2(11) == Pow2(6) * 32 && Pow2(9) == Pow2(4) * 32 && Pow2(6) == 64 && Pow2(4) == 16 && Pow2(5) == 32
  {
    assert Pow2(4) == 16;
  }

  /**
   * For a time of day the fields do not overlap: the packed time is their sum
   * and shifting and masking recovers hour, minute and seconds / 2.
   */
  lemma DosTimeFields(t: LocalTime)
    requires 0 <= t.hour < 24 && 0 <= t.min < 60 && 0 <= t.sec <= 61
    ensures DosTime(t) == t.hour * 2048 + t.min * 32 + t.sec / 2
    ensures DosTime(t) / 2048 == t.hour
    ensures DosTime(t) / 32 % 64 == t.min
    ensures DosTime(t) % 32 == t.sec / 2
  {
    var h: nat, m: nat, s: nat := t.hour, t.min, t.sec / 2;
    PowersBy5();
    assert Low16(t.hour * 2048) == h * Pow2(11) by { assert h * 2048 < TWO_16; }
    assert Low16(t.min * 32) == m * 32 by { assert m * 32 < TWO_16; }
    assert Low16(Half(t.sec)) == s;
    Pack(h, m, s, 6);
    Unpack(h, m, s, 6);
    assert (h * 64 + m) * 32 + s == h * 2048 + m * 32 + s;
    assert DosTime(t) / 2048 == DosTime(t) / 32 / 64 by { DivMod(h * 64 + m, s, 32); DivMod(h, m * 32 + s, 2048); }
  }

  /** For the years 1980 to 2107 the packed date is the sum of its fields and round-trips. */
  lemma DosDateFields(t: LocalTime)
    requires 80 <= t.year <= 207 && 0 <= t.mon < 12 && 1 <= t.mday <= 31
    ensures DosDate(t) == (t.year - 80) * 512 + (t.mon + 1) * 32 + t.mday
    ensures DosDate(t) / 512 + 1980 == t.year + 1900
    ensures DosDate(t) / 32 % 16 == t.mon + 1
    ensures DosDate(t) % 32 == t.mday
  {
    var y: nat, m: nat, d: nat := t.year - 80, t.mon + 1, t.mday;
    PowersBy5();
    assert Low16((t.year - 80) * 512) == y * Pow2(9) by { assert y * 512 < TWO_16; }
    assert Low16((t.mon + 1) * 32) == m * 32 by { assert m * 32 < TWO_16; }
    assert Low16(t.mday) == d;
    Pack(y, m, d, 4);
    Unpack(y, m, d, 4);
    assert (y * 16 + m) * 32 + d == y * 512 + m * 32 + d;
    assert DosDate(t) / 512 == DosDate(t) / 32 / 16 by { DivMod(y * 16 + m, d, 32); DivMod(y, m * 32 + d, 512); }
  }

  // ---------------------------------------------------------------------
  // The three packed records.

  /** `sizeof` of the packed structs (`#pragma pack(1)`: the field widths, no padding). */
  const LOCAL_HEADER_SIZE: nat := 4 + 2 + 2 + 2 + 2 + 2 + 4 + 4 + 4 + 2 + 2
  const CENTRAL_HEADER_SIZE: nat := 4 + 2 + 2 + 2 + 2 + 2 + 2 + 4 + 4 + 4 + 2 + 2 + 2 + 2 + 2 + 4 + 4
  const EOCD_SIZE: nat := 4 + 2 + 2 + 2 + 2 + 4 + 4 + 2

  datatype LocalHeader = LocalHeader(
    signature: nat, version: nat, flags: nat, compression: nat,
    modTime: nat, modDate: nat, crc32: bv32,
    compressedSize: nat, uncompressedSize: nat,
    filenameLength: nat, extraLength: nat)

  datatype CentralHeader = CentralHeader(
    signature: nat, versionMade: nat, versionNeeded: nat, flags: nat, compression: nat,
    modTime: nat, modDate: nat, crc32: bv32,
    compressedSize: nat, uncompressedSize: nat,
    filenameLength: nat, extraLength: nat, commentLength: nat,
    diskStart: nat, internalAttr: nat, externalAttr: nat,
    localHeaderOffset: nat)

  datatype Eocd = Eocd(
    signature: nat, diskNumber: nat, centralDirDisk: nat,
    numEntriesDisk: nat, numEntriesTotal: nat,
    centralDirSize: nat, centralDirOffset: nat, commentLength: nat)

  /** The local header of an entry: struct defaults, then times, CRC, sizes and name length. */
  function LocalHeaderFor(name: string, data: seq<Byte>, compressed: seq<Byte>, t: LocalTime): LocalHeader
  {
    LocalHeader(0x0403_4b50, 20, 0, 8, DosTime(t), DosDate(t), Crc(data),
                Low32(|compressed|), Low32(|data|), Low16(|name|), 0)
  }

  /** The central header of an entry: struct defaults, the local header's fields, and its offset. */
  function CentralHeaderFor(l: LocalHeader, offset: nat): CentralHeader
  {
    CentralHeader(0x0201_4b50, 20, 20, 0, 8, l.modTime, l.modDate, l.crc32,
                  l.compressedSize, l.uncompressedSize, l.filenameLength, 0, 0, 0, 0, 0, offset)
  }

  /** The end record for `n` entries whose central directory starts at `offset`. */
  function EocdFor(n: nat, offset: nat): Eocd
  {
    Eocd(0x0605_4b50, 0, 0, Low16(n), Low16(n), Low32(n * CENTRAL_HEADER_SIZE), Low32(offset), 0)
  }

  // ---------------------------------------------------------------------
  // The archive stream.

  datatype Chunk =
    | LocalChunk(local: LocalHeader, name: string, data: seq<Byte>)   // header, name, deflated bytes
    | CentralChunk(central: CentralHeader, name: string)              // header, name
    | EndChunk(eocd: Eocd)

  function ChunkSize(c: Chunk): nat
  {
    match c
    case LocalChunk(_, name, data) => LOCAL_HEADER_SIZE + |name| + |data|
    case CentralChunk(_, name) => CENTRAL_HEADER_SIZE + |name|
    case EndChunk(_) => EOCD_SIZE
  }

  /** The number of bytes a sequence of chunks occupies. */
  function StreamSize(cs: seq<Chunk>): nat
  {
    if cs == [] then 0 else StreamSize(cs[..|cs| - 1]) + ChunkSize(cs[|cs| - 1])
  }

  lemma {:induction false} StreamSizeAppend(a: seq<Chunk>, b: seq<Chunk>)
    ensures StreamSize(a + b) == StreamSize(a) + StreamSize(b)
  {
    if b == [] {
      assert a + b == a;
    } else {
      assert (a + b)[..|a + b| - 1] == a + b[..|b| - 1];
      StreamSizeAppend(a, b[..|b| - 1]);
    }
  }

  // ---------------------------------------------------------------------
  // Inputs.

  /**
   * What the writer learns about one file: its bytes (`None` when it cannot be
   * opened), what deflate makes of them (`Err` carries zlib's failure
   * message), and its modification time as local time.
   */
  datatype FileInput = FileInput(path: string, contents: Option<seq<Byte>>, deflated: Result<seq<Byte>>, modified: LocalTime)

  /** A directory entry met by the recursive iteration, with its path relative to the source's parent. */
  datatype DirEntry = DirEntry(isRegularFile: bool, relativePath: string, file: FileInput)

  datatype Source =
    | Directory(entries: seq<DirEntry>)           // in the order the iteration yields them
    | RegularFile(filename: string, file: FileInput)
    | Other                                       // neither a file nor a directory

  /** The exception `addFileToZip` throws for a file, if any. */
  function FileError(f: FileInput): Option<string>
  {
    if f.contents.None? then Some("Cannot open file: " + f.path)
    else if f.deflated.Err? then Some(f.deflated.error)
    else None
  }

  /** The entry name of a file in a directory source: `\` replaced by `/`. */
  function EntryName(relativePath: string): string
  {
    ReplaceChar(relativePath, '\\', '/')
  }

  /** The (entry name, file) pairs a directory source adds, in iteration order. */
  function DirectoryItems(es: seq<DirEntry>): seq<(string, FileInput)>
  {
    if es == [] then []
    else
      var e := es[|es| - 1];
      DirectoryItems(es[..|es| - 1]) + (if e.isRegularFile then [(EntryName(e.relativePath), e.file)] else [])
  }

  /** The (entry name, file) pairs a source adds. */
  function Items(s: Source): seq<(string, FileInput)>
  {
    match s
    case Directory(es) => DirectoryItems(es)
    case RegularFile(name, f) => [(name, f)]
    case Other => []
  }

  /** The first failure among `items`, in order. */
  function FirstError(items: seq<(string, FileInput)>): Option<string>
  {
    if items == [] then None
    else
      var e := FirstError(items[..|items| - 1]);
      if e.Some? then e else FileError(items[|items| - 1].1)
  }

  /** The local record an item adds. */
  function LocalChunkFor(name: string, f: FileInput): Chunk
    requires FileError(f).None?
  {
    LocalChunk(LocalHeaderFor(name, f.contents.value, f.deflated.value, f.modified), name, f.deflated.value)
  }

  /** Every chunk of `cs` is a local record. */
  predicate AllLocal(cs: seq<Chunk>)
  {
    forall k :: 0 <= k < |cs| ==> cs[k].LocalChunk?
  }

  /** The local records of `items`, in order. */
  function LocalChunks(items: seq<(string, FileInput)>): (r: seq<Chunk>)
    requires FirstError(items).None?
    ensures |r| == |items| && AllLocal(r)
  {
    if items == [] then []
    else
      var last := items[|items| - 1];
      LocalChunks(items[..|items| - 1]) + [LocalChunkFor(last.0, last.1)]
  }

  /** Each item's record carries the item's name. */
  lemma {:induction false} LocalChunksNames(items: seq<(string, FileInput)>)
    requires FirstError(items).None?
    ensures forall k :: 0 <= k < |items| ==> LocalChunks(items)[k].name == items[k].0
  {
    if items != [] {
      LocalChunksNames(items[..|items| - 1]);
    }
  }

  /** The central directory for `locals`: one header per record, pointing at it. */
  function CentralChunks(locals: seq<Chunk>): (r: seq<Chunk>)
    requires AllLocal(locals)
    ensures |r| == |locals|
  {
    seq(|locals|, k requires 0 <= k < |locals| =>
      CentralChunk(CentralHeaderFor(locals[k].local, Low32(StreamSize(locals[..k]))), locals[k].name))
  }

  /**
   * The whole archive written after the local records `locals`: those
   * records, their central directory, the end record.
   */
  function Archive(locals: seq<Chunk>): (r: seq<Chunk>)
    requires AllLocal(locals)
    ensures |r| == 2 * |locals| + 1
    ensures r[..|locals|] == locals
    ensures forall k {:trigger r[k]} :: |locals| <= k < 2 * |locals| ==> r[k].CentralChunk?
    ensures r[2 * |locals|].EndChunk?
  {
    locals + CentralChunks(locals) + [EndChunk(EocdFor(|locals|, StreamSize(locals)))]
  }

  /** The prefixes of `p + q` up to `|p|` are those of `p`. */
  lemma PrefixesOf<T>(p: seq<T>, q: seq<T>)
    ensures forall k :: 0 <= k <= |p| ==> (p + q)[..k] == p[..k]
  {
    forall k | 0 <= k <= |p|
      ensures (p + q)[..k] == p[..k]
    {
      assert forall j :: 0 <= j < k ==> (p + q)[..k][j] == p[..k][j];
    }
  }

  // ---------------------------------------------------------------------
  // The writer.

  /**
   * The central headers and names collected so far describe the local records
   * written so far, one each and in order: header `k` copies record `k`'s
   * fields and holds its position in the stream, as a `uint32_t`.
   */
  predicate Consistent(hs: seq<CentralHeader>, names: seq<string>, locals: seq<Chunk>)
  {
    && |hs| == |names| == |locals|
    && AllLocal(locals)
    && forall k {:trigger hs[k]} :: 0 <= k < |locals| ==>
         && hs[k] == CentralHeaderFor(locals[k].local, Low32(StreamSize(locals[..k])))
         && names[k] == locals[k].name
  }

  /** Writing one more record and remembering its header keeps the two in step. */
  lemma ConsistentAppend(hs: seq<CentralHeader>, names: seq<string>, locals: seq<Chunk>, c: Chunk)
    requires Consistent(hs, names, locals) && c.LocalChunk?
    ensures Consistent(hs + [CentralHeaderFor(c.local, Low32(StreamSize(locals)))], names + [c.name], locals + [c])
    ensures StreamSize(locals + [c]) == StreamSize(locals) + ChunkSize(c)
  {
    var out := locals + [c];
    assert out[..|locals|] == locals;
    forall k | 0 <= k < |locals|
      ensures out[..k] == locals[..k]
    {
    }
  }

  /** Writing the central directory from consistent headers, one entry at a time, gives `CentralChunks` of the records. */
  lemma CentralStep(hs: seq<CentralHeader>, names: seq<string>, locals: seq<Chunk>, k: nat)
    requires Consistent(hs, names, locals) && k < |locals|
    ensures CentralChunks(locals)[..k + 1] == CentralChunks(locals)[..k] + [CentralChunk(hs[k], names[k])]
  {
    assert CentralChunks(locals)[..k + 1] == CentralChunks(locals)[..k] + [CentralChunks(locals)[k]];
  }

  /**
   * The state `createZipFile` threads through `addFileToZip` by reference: the
   * central headers and file names collected so far, the running local header
   * offset, and the archive stream.
   */
  class ZipWriter {
    var centralHeaders: seq<CentralHeader>
    var filenames: seq<string>
    var localHeaderOffset: nat
    var out: seq<Chunk>

    /** Before the central directory: the offset is the stream size as a `uint32_t`. */
    ghost predicate Valid()
      reads this
    {
      Consistent(centralHeaders, filenames, out) && localHeaderOffset == Low32(StreamSize(out))
    }

    constructor ()
      ensures Valid() && out == [] && centralHeaders == [] && filenames == []
    {
      centralHeaders := [];
      filenames := [];
      localHeaderOffset := 0;
      out := [];
    }

    /**
     * `addFileToZip`: read and deflate the file, write the local header, name
     * and data, remember the central header for later.  A failure leaves
     * everything as it was.
     */
    method AddFileToZip(name: string, f: FileInput) returns (err: Option<string>)
      requires Valid()
      modifies this
      ensures Valid()
      ensures err == FileError(f)
      ensures err.Some? ==> out == old(out) && centralHeaders == old(centralHeaders) && filenames == old(filenames)
                            && localHeaderOffset == old(localHeaderOffset)
      ensures err.None? ==> out == old(out) + [LocalChunkFor(name, f)]
      ensures err.None? ==> centralHeaders == old(centralHeaders) + [CentralHeaderFor(LocalChunkFor(name, f).local, old(localHeaderOffset))]
      ensures err.None? ==> filenames == old(filenames) + [name]
      ensures err.None? ==> localHeaderOffset == Low32(old(localHeaderOffset) + ChunkSize(LocalChunkFor(name, f)))
    {
      if f.contents.None? {
        return Some("Cannot open file: " + f.path);
      }
      var data := f.contents.value;
      if f.deflated.Err? {
        return Some(f.deflated.error);
      }
      var compressed := f.deflated.value;
      var crc := CalculateCrc32(data);
      var local := LocalHeader(0x0403_4b50, 20, 0, 8, DosTime(f.modified), DosDate(f.modified), crc,
                               Low32(|compressed|), Low32(|data|), Low16(|name|), 0);
      var central := CentralHeader(0x0201_4b50, 20, 20, 0, 8, local.modTime, local.modDate, local.crc32,
                                   local.compressedSize, local.uncompressedSize, local.filenameLength,
                                   0, 0, 0, 0, 0, localHeaderOffset);
      var chunk := LocalChunk(local, name, compressed);
      ConsistentAppend(centralHeaders, filenames, out, chunk);
      Low32Add(StreamSize(out), LOCAL_HEADER_SIZE + |name| + |compressed|);
      out := out + [chunk];
      centralHeaders := centralHeaders + [central];
      filenames := filenames + [name];
      localHeaderOffset := Low32(localHeaderOffset + LOCAL_HEADER_SIZE + |name| + |compressed|);
      return None;
    }

    /** Writes one central header and its name per entry, in order. */
    method WriteCentralDirectory()
      requires Valid()
      modifies this
      ensures out == old(out) + CentralChunks(old(out))
      ensures centralHeaders == old(centralHeaders) && filenames == old(filenames)
      ensures localHeaderOffset == old(localHeaderOffset)
    {
      var hs, names := centralHeaders, filenames;
      ghost var locals := out;
      var written: seq<Chunk> := [];
      var index := 0;
      while index < |hs|
        modifies {}
        invariant 0 <= index <= |hs|
        invariant written == CentralChunks(locals)[..index]
      {
        var name := if index < |names| then names[index] else "";
        CentralStep(hs, names, locals, index);
        written := written + [CentralChunk(hs[index], name)];
        index := index + 1;
      }
      assert CentralChunks(locals)[..index] == CentralChunks(locals);
      out := out + written;
    }
  }

  // ---------------------------------------------------------------------
  // `createZipFile`.

  /**
   * The loop of `createZipFile` over a directory: every regular file is added
   * under its relative path with `\` replaced by `/`; the first failure ends it.
   */
  method AddDirectoryFiles(w: ZipWriter, es: seq<DirEntry>) returns (err: Option<string>)
    requires w.Valid() && w.out == []
    modifies w
    ensures w.Valid()
    ensures err == FirstError(DirectoryItems(es))
    ensures err.None? ==> w.out == LocalChunks(DirectoryItems(es))
  {
    var i := 0;
    while i < |es|
      invariant 0 <= i <= |es|
      invariant w.Valid()
      invariant FirstError(DirectoryItems(es[..i])).None?
      invariant w.out == LocalChunks(DirectoryItems(es[..i]))
    {
      ghost var before := w.out;
      err := AddEntry(w, es[i]);
      DirectoryStep(es, i, before, w.out, err);
      if err.Some? {
        return;
      }
      i := i + 1;
    }
    assert es[..i] == es;
    return None;
  }

  /** One turn of the directory loop keeps its invariant, or ends with the first failure. */
  lemma DirectoryStep(es: seq<DirEntry>, i: nat, before: seq<Chunk>, after: seq<Chunk>, err: Option<string>)
    requires i < |es|
    requires FirstError(DirectoryItems(es[..i])).None? && before == LocalChunks(DirectoryItems(es[..i]))
    requires err == (if es[i].isRegularFile then FileError(es[i].file) else None)
    requires err.None? && es[i].isRegularFile ==> after == before + [LocalChunkFor(EntryName(es[i].relativePath), es[i].file)]
    requires !es[i].isRegularFile ==> after == before
    ensures err.None? ==> FirstError(DirectoryItems(es[..i + 1])).None? && after == LocalChunks(DirectoryItems(es[..i + 1]))
    ensures err.Some? ==> FirstError(DirectoryItems(es)) == err
  {
    DirectoryItemsStep(es, i);
    if err.Some? {
      FailureIsFirst(es, i);
    } else if es[i].isRegularFile {
      LocalChunksStep(DirectoryItems(es[..i]), (EntryName(es[i].relativePath), es[i].file));
    }
  }

  /** A regular file that fails after entries that all succeeded is the directory's first failure. */
  lemma FailureIsFirst(es: seq<DirEntry>, i: nat)
    requires i < |es| && es[i].isRegularFile && FileError(es[i].file).Some?
    requires FirstError(DirectoryItems(es[..i])).None?
    ensures FirstError(DirectoryItems(es)) == FileError(es[i].file)
  {
    var front := DirectoryItems(es[..i]);
    var x := (EntryName(es[i].relativePath), es[i].file);
    DirectoryItemsStep(es, i);
    FirstErrorLast(front, x);
    DirectoryItemsSplit(es, i + 1);
    FirstErrorSticks(front + [x], DirectoryItems(es[i + 1..]));
  }

  lemma FirstErrorLast(items: seq<(string, FileInput)>, x: (string, FileInput))
    requires FirstError(items).None?
    ensures FirstError(items + [x]) == FileError(x.1)
  {
    assert (items + [x])[..|items|] == items;
  }

  lemma DirectoryItemsSplit(es: seq<DirEntry>, i: nat)
    requires i <= |es|
    ensures DirectoryItems(es) == DirectoryItems(es[..i]) + DirectoryItems(es[i..])
  {
    DirectoryItemsAppend(es[..i], es[i..]);
    assert es[..i] + es[i..] == es;
  }

  /** One directory entry: a regular file is added under its entry name, anything else is skipped. */
  method AddEntry(w: ZipWriter, e: DirEntry) returns (err: Option<string>)
    requires w.Valid()
    modifies w
    ensures w.Valid()
    ensures err == (if e.isRegularFile then FileError(e.file) else None)
    ensures err.Some? ==> w.out == old(w.out)
    ensures err.None? && e.isRegularFile ==> w.out == old(w.out) + [LocalChunkFor(EntryName(e.relativePath), e.file)]
    ensures !e.isRegularFile ==> w.out == old(w.out)
  {
    err := None;
    if e.isRegularFile {
      var name := ReplaceChar(e.relativePath, '\\', '/');
      err := w.AddFileToZip(name, e.file);
    }
  }

  /** Writes the central directory and the end record after the local records. */
  method Finish(w: ZipWriter)
    requires w.Valid()
    modifies w
    ensures AllLocal(old(w.out)) && w.out == Archive(old(w.out))
  {
    var centralDirOffset := w.localHeaderOffset;
    w.WriteCentralDirectory();
    var n := |w.centralHeaders|;
    var eocd := Eocd(0x0605_4b50, 0, 0, Low16(n), Low16(n), Low32(n * CENTRAL_HEADER_SIZE), centralDirOffset, 0);
    w.out := w.out + [EndChunk(eocd)];
  }

  datatype ZipOutcome =
    | CannotCreate               // the output file could not be opened: false, nothing thrown
    | Created(stream: seq<Chunk>)
    | Failed(message: string)    // an exception: the partial file is removed and it is rethrown

  /**
   * What `createZipFile` does: no archive when the file cannot be created; the
   * exception for a source that is neither file nor directory, or for the
   * first file that fails; otherwise the archive of all the source's files.
   */
  function ZipFileOutcome(canCreate: bool, source: Source): (r: ZipOutcome)
    ensures r.CannotCreate? <==> !canCreate
    ensures r.Created? <==> canCreate && !source.Other? && FirstError(Items(source)).None?
    ensures r.Created? ==> |r.stream| == 2 * |Items(source)| + 1
    ensures r.Failed? && !source.Other? ==> Some(r.message) == FirstError(Items(source))
  {
    if !canCreate then CannotCreate
    else if source.Other? then Failed("Source is neither a file nor a directory")
    else if FirstError(Items(source)).Some? then Failed(FirstError(Items(source)).value)
    else Created(Archive(LocalChunks(Items(source))))
  }

  /**
   * `createZipFile`: add every regular file of a directory source (or the one
   * file of a file source), then the central directory and the end record.
   */
  method CreateZipFile(canCreate: bool, source: Source) returns (r: ZipOutcome)
    ensures r == ZipFileOutcome(canCreate, source)
  {
    if !canCreate {
      return CannotCreate;
    }
    var w := new ZipWriter();
    var err: Option<string>;
    match source {
      case Other =>
        return Failed("Source is neither a file nor a directory");
      case RegularFile(filename, f) =>
        err := w.AddFileToZip(filename, f);
        SingleFileItems(filename, f);
        if err.None? {
          LocalChunksStep([], (filename, f));
          assert [] + [(filename, f)] == Items(source);
        }
      case Directory(es) =>
        err := AddDirectoryFiles(w, es);
    }
    if err.Some? {
      return Failed(err.value);
    }
    Finish(w);
    return Created(w.out);
  }

  lemma DirectoryItemsStep(es: seq<DirEntry>, i: nat)
    requires i < |es|
    ensures es[i].isRegularFile ==> DirectoryItems(es[..i + 1]) == DirectoryItems(es[..i]) + [(EntryName(es[i].relativePath), es[i].file)]
    ensures !es[i].isRegularFile ==> DirectoryItems(es[..i + 1]) == DirectoryItems(es[..i])
  {
    assert es[..i + 1][..i] == es[..i];
    assert DirectoryItems(es[..i]) + [] == DirectoryItems(es[..i]);
  }

  lemma LocalChunksStep(items: seq<(string, FileInput)>, x: (string, FileInput))
    requires FirstError(items).None? && FileError(x.1).None?
    ensures FirstError(items + [x]).None?
    ensures LocalChunks(items + [x]) == LocalChunks(items) + [LocalChunkFor(x.0, x.1)]
  {
    assert (items + [x])[..|items|] == items;
  }

  /** Once an item fails, items after it do not change the first failure. */
  lemma {:induction false} FirstErrorSticks(a: seq<(string, FileInput)>, b: seq<(string, FileInput)>)
    requires FirstError(a).Some?
    ensures FirstError(a + b) == FirstError(a)
  {
    if b == [] {
      assert a + b == a;
    } else {
      assert (a + b)[..|a + b| - 1] == a + b[..|b| - 1];
      FirstErrorSticks(a, b[..|b| - 1]);
    }
  }

  lemma {:induction false} DirectoryItemsAppend(a: seq<DirEntry>, b: seq<DirEntry>)
    ensures DirectoryItems(a + b) == DirectoryItems(a) + DirectoryItems(b)
  {
    if b == [] {
      assert a + b == a;
    } else {
      assert (a + b)[..|a + b| - 1] == a + b[..|b| - 1];
      DirectoryItemsAppend(a, b[..|b| - 1]);
    }
  }

  // ---------------------------------------------------------------------
  // Properties of the archive.

  /** The total length of the names of some records. */
  function NamesLength(cs: seq<Chunk>): nat
    requires forall k :: 0 <= k < |cs| ==> !cs[k].EndChunk?
  {
    if cs == [] then 0 else NamesLength(cs[..|cs| - 1]) + |cs[|cs| - 1].name|
  }

  lemma {:induction false} NamesLengthZero(cs: seq<Chunk>)
    requires forall k :: 0 <= k < |cs| ==> !cs[k].EndChunk?
    ensures NamesLength(cs) == 0 <==> forall k :: 0 <= k < |cs| ==> cs[k].name == ""
  {
    if cs != [] {
      NamesLengthZero(cs[..|cs| - 1]);
      assert forall k :: 0 <= k < |cs| - 1 ==> cs[..|cs| - 1][k] == cs[k];
    }
  }

  /** The central directory takes 46 bytes per entry plus the names. */
  lemma {:induction false} CentralSize(locals: seq<Chunk>, j: nat)
    requires forall k :: 0 <= k < |locals| ==> locals[k].LocalChunk?
    requires j <= |locals|
    ensures StreamSize(CentralChunks(locals)[..j]) == CENTRAL_HEADER_SIZE * j + NamesLength(locals[..j])
  {
    if j > 0 {
      var c := CentralChunks(locals);
      assert c[..j][..j - 1] == c[..j - 1];
      assert locals[..j][..j - 1] == locals[..j - 1];
      CentralSize(locals, j - 1);
    }
  }

  /**
   * Layout of an archive of `n` local records: the records, then their `n`
   * central headers in the same order, then the end record.  Each central
   * header carries its record's name, times, CRC and sizes, and the position
   * of that record in the stream; the end record counts the entries and
   * points at the first central header (all as the on-disk widths allow).
   */
  lemma ArchiveLayout(locals: seq<Chunk>)
    requires AllLocal(locals)
    ensures |Archive(locals)| == 2 * |locals| + 1
    ensures forall k :: 0 <= k < |locals| ==> Archive(locals)[k] == locals[k]
    ensures forall k :: 0 <= k < |locals| ==> CentralAt(locals, k)
  {
    ArchiveParts(locals);
    forall k | 0 <= k < |locals|
      ensures Archive(locals)[k] == locals[k]
    {
      ArchiveLocalAt(locals, k);
    }
    forall k | 0 <= k < |locals|
      ensures CentralAt(locals, k)
    {
      ArchiveCentralAt(locals, k);
    }
  }

  /**
   * Entry `|locals| + k` of the archive is the central header of record `k`:
   * it carries that record's name and fields, and the record's position in
   * the stream as a `uint32_t`.
   */
  predicate CentralAt(locals: seq<Chunk>, k: nat)
    requires AllLocal(locals) && k < |locals|
  {
    var a := Archive(locals);
    && |a| == 2 * |locals| + 1
    && var c := a[|locals| + k];
    && c.CentralChunk? && c.name == locals[k].name
    && c.central.localHeaderOffset == Low32(StreamSize(a[..k]))
    && c.central.crc32 == locals[k].local.crc32
    && c.central.compressedSize == locals[k].local.compressedSize
    && c.central.uncompressedSize == locals[k].local.uncompressedSize
    && c.central.modTime == locals[k].local.modTime
    && c.central.modDate == locals[k].local.modDate
    && c.central.filenameLength == locals[k].local.filenameLength
  }

  lemma ArchiveLocalAt(locals: seq<Chunk>, k: nat)
    requires AllLocal(locals) && k < |locals|
    ensures Archive(locals)[k] == locals[k]
  {
    ArchiveParts(locals);
    assert Archive(locals)[k] == Archive(locals)[..|locals|][k];
  }

  lemma ArchiveCentralAt(locals: seq<Chunk>, k: nat)
    requires AllLocal(locals) && k < |locals|
    ensures CentralAt(locals, k)
  {
    var n, a := |locals|, Archive(locals);
    ArchiveParts(locals);
    assert a[n + k] == a[n..2 * n][k] == CentralChunks(locals)[k];
    assert a[..k] == a[..n][..k] == locals[..k];
  }

  /** The archive cut at the two boundaries: the local records, then the central directory. */
  lemma ArchiveParts(locals: seq<Chunk>)
    requires AllLocal(locals)
    ensures |Archive(locals)| == 2 * |locals| + 1
    ensures Archive(locals)[..|locals|] == locals
    ensures Archive(locals)[|locals|..2 * |locals|] == CentralChunks(locals)
  {
    var n := |locals|;
    var c := CentralChunks(locals);
    var a := Archive(locals);
    assert a == locals + c + [EndChunk(EocdFor(n, StreamSize(locals)))];
  }

  /** The end record counts the entries and points just past the local records. */
  lemma ArchiveEnd(locals: seq<Chunk>)
    requires AllLocal(locals)
    ensures |Archive(locals)| == 2 * |locals| + 1
    ensures Archive(locals)[2 * |locals|].EndChunk?
    ensures Archive(locals)[2 * |locals|].eocd.numEntriesTotal == Low16(|locals|)
    ensures Archive(locals)[2 * |locals|].eocd.numEntriesDisk == Low16(|locals|)
    ensures Archive(locals)[2 * |locals|].eocd.centralDirOffset == Low32(StreamSize(Archive(locals)[..|locals|]))
  {
    var a := Archive(locals);
    assert a[..|locals|] == locals;
  }

  /**
   * The end record's central directory size counts 46 bytes per header and
   * leaves the names out, so it equals the directory's real size exactly
   * when every entry name is empty (section 4.3.16 of the APPNOTE asks for
   * the real size).
   */
  lemma CentralDirSizeOmitsNames(locals: seq<Chunk>)
    requires AllLocal(locals)
    requires StreamSize(CentralChunks(locals)) < TWO_32
    ensures |Archive(locals)| == 2 * |locals| + 1
    ensures var a, n := Archive(locals), |locals|;
      a[2 * n].eocd.centralDirSize == StreamSize(a[n..2 * n]) <==> forall k :: 0 <= k < n ==> locals[k].name == ""
  {
    var n := |locals|;
    var c := CentralChunks(locals);
    var a := Archive(locals);
    assert a == locals + c + [EndChunk(EocdFor(n, StreamSize(locals)))];
    assert a[n..2 * n] == c;
    CentralSize(locals, n);
    assert c[..n] == c && locals[..n] == locals;
    NamesLengthZero(locals);
  }

  /**
   * The entries of a directory source are its regular files, each under its
   * relative path with every `\` replaced by `/`; nothing else is added.
   */
  lemma {:induction false} DirectoryEntryNames(es: seq<DirEntry>)
    ensures var items := DirectoryItems(es);
      && |items| <= |es|
      && (forall k :: 0 <= k < |items| ==>
            (exists j :: 0 <= j < |es| && es[j].isRegularFile && items[k] == (EntryName(es[j].relativePath), es[j].file)))
      && (forall k, c :: 0 <= k < |items| && 0 <= c < |items[k].0| ==> items[k].0[c] != '\\')
      && ((forall j :: 0 <= j < |es| ==> !es[j].isRegularFile) ==> items == [])
  {
    if es != [] {
      var init := es[..|es| - 1];
      DirectoryEntryNames(init);
      var items := DirectoryItems(es);
      forall k | 0 <= k < |items|
        ensures exists j :: 0 <= j < |es| && es[j].isRegularFile && items[k] == (EntryName(es[j].relativePath), es[j].file)
      {
        if k < |DirectoryItems(init)| {
          var j :| 0 <= j < |init| && init[j].isRegularFile && DirectoryItems(init)[k] == (EntryName(init[j].relativePath), init[j].file);
          assert es[j] == init[j];
        } else {
          assert items[k] == (EntryName(es[|es| - 1].relativePath), es[|es| - 1].file);
        }
      }
      if forall j :: 0 <= j < |es| ==> !es[j].isRegularFile {
        assert forall j :: 0 <= j < |init| ==> init[j] == es[j];
      }
    }
  }

  /** A single-file source is stored under its bare file name, as the only entry, at offset 0. */
  lemma SingleFileEntry(filename: string, f: FileInput)
    requires FileError(f).None?
    ensures FirstError(Items(RegularFile(filename, f))).None?
    ensures var a := Archive(LocalChunks(Items(RegularFile(filename, f))));
      && |a| == 3
      && a[0] == LocalChunk(LocalHeaderFor(filename, f.contents.value, f.deflated.value, f.modified), filename, f.deflated.value)
      && a[1].central.localHeaderOffset == 0
      && a[2].eocd.numEntriesTotal == 1
      && a[2].eocd.centralDirOffset == Low32(LOCAL_HEADER_SIZE + |filename| + |f.deflated.value|)
  {
    SingleFileItems(filename, f);
    var items := [(filename, f)];
    assert items[..0] == [];
    var locals := LocalChunks(items);
    var l := LocalChunkFor(filename, f);
    assert locals == [l];
    ArchiveLayout(locals);
    ArchiveCentralAt(locals, 0);
    ArchiveEnd(locals);
    var a := Archive(locals);
    assert a[..0] == [] && a[..1] == locals;
    assert locals[..0] == [];
    assert StreamSize(locals) == StreamSize(locals[..0]) + ChunkSize(l);
  }

  /** A single-file source is added whether or not its name has a directory part. */
  lemma SingleFileItems(filename: string, f: FileInput)
    ensures Items(RegularFile(filename, f)) == [(filename, f)]
    ensures FirstError([(filename, f)]) == FileError(f)
  {
    assert [(filename, f)][..0] == [];
  }

  // ---------------------------------------------------------------------
  // The archive name and `execute`.

  /** Two zero-padded digits (`%m`, `%d`, `%H`, `%M`, `%S`). */
  function Pad2(n: int): (r: string)
    requires 0 <= n < 100
    ensures |r| == 2 && AllDigits(r) && DigitsValue(r) == n
  {
    var r := [DigitChar(n / 10), DigitChar(n % 10)];
    assert r[..1] == [r[0]] && r[..1][..0] == [];
    assert DigitsValue(r[..1]) == n / 10;
    r
  }

  /** `localtime`'s ranges (a leap second included) and a year of the common era. */
  predicate ValidTime(t: LocalTime)
  {
    t.year + 1900 >= 0 && 0 <= t.mon <= 11 && 1 <= t.mday <= 31 &&
    0 <= t.hour <= 23 && 0 <= t.min <= 59 && 0 <= t.sec <= 60
  }

  /** `put_time(&tm, "%Y%m%d%H%M%S")` in the C locale. */
  function Timestamp(t: LocalTime): (r: string)
    requires ValidTime(t)
    ensures |r| == |Decimal(t.year + 1900)| + 10
    ensures r[..|Decimal(t.year + 1900)|] == Decimal(t.year + 1900)
  {
    Decimal(t.year + 1900) + (Pad2(t.mon + 1) + (Pad2(t.mday) + (Pad2(t.hour) + (Pad2(t.min) + Pad2(t.sec)))))
  }

  /** `<source file name>_<timestamp>.zip`. */
  function ArchiveName(baseName: string, t: LocalTime): (r: string)
    requires ValidTime(t)
    ensures |r| == |baseName| + |Timestamp(t)| + 5
    ensures r[..|baseName|] == baseName && r[|baseName|] == '_' && r[|r| - 4..] == ".zip"
    ensures r[|baseName| + 1..|r| - 4] == Timestamp(t)
  {
    baseName + "_" + Timestamp(t) + ".zip"
  }

  lemma {:induction false} DecimalLength(n: nat, k: nat)
    requires k >= 1
    requires Pow10(k - 1) <= n < Pow10(k) || (k == 1 && n < 10)
    ensures |Decimal(n)| == k
  {
    if n >= 10 {
      DecimalLength(n / 10, k - 1);
    }
  }

  function Pow10(k: nat): (r: nat)
    ensures r >= 1
  {
    if k == 0 then 1 else 10 * Pow10(k - 1)
  }

  /**
   * For a four-digit year the timestamp is fourteen digits, from which the
   * year, month, day, hour, minute and second read back; the archive name is
   * the base name, `_`, those digits and `.zip`.
   */
  lemma TimestampFields(baseName: string, t: LocalTime)
    requires ValidTime(t) && 1000 <= t.year + 1900 <= 9999
    ensures var ts := Timestamp(t);
      && |ts| == 14 && AllDigits(ts)
      && DigitsValue(ts[..4]) == t.year + 1900
      && DigitsValue(ts[4..6]) == t.mon + 1
      && DigitsValue(ts[6..8]) == t.mday
      && DigitsValue(ts[8..10]) == t.hour
      && DigitsValue(ts[10..12]) == t.min
      && DigitsValue(ts[12..14]) == t.sec
      && ArchiveName(baseName, t) == baseName + "_" + ts + ".zip"
      && |ArchiveName(baseName, t)| == |baseName| + 19
  {
    TimestampDigits(t);
    TimestampDate(t);
    TimestampClock(t);
  }

  /** The timestamp of a four-digit year is fourteen digits. */
  lemma TimestampDigits(t: LocalTime)
    requires ValidTime(t) && 1000 <= t.year + 1900 <= 9999
    ensures |Timestamp(t)| == 14 && AllDigits(Timestamp(t))
  {
    TimestampSplit(t);
  }

  /** The date fields of a four-digit-year timestamp, read back from their positions. */
  lemma TimestampDate(t: LocalTime)
    requires ValidTime(t) && 1000 <= t.year + 1900 <= 9999
    ensures var ts := Timestamp(t);
      && |ts| == 14
      && DigitsValue(ts[..4]) == t.year + 1900
      && DigitsValue(ts[4..6]) == t.mon + 1
      && DigitsValue(ts[6..8]) == t.mday
  {
    TimestampSplit(t);
    DecimalValue(t.year + 1900);
  }

  /** The time-of-day fields of a four-digit-year timestamp, read back from their positions. */
  lemma TimestampClock(t: LocalTime)
    requires ValidTime(t) && 1000 <= t.year + 1900 <= 9999
    ensures var ts := Timestamp(t);
      && |ts| == 14
      && DigitsValue(ts[8..10]) == t.hour
      && DigitsValue(ts[10..12]) == t.min
      && DigitsValue(ts[12..14]) == t.sec
  {
    TimestampSplit(t);
  }

  /** The timestamp cut into its six fields. */
  lemma TimestampSplit(t: LocalTime)
    requires ValidTime(t) && 1000 <= t.year + 1900 <= 9999
    ensures var ts := Timestamp(t);
      && |ts| == 14 && AllDigits(ts)
      && ts[..4] == Decimal(t.year + 1900) && ts[4..6] == Pad2(t.mon + 1) && ts[6..8] == Pad2(t.mday)
      && ts[8..10] == Pad2(t.hour) && ts[10..12] == Pad2(t.min) && ts[12..14] == Pad2(t.sec)
  {
    assert Pow10(3) == 1000 && Pow10(4) == 10000;
    DecimalLength(t.year + 1900, 4);
    var y, a, b, c, d, e := Decimal(t.year + 1900), Pad2(t.mon + 1), Pad2(t.mday), Pad2(t.hour), Pad2(t.min), Pad2(t.sec);
    Fields14(y, a, b, c, d, e);
    assert Timestamp(t) == y + (a + (b + (c + (d + e))));
  }

  /** A four-character field and five two-character fields, joined, are found again at their positions. */
  lemma Fields14(y: string, a: string, b: string, c: string, d: string, e: string)
    requires |y| == 4 && |a| == 2 && |b| == 2 && |c| == 2 && |d| == 2 && |e| == 2
    ensures var ts := y + (a + (b + (c + (d + e))));
      && |ts| == 14
      && ts[..4] == y && ts[4..6] == a && ts[6..8] == b && ts[8..10] == c && ts[10..12] == d && ts[12..14] == e
      && (AllDigits(y) && AllDigits(a) && AllDigits(b) && AllDigits(c) && AllDigits(d) && AllDigits(e) ==> AllDigits(ts))
  {
    var r4 := d + e;
    var r3 := c + r4;
    var r2 := b + r3;
    var r1 := a + r2;
    PieceAt(y, r1);
    PieceAt(a, r2);
    PieceAt(b, r3);
    PieceAt(c, r4);
    PieceAt(d, e);
    var ts := y + r1;
    assert ts[4..6] == r1[..2];
    assert ts[6..8] == r2[..2];
    assert ts[8..10] == r3[..2];
    assert ts[10..12] == r4[..2];
    assert ts[12..14] == r4[2..];
  }

  lemma PieceAt(p: string, q: string)
    ensures (p + q)[..|p|] == p && (p + q)[|p|..] == q
    ensures AllDigits(p) && AllDigits(q) ==> AllDigits(p + q)
  {
  }

  /** What `execute` reports. */
  datatype CompressReport =
    | SourceMissing                                   // "Source does not exist"
    | Compressed(archive: string, stream: seq<Chunk>) // the archive under the backups directory
    | NotCreated                                      // "Failed to create ZIP file"
    | CompressError(message: string)                  // "CompressAction error: " + message

  /**
   * `execute(params)`. The path is `params` after tilde expansion and
   * normalisation (`homeVar`, `pwDir` and `normalize` as in `PathUtils`);
   * `setupError` is the exception `current_path` or `create_directories`
   * threw for the backups directory, if any; `present` is `fs::exists`;
   * `baseName` is the path's last component and `now` the local time.
   */
  method Execute(params: string, homeVar: Option<string>, pwDir: Option<string>, normalize: string -> Result<string>,
                 setupError: Option<string>, present: string -> bool,
                 baseName: string, now: LocalTime, canCreate: bool, source: Source)
    returns (report: CompressReport)
    requires ValidTime(now)
    ensures setupError.Some? ==> report == CompressError(setupError.value)
    ensures setupError.None? && !present(PathUtils.ExpandAndNormalizePath(params, homeVar, pwDir, normalize))
            ==> report == SourceMissing
    ensures setupError.None? && present(PathUtils.ExpandAndNormalizePath(params, homeVar, pwDir, normalize)) ==>
      report == match ZipFileOutcome(canCreate, source)
        case CannotCreate => NotCreated
        case Created(stream) => Compressed(ArchiveName(baseName, now), stream)
        case Failed(m) => CompressError(m)
  {
    var expanded := PathUtils.ExpandAndNormalizePath(params, homeVar, pwDir, normalize);
    if setupError.Some? {
      return CompressError(setupError.value);
    }
    if !present(expanded) {
      return SourceMissing;
    }
    var timestamp := Timestamp(now);
    var zipName := baseName + "_" + timestamp + ".zip";
    var outcome := CreateZipFile(canCreate, source);
    match outcome {
      case CannotCreate => report := NotCreated;
      case Created(stream) => report := Compressed(zipName, stream);
      case Failed(m) => report := CompressError(m);
    }
  }
}
