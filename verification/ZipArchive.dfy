/** The ZIP writer of `src/lib/zip.ts` and a reader that follows the end record to the central directory to the local
    headers (PKWARE APPNOTE sections 4.3.7, 4.3.12 and 4.3.16). */
module ZipArchive {
  import opened Wrappers
  import opened Crc32
  import opened ZipPaths

  /** An entry as the caller gives it. */
  datatype ZipEntry = ZipEntry(name: Bytes, data: Bytes)

  /** The DOS time and date of the archive. */
  datatype Stamp = Stamp(time: nat, date: nat)

  /** `dosDateTime` of a local date and time, months counted from 1; the fields do not overlap, so the source's
      bitwise OR is a sum. */
  function DosDateTime(year: int, month: nat, day: nat, hours: nat, minutes: nat, seconds: nat): Stamp {
    Stamp(hours * 2048 + minutes * 32 + seconds / 2, ((if year > 1980 then year else 1980) - 1980) * 512 + month * 32
          + day)
  }

  const MAX16: nat := 0xFFFF
  const MAX32: nat := 0xFFFF_FFFF

  /** The stamp tells the time to two seconds and the date from 1980 on, and fits its fields up to the year 2107. */
  lemma StampReads(year: int, month: nat, day: nat, hours: nat, minutes: nat, seconds: nat)
    requires 1 <= month <= 12 && 1 <= day <= 31 && hours < 24 && minutes < 60 && seconds < 60
    ensures var stamp := DosDateTime(year, month, day, hours, minutes, seconds);
            && stamp.time / 2048 == hours && stamp.time / 32 % 64 == minutes
            && 2 * (stamp.time % 32) <= seconds <= 2 * (stamp.time % 32) + 1
            && stamp.date % 32 == day && stamp.date / 32 % 16 == month
            && (year >= 1980 ==> 1980 + stamp.date / 512 == year) && (year < 1980 ==> stamp.date / 512 == 0)
            && stamp.time <= MAX16 && (stamp.date <= MAX16 <==> year <= 2107)
  {
    var y := (if year > 1980 then year else 1980) - 1980;
    var date := y * 512 + month * 32 + day;
    assert date / 512 == y && date / 32 == 16 * y + month;
    assert (hours * 2048 + minutes * 32 + seconds / 2) / 32 == 64 * hours + minutes;
  }

  // ---------------------------------------------------------------------------------------------
  // Little-endian fields

  /** Byte `i` of a little-endian number. */
  function ByteOf(n: nat, i: nat): Byte {
    if i == 0 then n % 0x100 else ByteOf(n / 0x100, i - 1)
  }

  function U16(b: Bytes, at: nat): nat
    requires at + 2 <= |b|
  {
    b[at] as int + 0x100 * b[at + 1] as int
  }

  function U32(b: Bytes, at: nat): nat
    requires at + 4 <= |b|
  {
    b[at] as int + 0x100 * b[at + 1] as int + 0x1_0000 * b[at + 2] as int + 0x100_0000 * b[at + 3] as int
  }

  lemma FieldRoundTrip(n: nat)
    ensures n <= MAX16 ==> ByteOf(n, 0) as int + 0x100 * ByteOf(n, 1) as int == n
    ensures n <= MAX32 ==>
              ByteOf(n, 0) as int + 0x100 * ByteOf(n, 1) as int + 0x1_0000 * ByteOf(n, 2) as int
              + 0x100_0000 * ByteOf(n, 3) as int == n
  {
    var a, b, c := n / 0x100, n / 0x100 / 0x100, n / 0x100 / 0x100 / 0x100;
    assert ByteOf(n, 1) == a % 0x100;
    assert ByteOf(n, 2) == ByteOf(a, 1) == b % 0x100;
    assert ByteOf(n, 3) == ByteOf(a, 2) == ByteOf(b, 1) == c % 0x100;
    assert n == n % 0x100 + 0x100 * a && a == a % 0x100 + 0x100 * b && b == b % 0x100 + 0x100 * c;
    if n <= MAX16 { assert a < 0x100; }
    if n <= MAX32 { assert c < 0x100; }
  }

  // ---------------------------------------------------------------------------------------------
  // The layout

  function Name(e: ZipEntry): Bytes {
    SafeZipPath(e.name)
  }

  /** What both headers share: version 2.0, UTF-8 flag, stored; stamp, checksum, both sizes, name length, no extra
      field. */
  function CommonFields(stamp: Stamp, crc: nat, size: nat, nameSize: nat): (h: Bytes)
    ensures |h| == 26
  {
    [20, 0, 0, 8, 0, 0,
     ByteOf(stamp.time, 0), ByteOf(stamp.time, 1), ByteOf(stamp.date, 0), ByteOf(stamp.date, 1),
     ByteOf(crc, 0), ByteOf(crc, 1), ByteOf(crc, 2), ByteOf(crc, 3),
     ByteOf(size, 0), ByteOf(size, 1), ByteOf(size, 2), ByteOf(size, 3), ByteOf(size, 0), ByteOf(size, 1),
     ByteOf(size, 2), ByteOf(size, 3),
     ByteOf(nameSize, 0), ByteOf(nameSize, 1), 0, 0]
  }

  function LocalHeader(stamp: Stamp, crc: nat, size: nat, nameSize: nat): (h: Bytes)
    ensures |h| == 30
  {
    [0x50, 0x4B, 3, 4] + CommonFields(stamp, crc, size, nameSize)
  }

  /** The central header also tells its writer's version and, at its end, where the local header is. */
  function CentralHeader(stamp: Stamp, crc: nat, size: nat, nameSize: nat, offset: nat): (h: Bytes)
    ensures |h| == 46
  {
    [0x50, 0x4B, 1, 2, 20, 0] + CommonFields(stamp, crc, size, nameSize)
    + [0, 0, 0, 0, 0, 0, 0, 0, 0, 0, ByteOf(offset, 0), ByteOf(offset, 1), ByteOf(offset, 2), ByteOf(offset, 3)]
  }

  function EndRecord(count: nat, centralSize: nat, offset: nat): (h: Bytes)
    ensures |h| == 22
  {
    [0x50, 0x4B, 5, 6, 0, 0, 0, 0, ByteOf(count, 0), ByteOf(count, 1), ByteOf(count, 0), ByteOf(count, 1),
     ByteOf(centralSize, 0), ByteOf(centralSize, 1), ByteOf(centralSize, 2), ByteOf(centralSize, 3),
     ByteOf(offset, 0), ByteOf(offset, 1), ByteOf(offset, 2), ByteOf(offset, 3), 0, 0]
  }

  function LocalPart(e: ZipEntry, stamp: Stamp): Bytes {
    LocalHeader(stamp, Checksum(e.data), |e.data|, |Name(e)|) + Name(e) + e.data
  }

  function CentralPart(e: ZipEntry, stamp: Stamp, offset: nat): Bytes {
    CentralHeader(stamp, Checksum(e.data), |e.data|, |Name(e)|, offset) + Name(e)
  }

  function Locals(entries: seq<ZipEntry>, stamp: Stamp): Bytes {
    if entries == [] then [] else Locals(entries[..|entries| - 1], stamp) + LocalPart(entries[|entries| - 1], stamp)
  }

  function Centrals(entries: seq<ZipEntry>, stamp: Stamp): Bytes {
    if entries == [] then []
    else
      var before := entries[..|entries| - 1];
      Centrals(before, stamp) + CentralPart(entries[|entries| - 1], stamp, |Locals(before, stamp)|)
  }

  function Archive(entries: seq<ZipEntry>, stamp: Stamp): Bytes {
    var locals, centrals := Locals(entries, stamp), Centrals(entries, stamp);
    locals + centrals + EndRecord(|entries|, |centrals|, |locals|)
  }

  predicate EntryFits(e: ZipEntry, stamp: Stamp) {
    |Name(e)| <= MAX16 && |e.data| <= MAX32 && stamp.time <= MAX16 && stamp.date <= MAX16
  }

  /** Every number fits the field it is written to. */
  predicate Fits(entries: seq<ZipEntry>, stamp: Stamp) {
    && (forall i :: 0 <= i < |entries| ==> EntryFits(entries[i], stamp) && |Locals(entries[..i], stamp)| <= MAX32)
    && |entries| <= MAX16 && |Locals(entries, stamp)| <= MAX32 && |Centrals(entries, stamp)| <= MAX32
  }

  // ---------------------------------------------------------------------------------------------
  // The reader

  datatype Stored = Stored(name: Bytes, data: Bytes, crc: nat, stamp: Stamp)

  /** Version 2.0, UTF-8 names and no other flag, and no compression. */
  predicate Plain(b: Bytes, at: nat) {
    at + 6 <= |b| && U16(b, at) == 20 && U16(b, at + 2) == 0x0800 && U16(b, at + 4) == 0
  }

  predicate Signed(b: Bytes, at: nat, third: Byte, fourth: Byte) {
    at + 4 <= |b| && b[at] == 0x50 && b[at + 1] == 0x4B && b[at + 2] == third && b[at + 3] == fourth
  }

  /** A stored, unencrypted entry whose local header is at `at`. */
  function ReadLocal(b: Bytes, at: nat): Option<Stored> {
    if at + 30 > |b| || !Signed(b, at, 3, 4) || !Plain(b, at + 4) || U32(b, at + 18) != U32(b, at + 22) then None
    else
      var name := at + 30;
      var data := name + U16(b, at + 26) + U16(b, at + 28);
      var end := data + U32(b, at + 18);
      if end > |b| then None
      else Some(Stored(b[name..name + U16(b, at + 26)], b[data..end], U32(b, at + 14),
                       Stamp(U16(b, at + 10), U16(b, at + 12))))
  }

  /** `count` central records from `at`, each checked against the local header it points to. */
  function ReadCentral(b: Bytes, at: nat, count: nat): Option<seq<Stored>>
    decreases count
  {
    if count == 0 then Some([])
    else if at + 46 > |b| || !Signed(b, at, 1, 2) || U16(b, at + 4) != 20 || !Plain(b, at + 6) then None
    else
      var name := at + 46;
      var next := name + U16(b, at + 28) + U16(b, at + 30) + U16(b, at + 32);
      var local := ReadLocal(b, U32(b, at + 42));
      if next > |b| || local.None? then None
      else
        var stored := local.value;
        if b[name..name + U16(b, at + 28)] != stored.name || U32(b, at + 16) != stored.crc
           || U32(b, at + 20) != |stored.data| || U32(b, at + 24) != |stored.data|
           || Stamp(U16(b, at + 12), U16(b, at + 14)) != stored.stamp then None
        else
          var rest := ReadCentral(b, next, count - 1);
          if rest.None? then None else Some([stored] + rest.value)
  }

  /** Reads an archive whose end record carries no comment. */
  function ReadZip(b: Bytes): Option<seq<Stored>> {
    if |b| < 22 || !Signed(b, |b| - 22, 5, 6) || U16(b, |b| - 2) != 0 then None
    else
      var end := |b| - 22;
      if U16(b, end + 4) != 0 || U16(b, end + 6) != 0 || U16(b, end + 8) != U16(b, end + 10) then None
      else if U32(b, end + 16) + U32(b, end + 12) != end then None
      else ReadCentral(b, U32(b, end + 16), U16(b, end + 10))
  }

  // ---------------------------------------------------------------------------------------------
  // The reader recovers the entries

  /** `part` stands at position `at` of `b`. */
  ghost predicate Holds(b: Bytes, at: nat, part: Bytes) {
    at + |part| <= |b| && b[at..at + |part|] == part
  }

  lemma HoldsAt(b: Bytes, at: nat, part: Bytes, k: nat)
    requires Holds(b, at, part) && k < |part|
    ensures b[at + k] == part[k]
  {
    assert b[at..at + |part|][k] == part[k];
  }

  lemma HoldsPrefix(b: Bytes, at: nat, x: Bytes, y: Bytes)
    requires Holds(b, at, x + y)
    ensures Holds(b, at, x) && Holds(b, at + |x|, y)
  {
    assert b[at..at + |x|] == b[at..at + |x| + |y|][..|x|];
    assert b[at + |x|..at + |x| + |y|] == b[at..at + |x| + |y|][|x|..];
    assert (x + y)[..|x|] == x && (x + y)[|x|..] == y;
  }

  lemma Field16(b: Bytes, at: nat, h: Bytes, k: nat, n: nat)
    requires Holds(b, at, h) && k + 2 <= |h| && n <= MAX16 && h[k] == ByteOf(n, 0) && h[k + 1] == ByteOf(n, 1)
    ensures U16(b, at + k) == n
  {
    HoldsAt(b, at, h, k);
    HoldsAt(b, at, h, k + 1);
    FieldRoundTrip(n);
  }

  lemma Field32(b: Bytes, at: nat, h: Bytes, k: nat, n: nat)
    requires Holds(b, at, h) && k + 4 <= |h| && n <= MAX32
    requires h[k] == ByteOf(n, 0) && h[k + 1] == ByteOf(n, 1) && h[k + 2] == ByteOf(n, 2) && h[k + 3] == ByteOf(n, 3)
    ensures U32(b, at + k) == n
  {
    HoldsAt(b, at, h, k);
    HoldsAt(b, at, h, k + 1);
    HoldsAt(b, at, h, k + 2);
    HoldsAt(b, at, h, k + 3);
    FieldRoundTrip(n);
  }

  lemma Mark(b: Bytes, at: nat, h: Bytes, third: Byte, fourth: Byte)
    requires Holds(b, at, h) && |h| >= 4 && h[0] == 0x50 && h[1] == 0x4B && h[2] == third && h[3] == fourth
    ensures Signed(b, at, third, fourth)
  {
    HoldsAt(b, at, h, 0);
    HoldsAt(b, at, h, 1);
    HoldsAt(b, at, h, 2);
    HoldsAt(b, at, h, 3);
  }

  lemma ZeroBytes()
    ensures ByteOf(0, 0) == 0 && ByteOf(0, 1) == 0
  {
  }

  function StoredEntry(e: ZipEntry, stamp: Stamp): Stored {
    Stored(Name(e), e.data, Checksum(e.data), stamp)
  }

  lemma HoldsMeans(b: Bytes, at: nat, part: Bytes)
    requires Holds(b, at, part)
    ensures at + |part| <= |b| && b[at..at + |part|] == part
  {
  }

  lemma Constants()
    ensures ByteOf(0x0403_4B50, 0) == 0x50 && ByteOf(0x0403_4B50, 1) == 0x4B && ByteOf(0x0403_4B50, 2) == 3
            && ByteOf(0x0403_4B50, 3) == 4
    ensures ByteOf(0x0201_4B50, 0) == 0x50 && ByteOf(0x0201_4B50, 1) == 0x4B && ByteOf(0x0201_4B50, 2) == 1
            && ByteOf(0x0201_4B50, 3) == 2
    ensures ByteOf(0x0605_4B50, 0) == 0x50 && ByteOf(0x0605_4B50, 1) == 0x4B && ByteOf(0x0605_4B50, 2) == 5
            && ByteOf(0x0605_4B50, 3) == 6
    ensures ByteOf(20, 0) == 20 && ByteOf(20, 1) == 0 && ByteOf(0x0800, 0) == 0 && ByteOf(0x0800, 1) == 8
  {
    assert 0x0403_4B50 / 0x100 == 0x0004_034B && 0x0004_034B / 0x100 == 0x403 && 0x403 / 0x100 == 4;
    assert ByteOf(0x0403_4B50, 2) == ByteOf(0x0004_034B, 1) == ByteOf(0x403, 0);
    assert ByteOf(0x0403_4B50, 3) == ByteOf(0x0004_034B, 2) == ByteOf(0x403, 1);
    assert 0x0201_4B50 / 0x100 == 0x0002_014B && 0x0002_014B / 0x100 == 0x201 && 0x201 / 0x100 == 2;
    assert ByteOf(0x0201_4B50, 2) == ByteOf(0x0002_014B, 1) == ByteOf(0x201, 0);
    assert ByteOf(0x0201_4B50, 3) == ByteOf(0x0002_014B, 2) == ByteOf(0x201, 1);
    assert 0x0605_4B50 / 0x100 == 0x0006_054B && 0x0006_054B / 0x100 == 0x605 && 0x605 / 0x100 == 6;
    assert ByteOf(0x0605_4B50, 2) == ByteOf(0x0006_054B, 1) == ByteOf(0x605, 0);
    assert ByteOf(0x0605_4B50, 3) == ByteOf(0x0006_054B, 2) == ByteOf(0x605, 1);
  }

  lemma CommonRead(b: Bytes, at: nat, stamp: Stamp, crc: nat, size: nat, nameSize: nat)
    requires Holds(b, at, CommonFields(stamp, crc, size, nameSize)) && crc <= MAX32 && size <= MAX32
             && nameSize <= MAX16
    requires stamp.time <= MAX16 && stamp.date <= MAX16
    ensures at + 26 <= |b| && Plain(b, at) && U32(b, at + 10) == crc && U32(b, at + 14) == size
    ensures U32(b, at + 18) == size && U16(b, at + 22) == nameSize && U16(b, at + 24) == 0
    ensures Stamp(U16(b, at + 6), U16(b, at + 8)) == stamp
  {
    Constants();
    hide ByteOf, Holds, U16, U32;
    var h := CommonFields(stamp, crc, size, nameSize);
    HoldsMeans(b, at, h);
    ZeroBytes();
    Field16(b, at, h, 0, 20);
    Field16(b, at, h, 2, 0x0800);
    Field16(b, at, h, 4, 0);
    Field16(b, at, h, 6, stamp.time);
    Field16(b, at, h, 8, stamp.date);
    Field32(b, at, h, 10, crc);
    Field32(b, at, h, 14, size);
    Field32(b, at, h, 18, size);
    Field16(b, at, h, 22, nameSize);
    Field16(b, at, h, 24, 0);
  }

  lemma LocalFields(b: Bytes, at: nat, stamp: Stamp, crc: nat, size: nat, nameSize: nat)
    requires Holds(b, at, LocalHeader(stamp, crc, size, nameSize)) && crc <= MAX32 && size <= MAX32 && nameSize <= MAX16
    requires stamp.time <= MAX16 && stamp.date <= MAX16
    ensures at + 30 <= |b| && Signed(b, at, 3, 4) && Plain(b, at + 4) && U32(b, at + 14) == crc
            && U32(b, at + 18) == size && Stamp(U16(b, at + 10), U16(b, at + 12)) == stamp
    ensures U32(b, at + 22) == size && U16(b, at + 26) == nameSize && U16(b, at + 28) == 0
  {
    hide ByteOf, Holds, U16, U32, Signed, CommonFields, Plain;
    HoldsPrefix(b, at, [0x50, 0x4B, 3, 4], CommonFields(stamp, crc, size, nameSize));
    Mark(b, at, [0x50, 0x4B, 3, 4], 3, 4);
    CommonRead(b, at + 4, stamp, crc, size, nameSize);
  }

  lemma LocalReads(b: Bytes, at: nat, e: ZipEntry, stamp: Stamp)
    requires Holds(b, at, LocalPart(e, stamp)) && EntryFits(e, stamp)
    ensures ReadLocal(b, at) == Some(StoredEntry(e, stamp))
  {
    hide ByteOf, Checksum, Name, Holds, U16, U32, Signed, LocalHeader, Plain;
    var name, data := Name(e), e.data;
    var h := LocalHeader(stamp, Checksum(data), |data|, |name|);
    ChecksumIsWord(data);
    HoldsPrefix(b, at, h + name, data);
    HoldsPrefix(b, at, h, name);
    LocalFields(b, at, stamp, Checksum(data), |data|, |name|);
    HoldsMeans(b, at + 30, name);
    HoldsMeans(b, at + 30 + |name|, data);
  }

  lemma CentralFields(b: Bytes, at: nat, stamp: Stamp, crc: nat, size: nat, nameSize: nat, offset: nat)
    requires Holds(b, at, CentralHeader(stamp, crc, size, nameSize, offset)) && crc <= MAX32 && size <= MAX32
             && nameSize <= MAX16 && offset <= MAX32 && stamp.time <= MAX16 && stamp.date <= MAX16
    ensures at + 46 <= |b| && Signed(b, at, 1, 2) && U32(b, at + 16) == crc && U32(b, at + 20) == size
    ensures U16(b, at + 4) == 20 && Plain(b, at + 6) && U32(b, at + 24) == size
    ensures Stamp(U16(b, at + 12), U16(b, at + 14)) == stamp
    ensures U16(b, at + 28) == nameSize && U16(b, at + 30) == 0 && U16(b, at + 32) == 0 && U32(b, at + 42) == offset
  {
    Constants();
    hide ByteOf, Holds, U16, U32, Signed, CommonFields, Plain;
    var front, common := [0x50, 0x4B, 1, 2, 20, 0], CommonFields(stamp, crc, size, nameSize);
    var tail := [0, 0, 0, 0, 0, 0, 0, 0, 0, 0, ByteOf(offset, 0), ByteOf(offset, 1), ByteOf(offset, 2),
                 ByteOf(offset, 3)];
    HoldsPrefix(b, at, front + common, tail);
    HoldsPrefix(b, at, front, common);
    Mark(b, at, front, 1, 2);
    Field16(b, at, front, 4, 20);
    CommonRead(b, at + 6, stamp, crc, size, nameSize);
    HoldsMeans(b, at + 32, tail);
    ZeroBytes();
    Field16(b, at + 32, tail, 0, 0);
    Field32(b, at + 32, tail, 10, offset);
  }

  lemma CentralReads(b: Bytes, at: nat, e: ZipEntry, stamp: Stamp, offset: nat, count: nat)
    requires Holds(b, at, CentralPart(e, stamp, offset)) && Holds(b, offset, LocalPart(e, stamp))
             && EntryFits(e, stamp) && offset <= MAX32
    ensures ReadCentral(b, at, count + 1) ==
            var rest := ReadCentral(b, at + 46 + |Name(e)|, count);
            if rest.None? then None else Some([StoredEntry(e, stamp)] + rest.value)
  {
    hide ByteOf, Checksum, Name, Holds, U16, U32, Signed, ReadLocal, LocalPart, LocalHeader, CentralHeader,
         Plain;
    var name, data := Name(e), e.data;
    var h := CentralHeader(stamp, Checksum(data), |data|, |name|, offset);
    ChecksumIsWord(data);
    HoldsPrefix(b, at, h, name);
    CentralFields(b, at, stamp, Checksum(data), |data|, |name|, offset);
    HoldsMeans(b, at + 46, name);
    LocalReads(b, offset, e, stamp);
  }

  lemma CentralPartSize(e: ZipEntry, stamp: Stamp, offset: nat)
    ensures |CentralPart(e, stamp, offset)| == 46 + |Name(e)|
  {
  }

  lemma HoldsMore(b: Bytes, at: nat, part: Bytes, more: Bytes)
    requires Holds(b, at, part)
    ensures Holds(b + more, at, part)
  {
  }

  lemma HoldsLast(b: Bytes, part: Bytes)
    ensures Holds(b + part, |b|, part)
  {
  }

  lemma {:induction false} LocalsSplit(entries: seq<ZipEntry>, stamp: Stamp, i: nat)
    requires i < |entries|
    ensures Holds(Locals(entries, stamp), |Locals(entries[..i], stamp)|, LocalPart(entries[i], stamp))
    decreases |entries|
  {
    hide LocalPart, Holds;
    var n := |entries| - 1;
    var before, last := Locals(entries[..n], stamp), LocalPart(entries[n], stamp);
    if i < n {
      LocalsSplit(entries[..n], stamp, i);
      assert entries[..n][..i] == entries[..i];
      HoldsMore(before, |Locals(entries[..i], stamp)|, LocalPart(entries[i], stamp), last);
    } else {
      HoldsLast(before, last);
    }
  }

  lemma {:induction false} CentralsSplit(entries: seq<ZipEntry>, stamp: Stamp, i: nat)
    requires i < |entries|
    ensures Holds(Centrals(entries, stamp), |Centrals(entries[..i], stamp)|,
                  CentralPart(entries[i], stamp, |Locals(entries[..i], stamp)|))
    decreases |entries|
  {
    hide CentralPart, Holds, Locals;
    var n := |entries| - 1;
    var before, last := Centrals(entries[..n], stamp), CentralPart(entries[n], stamp, |Locals(entries[..n], stamp)|);
    if i < n {
      CentralsSplit(entries[..n], stamp, i);
      assert entries[..n][..i] == entries[..i];
      HoldsMore(before, |Centrals(entries[..i], stamp)|, CentralPart(entries[i], stamp, |Locals(entries[..i], stamp)|),
                last);
    } else {
      HoldsLast(before, last);
    }
  }

  lemma NextCentral(entries: seq<ZipEntry>, stamp: Stamp, i: nat)
    requires i < |entries|
    ensures |Centrals(entries[..i + 1], stamp)| == |Centrals(entries[..i], stamp)| + 46 + |Name(entries[i])|
  {
    assert entries[..i + 1][..i] == entries[..i];
    CentralPartSize(entries[i], stamp, |Locals(entries[..i], stamp)|);
    hide CentralPart;
  }

  lemma NothingLeft(b: Bytes, at: nat)
    ensures ReadCentral(b, at, 0) == Some([])
  {
  }

  lemma HoldsWithin(b: Bytes, at: nat, whole: Bytes, inner: nat, part: Bytes)
    requires Holds(b, at, whole) && Holds(whole, inner, part)
    ensures Holds(b, at + inner, part)
  {
    assert at + inner + |part| <= |b|;
    forall k | 0 <= k < |part| ensures b[at + inner + k] == part[k] {
      HoldsAt(whole, inner, part, k);
      HoldsAt(b, at, whole, inner + k);
    }
  }

  function StoredFrom(entries: seq<ZipEntry>, stamp: Stamp, i: nat): seq<Stored>
    requires i <= |entries|
    decreases |entries| - i
  {
    if i == |entries| then [] else [StoredEntry(entries[i], stamp)] + StoredFrom(entries, stamp, i + 1)
  }

  lemma {:induction false} RestReads(b: Bytes, entries: seq<ZipEntry>, stamp: Stamp, i: nat)
    requires i <= |entries| && Fits(entries, stamp)
    requires Holds(b, 0, Locals(entries, stamp)) && Holds(b, |Locals(entries, stamp)|, Centrals(entries, stamp))
    ensures ReadCentral(b, |Locals(entries, stamp)| + |Centrals(entries[..i], stamp)|, |entries| - i)
              == Some(StoredFrom(entries, stamp, i))
    decreases |entries| - i
  {
    hide Locals, Centrals, LocalPart, CentralPart, StoredEntry, Holds, ReadCentral, Name, EntryFits;
    if i == |entries| {
      assert entries[..i] == entries;
      NothingLeft(b, |Locals(entries, stamp)| + |Centrals(entries, stamp)|);
    } else {
      var locals, centrals := Locals(entries, stamp), Centrals(entries, stamp);
      LocalsSplit(entries, stamp, i);
      CentralsSplit(entries, stamp, i);
      NextCentral(entries, stamp, i);
      HoldsWithin(b, 0, locals, |Locals(entries[..i], stamp)|, LocalPart(entries[i], stamp));
      HoldsWithin(b, |locals|, centrals, |Centrals(entries[..i], stamp)|,
                  CentralPart(entries[i], stamp, |Locals(entries[..i], stamp)|));
      CentralReads(b, |locals| + |Centrals(entries[..i], stamp)|, entries[i], stamp, |Locals(entries[..i], stamp)|,
                   |entries| - i - 1);
      RestReads(b, entries, stamp, i + 1);
    }
  }

  lemma EndFields(b: Bytes, at: nat, count: nat, centralSize: nat, offset: nat)
    requires Holds(b, at, EndRecord(count, centralSize, offset)) && |b| == at + 22 && count <= MAX16
             && centralSize <= MAX32 && offset <= MAX32
    ensures Signed(b, at, 5, 6) && U16(b, |b| - 2) == 0 && U16(b, at + 10) == count && U32(b, at + 12) == centralSize
            && U32(b, at + 16) == offset && U16(b, at + 4) == U16(b, at + 6) == 0 && U16(b, at + 8) == count
  {
    hide ByteOf, Holds, U16, U32, Signed;
    var h := EndRecord(count, centralSize, offset);
    ZeroBytes();
    Mark(b, at, h, 5, 6);
    Field16(b, at, h, 20, 0);
    Field16(b, at, h, 4, 0);
    Field16(b, at, h, 6, 0);
    Field16(b, at, h, 8, count);
    Field16(b, at, h, 10, count);
    Field32(b, at, h, 12, centralSize);
    Field32(b, at, h, 16, offset);
  }

  lemma {:induction false} StoredFromEach(entries: seq<ZipEntry>, stamp: Stamp, i: nat, k: nat)
    requires i <= k <= |entries|
    ensures |StoredFrom(entries, stamp, i)| == |entries| - i
            && (k < |entries| ==> StoredFrom(entries, stamp, i)[k - i] == StoredEntry(entries[k], stamp))
    decreases |entries| - i
  {
    hide StoredEntry;
    if i < |entries| { StoredFromEach(entries, stamp, i + 1, if i < k then k else i + 1); }
  }

  lemma WholeHolds(b: Bytes)
    ensures Holds(b, 0, b)
  {
    assert b[0..|b|] == b;
  }

  lemma NoCentrals(entries: seq<ZipEntry>, stamp: Stamp)
    ensures Centrals(entries[..0], stamp) == []
  {
  }

  lemma ReadsAll(entries: seq<ZipEntry>, stamp: Stamp)
    requires Fits(entries, stamp)
    ensures ReadZip(Archive(entries, stamp)) == Some(StoredFrom(entries, stamp, 0))
  {
    hide Locals, Centrals, ByteOf, U16, U32, Signed, ReadCentral, EntryFits, StoredFrom, Holds, EndRecord;
    var b, locals, centrals := Archive(entries, stamp), Locals(entries, stamp), Centrals(entries, stamp);
    var end := EndRecord(|entries|, |centrals|, |locals|);
    WholeHolds(b);
    HoldsPrefix(b, 0, locals + centrals, end);
    HoldsPrefix(b, 0, locals, centrals);
    EndFields(b, |locals| + |centrals|, |entries|, |centrals|, |locals|);
    RestReads(b, entries, stamp, 0);
    NoCentrals(entries, stamp);
  }

  /** Whatever entries fit the format, the reader gets back exactly their sanitised names, their data, the CRC-32 of
      that data and the stamp, in order. */
  lemma ReaderRecoversEntries(entries: seq<ZipEntry>, stamp: Stamp)
    requires Fits(entries, stamp)
    ensures var read := ReadZip(Archive(entries, stamp));
            read.Some? && |read.value| == |entries|
            && forall i :: 0 <= i < |entries| ==>
                 read.value[i]
                   == Stored(SafeZipPath(entries[i].name), entries[i].data, Checksum(entries[i].data), stamp)
  {
    hide ReadZip, Archive, Fits;
    ReadsAll(entries, stamp);
    forall i | 0 <= i <= |entries|
      ensures |StoredFrom(entries, stamp, 0)| == |entries|
              && (i < |entries| ==> StoredFrom(entries, stamp, 0)[i] == StoredEntry(entries[i], stamp))
    {
      StoredFromEach(entries, stamp, 0, i);
    }
  }

  // ---------------------------------------------------------------------------------------------
  // The writer

  /** `Buffer.writeUInt32LE`, which throws on a number that does not fit. */
  method WriteUInt32LE(buffer: array<Byte>, value: nat, at: nat) returns (ok: bool)
    requires at + 4 <= buffer.Length
    modifies buffer
    ensures ok <==> value <= MAX32
    ensures forall k :: 0 <= k < buffer.Length ==>
              buffer[k] == if ok && at <= k < at + 4 then ByteOf(value, k - at) else old(buffer[k])
  {
    if value > MAX32 { return false; }
    for i := 0 to 4
      invariant forall k :: 0 <= k < buffer.Length ==>
                  buffer[k] == if at <= k < at + i then ByteOf(value, k - at) else old(buffer[k])
    {
      buffer[at + i] := ByteOf(value, i);
    }
    ok := true;
  }

  method WriteUInt16LE(buffer: array<Byte>, value: nat, at: nat) returns (ok: bool)
    requires at + 2 <= buffer.Length
    modifies buffer
    ensures ok <==> value <= MAX16
    ensures forall k :: 0 <= k < buffer.Length ==>
              buffer[k] == if ok && at <= k < at + 2 then ByteOf(value, k - at) else old(buffer[k])
  {
    if value > MAX16 { return false; }
    buffer[at], buffer[at + 1] := ByteOf(value, 0), ByteOf(value, 1);
    ok := true;
  }

  /** The writes both headers share, `at` bytes into a zeroed buffer. */
  method WriteCommon(buffer: array<Byte>, at: nat, stamp: Stamp, crc: nat, size: nat, nameSize: nat) returns (ok: bool)
    requires at + 26 <= buffer.Length && crc <= MAX32 && forall k :: at <= k < at + 26 ==> buffer[k] == 0
    modifies buffer
    ensures ok <==> size <= MAX32 && nameSize <= MAX16 && stamp.time <= MAX16 && stamp.date <= MAX16
    ensures ok ==> forall k :: 0 <= k < buffer.Length ==>
              buffer[k] == if at <= k < at + 26 then CommonFields(stamp, crc, size, nameSize)[k - at]
                           else old(buffer[k])
  {
    hide ByteOf;
    Constants();
    var version := WriteUInt16LE(buffer, 20, at);
    var flags := WriteUInt16LE(buffer, 0x0800, at + 2);
    var time := WriteUInt16LE(buffer, stamp.time, at + 6);
    if !time { return false; }
    var date := WriteUInt16LE(buffer, stamp.date, at + 8);
    if !date { return false; }
    var sum := WriteUInt32LE(buffer, crc, at + 10);
    var stored := WriteUInt32LE(buffer, size, at + 14);
    if !stored { return false; }
    var original := WriteUInt32LE(buffer, size, at + 18);
    ok := WriteUInt16LE(buffer, nameSize, at + 22);
  }

  method MakeLocalHeader(stamp: Stamp, crc: nat, size: nat, nameSize: nat) returns (h: Option<Bytes>)
    requires crc <= MAX32
    ensures h == if size <= MAX32 && nameSize <= MAX16 && stamp.time <= MAX16 && stamp.date <= MAX16
                 then Some(LocalHeader(stamp, crc, size, nameSize)) else None
  {
    hide ByteOf, CommonFields;
    Constants();
    var header := new Byte[30](_ => 0);
    var signed := WriteUInt32LE(header, 0x0403_4B50, 0);
    var ok := WriteCommon(header, 4, stamp, crc, size, nameSize);
    if !ok { return None; }
    assert header[..] == LocalHeader(stamp, crc, size, nameSize);
    h := Some(header[..]);
  }

  method MakeCentralHeader(stamp: Stamp, crc: nat, size: nat, nameSize: nat, offset: nat) returns (h: Option<Bytes>)
    requires crc <= MAX32 && size <= MAX32 && nameSize <= MAX16 && stamp.time <= MAX16 && stamp.date <= MAX16
    ensures h == if offset <= MAX32 then Some(CentralHeader(stamp, crc, size, nameSize, offset)) else None
  {
    hide ByteOf, CommonFields;
    Constants();
    var record := new Byte[46](_ => 0);
    var signed := WriteUInt32LE(record, 0x0201_4B50, 0);
    var writer := WriteUInt16LE(record, 20, 4);
    var ok := WriteCommon(record, 6, stamp, crc, size, nameSize);
    var start := WriteUInt32LE(record, offset, 42);
    if !start { return None; }
    assert record[..] == CentralHeader(stamp, crc, size, nameSize, offset);
    h := Some(record[..]);
  }

  method MakeEndRecord(count: nat, centralSize: nat, offset: nat) returns (h: Option<Bytes>)
    ensures h == if count <= MAX16 && centralSize <= MAX32 && offset <= MAX32
                 then Some(EndRecord(count, centralSize, offset)) else None
  {
    hide ByteOf;
    Constants();
    var end := new Byte[22](_ => 0);
    var signed := WriteUInt32LE(end, 0x0605_4B50, 0);
    var here := WriteUInt16LE(end, count, 8);
    if !here { return None; }
    var all := WriteUInt16LE(end, count, 10);
    var size := WriteUInt32LE(end, centralSize, 12);
    if !size { return None; }
    var start := WriteUInt32LE(end, offset, 16);
    if !start { return None; }
    assert end[..] == EndRecord(count, centralSize, offset);
    h := Some(end[..]);
  }

  /** `Buffer.concat`. */
  function Concat(buffers: seq<Bytes>): Bytes {
    if buffers == [] then [] else Concat(buffers[..|buffers| - 1]) + buffers[|buffers| - 1]
  }

  lemma ConcatGrows(buffers: seq<Bytes>, last: Bytes)
    ensures Concat(buffers + [last]) == Concat(buffers) + last
  {
    assert (buffers + [last])[..|buffers|] == buffers;
  }

  lemma NothingYet(entries: seq<ZipEntry>, stamp: Stamp)
    ensures Locals(entries[..0], stamp) == [] && Centrals(entries[..0], stamp) == [] && Concat([]) == []
  {
  }

  lemma OneMoreEntry(entries: seq<ZipEntry>, stamp: Stamp, i: nat)
    requires i < |entries|
    ensures Locals(entries[..i + 1], stamp) == Locals(entries[..i], stamp) + LocalPart(entries[i], stamp)
    ensures Centrals(entries[..i + 1], stamp)
              == Centrals(entries[..i], stamp) + CentralPart(entries[i], stamp, |Locals(entries[..i], stamp)|)
  {
    hide LocalPart, CentralPart;
    assert entries[..i + 1][..i] == entries[..i];
  }

  /** `createZip`: writes the archive exactly when every number fits its field, else throws. */
  method CreateZip(table: seq<Word>, entries: seq<ZipEntry>, stamp: Stamp) returns (r: Option<Bytes>)
    requires IsTable(table)
    ensures r == if Fits(entries, stamp) then Some(Archive(entries, stamp)) else None
  {
    hide ByteOf, Checksum, SafeZipPath, LocalHeader, CentralHeader, EndRecord, Concat, Locals, Centrals;
    var locals: seq<Bytes>, centrals: seq<Bytes>, offset := [], [], 0;
    NothingYet(entries, stamp);
    for i := 0 to |entries|
      invariant Concat(locals) == Locals(entries[..i], stamp) && Concat(centrals) == Centrals(entries[..i], stamp)
                && offset == |Locals(entries[..i], stamp)|
      invariant forall k :: 0 <= k < i ==> EntryFits(entries[k], stamp) && |Locals(entries[..k], stamp)| <= MAX32
    {
      var name, data := SafeZipPath(entries[i].name), entries[i].data;
      var crc := ComputeCrc32(table, data);
      var header := MakeLocalHeader(stamp, crc, |data|, |name|);
      if header.None? { return None; }
      var record := MakeCentralHeader(stamp, crc, |data|, |name|, offset);
      if record.None? { return None; }
      ConcatGrows(locals, header.value + name + data);
      ConcatGrows(centrals, record.value + name);
      OneMoreEntry(entries, stamp, i);
      locals, centrals := locals + [header.value + name + data], centrals + [record.value + name];
      offset := offset + |header.value| + |name| + |data|;
    }
    assert entries[..|entries|] == entries;
    var end := MakeEndRecord(|entries|, |Concat(centrals)|, offset);
    if end.None? { return None; }
    r := Some(Concat(locals) + Concat(centrals) + end.value);
  }

  /** Writing then reading: whenever the writer does not throw, the reader recovers the entries. */
  method WriteThenRead(entries: seq<ZipEntry>, stamp: Stamp) returns (read: Option<seq<Stored>>)
    ensures read.Some? <==> Fits(entries, stamp)
    ensures read.Some? ==> |read.value| == |entries|
                           && forall i :: 0 <= i < |entries| ==>
                                read.value[i]
                                  == Stored(SafeZipPath(entries[i].name), entries[i].data, Checksum(entries[i].data),
                                            stamp)
  {
    hide Archive, ReadZip, Fits, Checksum;
    var table := BuildTable();
    var archive := CreateZip(table, entries, stamp);
    if archive.None? { return None; }
    ReaderRecoversEntries(entries, stamp);
    read := ReadZip(archive.value);
  }
}
