/**
 Reading and writing RIFF/WAVE files with PCM16 mono audio (packages/go/audio/wav.go; the chunk layout is
 that of the Multimedia Programming Interface and Data Specifications 1.0).
 */
module WavFiles {
  import opened Basics

  datatype WavError = InvalidFile | InvalidSize | TruncatedChunk | TruncatedPayload | WrongFormat | InvalidData
    | MissingPadding | MissingChunks

  const RIFF: seq<byte> := [0x52, 0x49, 0x46, 0x46]
  const WAVE: seq<byte> := [0x57, 0x41, 0x56, 0x45]
  const FMT: seq<byte> := [0x66, 0x6D, 0x74, 0x20]
  const DATA: seq<byte> := [0x64, 0x61, 0x74, 0x61]

  // ----- little-endian numbers -----

  function U16(s: seq<byte>): int
    requires |s| == 2
  {
    s[0] as int + 256 * (s[1] as int)
  }

  function U32(s: seq<byte>): (n: int)
    requires |s| == 4
    ensures 0 <= n < 0x1_0000_0000
  {
    s[0] as int + 256 * (s[1] as int) + 0x1_0000 * (s[2] as int) + 0x100_0000 * (s[3] as int)
  }

  function LE16(n: int): (s: seq<byte>)
    requires 0 <= n < 0x1_0000
    ensures |s| == 2 && U16(s) == n
  {
    [n % 256, n / 256]
  }

  function LE32(n: int): (s: seq<byte>)
    requires 0 <= n < 0x1_0000_0000
    ensures |s| == 4 && U32(s) == n
  {
    var a, b, c := n / 256, n / 256 / 256, n / 256 / 256 / 256;
    [n % 256, a % 256, b % 256, c]
  }

  lemma LE32Determined(s: seq<byte>)
    requires |s| == 4
    ensures LE32(U32(s)) == s
  {
    var n := U32(s);
    var a: int, b: int, c: int, d: int := s[0], s[1], s[2], s[3];
    assert n / 256 == d * 0x1_0000 + c * 256 + b && n / 256 / 256 == d * 256 + c && n / 256 / 256 / 256 == d;
  }

  // ----- reading -----

  predicate ValidFormat(body: seq<byte>, rate: int) {
    && |body| >= 16
    && U16(body[0..2]) == 1 && U16(body[2..4]) == 1 && U32(body[4..8]) == rate && U16(body[12..14]) == 2
       && U16(body[14..16]) == 16
  }

  predicate ValidData(body: seq<byte>, max: int) {
    body != [] && |body| <= max && |body| % 2 == 0
  }

  /** What one chunk does: how many bytes it takes, and what has been found after it. */
  function ReadingOne(rest: seq<byte>, rate: int, max: int, format: bool, pcm: Option<seq<byte>>):
    (r: Result<(nat, bool, Option<seq<byte>>), WavError>)
    requires rest != []
    ensures r.Ok? ==> 0 < r.value.0 <= |rest|
  {
    if |rest| < 8 then Err(TruncatedChunk)
    else
      var id, size := rest[..4], U32(rest[4..8]);
      if 8 + size > |rest| then Err(TruncatedPayload)
      else
        var body := rest[8..8 + size];
        if id == FMT && !ValidFormat(body, rate) then Err(WrongFormat)
        else if id == DATA && (pcm.Some? || !ValidData(body, max)) then Err(InvalidData)
        else if 8 + size + size % 2 > |rest| then Err(MissingPadding)
        else Ok((8 + size + size % 2, format || id == FMT, if id == DATA then Some(body) else pcm))
  }

  /** The chunks from some point of the file on, with what was found before it. */
  function ReadingChunks(rest: seq<byte>, rate: int, max: int, format: bool, pcm: Option<seq<byte>>): Result<seq<byte>,
    WavError>
    decreases |rest|
  {
    if rest == [] then
      if format && pcm.Some? then Ok(pcm.value) else Err(MissingChunks)
    else
      match ReadingOne(rest, rate, max, format, pcm)
      case Err(e) => Err(e)
      case Ok(next) => ReadingChunks(rest[next.0..], rate, max, next.1, next.2)
  }

  /** At most max + 4097 bytes of the stream are read. */
  function Limited(stream: seq<byte>, max: int): seq<byte> {
    if max + 4097 <= 0 then [] else if |stream| <= max + 4097 then stream else stream[..max + 4097]
  }

  function Reading(stream: seq<byte>, rate: int, max: int): Result<seq<byte>, WavError> {
    var data := Limited(stream, max);
    if |data| > max + 4096 || |data| < 12 || data[..4] != RIFF || data[8..12] != WAVE then Err(InvalidFile)
    else if U32(data[4..8]) + 8 != |data| then Err(InvalidSize)
    else ReadingChunks(data[12..], rate, max, false, None)
  }

  /** The body of the reader's loop. */
  method ReadChunk(data: seq<byte>, offset: nat, sampleRate: int, maxBytes: int, validFormat: bool,
                   pcm: Option<seq<byte>>)
    returns (r: Result<(nat, bool, Option<seq<byte>>), WavError>)
    requires offset < |data|
    ensures r == ReadingOne(data[offset..], sampleRate, maxBytes, validFormat, pcm)
  {
    ghost var rest := data[offset..];
    if offset + 8 > |data| {
      return Err(TruncatedChunk);
    }
    var id, size := data[offset..offset + 4], U32(data[offset + 4..offset + 8]);
    assert id == rest[..4] && data[offset + 4..offset + 8] == rest[4..8];
    var end := offset + 8 + size;
    if end > |data| {
      return Err(TruncatedPayload);
    }
    var chunk := data[offset + 8..end];
    assert chunk == rest[8..8 + size];
    var format, found := validFormat, pcm;
    if id == FMT {
      if !ValidFormat(chunk, sampleRate) {
        return Err(WrongFormat);
      }
      format := true;
    }
    if id == DATA {
      if found.Some? || !ValidData(chunk, maxBytes) {
        return Err(InvalidData);
      }
      found := Some(chunk);
    }
    if end + size % 2 > |data| {
      return Err(MissingPadding);
    }
    r := Ok((end + size % 2 - offset, format, found));
  }

  method ReadPCM16WAV(stream: seq<byte>, sampleRate: int, maxBytes: int) returns (r: Result<seq<byte>, WavError>)
    ensures r == Reading(stream, sampleRate, maxBytes)
  {
    var data := Limited(stream, maxBytes);
    if |data| > maxBytes + 4096 || |data| < 12 || data[..4] != RIFF || data[8..12] != WAVE {
      return Err(InvalidFile);
    }
    if U32(data[4..8]) + 8 != |data| {
      return Err(InvalidSize);
    }
    r := ReadBody(data, sampleRate, maxBytes);
  }

  /** From one chunk to the next, by position. */
  lemma Onward(data: seq<byte>, offset: nat, rate: int, max: int, format: bool, pcm: Option<seq<byte>>,
               one: Result<(nat, bool, Option<seq<byte>>), WavError>)
    requires offset < |data| && one == ReadingOne(data[offset..], rate, max, format, pcm)
    ensures one.Ok? ==> offset < offset + one.value.0 <= |data|
    ensures ReadingChunks(data[offset..], rate, max, format, pcm) ==
            if one.Err? then Err(one.error) else ReadingChunks(data[offset + one.value.0..], rate, max, one.value.1,
                                                               one.value.2)
  {
    if one.Ok? {
      assert data[offset..][one.value.0..] == data[offset + one.value.0..];
    }
  }

  method ReadNext(data: seq<byte>, offset: nat, sampleRate: int, maxBytes: int, validFormat: bool,
                  pcm: Option<seq<byte>>,
                  ghost answer: Result<seq<byte>, WavError>)
    returns (r: Result<(nat, bool, Option<seq<byte>>), WavError>)
    requires offset < |data| && answer == ReadingChunks(data[offset..], sampleRate, maxBytes, validFormat, pcm)
    ensures r.Err? ==> answer == Err(r.error)
    ensures r.Ok? ==>
              offset < r.value.0 <= |data| && answer ==
                ReadingChunks(data[r.value.0..], sampleRate, maxBytes, r.value.1, r.value.2)
  {
    var one := ReadChunk(data, offset, sampleRate, maxBytes, validFormat, pcm);
    Onward(data, offset, sampleRate, maxBytes, validFormat, pcm, one);
    if one.Err? {
      return Err(one.error);
    }
    r := Ok((offset + one.value.0, one.value.1, one.value.2));
  }

  method ReadBody(data: seq<byte>, sampleRate: int, maxBytes: int) returns (r: Result<seq<byte>, WavError>)
    requires |data| >= 12
    ensures r == ReadingChunks(data[12..], sampleRate, maxBytes, false, None)
  {
    var validFormat := false;
    var pcm: Option<seq<byte>> := None;
    var offset := 12;
    ghost var answer := ReadingChunks(data[12..], sampleRate, maxBytes, false, None);
    while offset < |data|
      invariant 12 <= offset <= |data|
      invariant answer == ReadingChunks(data[offset..], sampleRate, maxBytes, validFormat, pcm)
    {
      var next := ReadNext(data, offset, sampleRate, maxBytes, validFormat, pcm, answer);
      if next.Err? {
        return Err(next.error);
      }
      offset, validFormat, pcm := next.value.0, next.value.1, next.value.2;
    }
    r := if validFormat && pcm.Some? then Ok(pcm.value) else Err(MissingChunks);
  }

  // ----- files as lists of chunks -----

  /** A chunk has an identifier of four bytes; a body of odd length is followed by one byte of padding. */
  datatype Chunk = Chunk(id: seq<byte>, body: seq<byte>, padding: seq<byte>)

  predicate Shaped(c: Chunk) {
    |c.id| == 4 && |c.body| < 0x1_0000_0000 && |c.padding| == |c.body| % 2
  }

  predicate AllShaped(chunks: seq<Chunk>) {
    forall i | 0 <= i < |chunks| :: Shaped(chunks[i])
  }

  function RenderChunk(c: Chunk): (s: seq<byte>)
    requires Shaped(c)
    ensures |s| == 8 + |c.body| + |c.body| % 2
  {
    c.id + LE32(|c.body|) + c.body + c.padding
  }

  function Render(chunks: seq<Chunk>): seq<byte>
    requires AllShaped(chunks)
  {
    if chunks == [] then [] else RenderChunk(chunks[0]) + Render(chunks[1..])
  }

  function RiffFile(chunks: seq<Chunk>): seq<byte>
    requires AllShaped(chunks) && |Render(chunks)| + 4 < 0x1_0000_0000
  {
    RIFF + LE32(|Render(chunks)| + 4) + WAVE + Render(chunks)
  }

  /** Every format chunk is acceptable. */
  predicate FormatsValid(chunks: seq<Chunk>, rate: int) {
    forall i | 0 <= i < |chunks| && chunks[i].id == FMT :: ValidFormat(chunks[i].body, rate)
  }

  predicate HasFormat(chunks: seq<Chunk>) {
    exists i :: 0 <= i < |chunks| && chunks[i].id == FMT
  }

  predicate NoData(chunks: seq<Chunk>) {
    forall i | 0 <= i < |chunks| :: chunks[i].id != DATA
  }

  /** pcm is the body of the only data chunk. */
  predicate OnlyData(chunks: seq<Chunk>, pcm: seq<byte>) {
    exists i :: 0 <= i < |chunks| && OnlyDataAt(chunks, pcm, i)
  }

  predicate OnlyDataAt(chunks: seq<Chunk>, pcm: seq<byte>, i: nat)
    requires i < |chunks|
  {
    chunks[i].id == DATA && chunks[i].body == pcm && NoData(chunks[..i]) && NoData(chunks[i + 1..])
  }

  predicate Holds(chunks: seq<Chunk>, rate: int, max: int, pcm: seq<byte>) {
    FormatsValid(chunks, rate) && HasFormat(chunks) && OnlyData(chunks, pcm) && ValidData(pcm, max)
  }

  /** The reader in the middle of a file: what is left must complete what was found. */
  predicate Completes(chunks: seq<Chunk>, rate: int, max: int, format: bool, found: Option<seq<byte>>, pcm: seq<byte>) {
    && FormatsValid(chunks, rate) && (format || HasFormat(chunks))
    && (if found.Some? then pcm == found.value && NoData(chunks) else OnlyData(chunks, pcm) && ValidData(pcm, max))
  }

  lemma ReadRendered(c: Chunk, rest: seq<byte>, rate: int, max: int, format: bool, found: Option<seq<byte>>)
    requires Shaped(c)
    ensures ReadingChunks(RenderChunk(c) + rest, rate, max, format, found) ==
            if c.id == FMT && !ValidFormat(c.body, rate) then Err(WrongFormat)
            else if c.id == DATA && (found.Some? || !ValidData(c.body, max)) then Err(InvalidData)
            else ReadingChunks(rest, rate, max, format || c.id == FMT, if c.id == DATA then Some(c.body) else found)
  {
    var s, n := RenderChunk(c) + rest, |c.body|;
    assert s[..4] == c.id && s[4..8] == LE32(n) && s[8..8 + n] == c.body && s[8 + n + n % 2..] == rest;
  }

  lemma CompletesStep(c: Chunk, rest: seq<Chunk>, rate: int, max: int, format: bool, found: Option<seq<byte>>,
                      pcm: seq<byte>)
    ensures Completes([c] + rest, rate, max, format, found, pcm) <==>
            && (c.id == FMT ==> ValidFormat(c.body, rate))
            && (c.id == DATA ==> found.None? && ValidData(c.body, max))
            && Completes(rest, rate, max, format || c.id == FMT, if c.id == DATA then Some(c.body) else found, pcm)
  {
    var chunks := [c] + rest;
    assert chunks[1..] == rest && (forall i | 0 <= i < |rest| :: chunks[i + 1] == rest[i]);
    assert FMT[0] != DATA[0];
    assert FormatsValid(chunks, rate) <==> (c.id == FMT ==> ValidFormat(c.body, rate)) && FormatsValid(rest, rate) by {
      assert chunks[0] == c;
    }
    assert HasFormat(chunks) <==> c.id == FMT || HasFormat(rest) by {
      if HasFormat(rest) {
        var i :| 0 <= i < |rest| && rest[i].id == FMT;
        assert chunks[i + 1].id == FMT;
      } else if c.id == FMT {
        assert chunks[0].id == FMT;
      }
    }
    assert NoData(chunks) <==> c.id != DATA && NoData(rest) by {
      assert chunks[0] == c;
    }
    OnlyDataStep(c, rest, pcm);
  }

  lemma OnlyDataStep(c: Chunk, rest: seq<Chunk>, pcm: seq<byte>)
    ensures OnlyData([c] + rest, pcm) <==> if c.id == DATA then c.body == pcm && NoData(rest) else OnlyData(rest, pcm)
  {
    var chunks := [c] + rest;
    if OnlyData(chunks, pcm) {
      var i :| 0 <= i < |chunks| && OnlyDataAt(chunks, pcm, i);
      if i > 0 {
        DataAtLater(c, rest, pcm, i - 1);
      } else {
        DataAtFirst(c, rest, pcm);
      }
    }
    if c.id == DATA && c.body == pcm && NoData(rest) {
      DataAtFirst(c, rest, pcm);
      assert OnlyDataAt(chunks, pcm, 0);
    }
    if c.id != DATA && OnlyData(rest, pcm) {
      var i :| 0 <= i < |rest| && OnlyDataAt(rest, pcm, i);
      DataAtLater(c, rest, pcm, i);
      assert OnlyDataAt(chunks, pcm, i + 1);
    }
  }

  lemma DataAtFirst(c: Chunk, rest: seq<Chunk>, pcm: seq<byte>)
    ensures OnlyDataAt([c] + rest, pcm, 0) <==> c.id == DATA && c.body == pcm && NoData(rest)
  {
    var chunks := [c] + rest;
    assert chunks[0] == c && chunks[..0] == [] && chunks[0 + 1..] == rest;
  }

  lemma DataAtLater(c: Chunk, rest: seq<Chunk>, pcm: seq<byte>, i: nat)
    requires i < |rest|
    ensures OnlyDataAt([c] + rest, pcm, i + 1) <==> c.id != DATA && OnlyDataAt(rest, pcm, i)
  {
    var chunks := [c] + rest;
    assert chunks[i + 1] == rest[i] && chunks[i + 1 + 1..] == rest[i + 1..];
    NoDataStep(c, rest[..i]);
    assert chunks[..i + 1] == [c] + rest[..i];
  }

  lemma NoDataStep(c: Chunk, rest: seq<Chunk>)
    ensures NoData([c] + rest) <==> c.id != DATA && NoData(rest)
  {
    assert ([c] + rest)[0] == c && ([c] + rest)[1..] == rest;
    if NoData([c] + rest) {
      assert forall i | 0 <= i < |rest| :: ([c] + rest)[i + 1] == rest[i];
    }
  }

  /** Reading a rendered list gives the data exactly when the list completes what was found. */
  lemma {:induction false} RenderedRead(chunks: seq<Chunk>, rate: int, max: int, format: bool, found: Option<seq<byte>>,
                                        pcm: seq<byte>)
    requires AllShaped(chunks)
    ensures ReadingChunks(Render(chunks), rate, max, format, found) == Ok(pcm) <==>
            Completes(chunks, rate, max, format, found, pcm)
    decreases |chunks|
  {
    if chunks != [] {
      var c, rest := chunks[0], chunks[1..];
      assert chunks == [c] + rest;
      ReadRendered(c, Render(rest), rate, max, format, found);
      CompletesStep(c, rest, rate, max, format, found, pcm);
      RenderedRead(rest, rate, max, format || c.id == FMT, if c.id == DATA then Some(c.body) else found, pcm);
    }
  }

  /** Whatever the reader accepts is a rendered list of chunks. */
  lemma {:induction false} ReadIsRendered(s: seq<byte>, rate: int, max: int, format: bool, found: Option<seq<byte>>)
    returns (chunks: seq<Chunk>)
    requires ReadingChunks(s, rate, max, format, found).Ok?
    ensures AllShaped(chunks) && Render(chunks) == s
    decreases |s|
  {
    if s == [] {
      chunks := [];
    } else {
      var next := ReadingOne(s, rate, max, format, found).value;
      var size := U32(s[4..8]);
      var c := Chunk(s[..4], s[8..8 + size], s[8 + size..8 + size + size % 2]);
      var rest := ReadIsRendered(s[next.0..], rate, max, next.1, next.2);
      chunks := [c] + rest;
      ChunkRendered(s, c, size);
      RenderFirst(c, rest);
      assert s == s[..8 + size + size % 2] + s[8 + size + size % 2..];
    }
  }

  lemma RenderFirst(c: Chunk, rest: seq<Chunk>)
    requires Shaped(c) && AllShaped(rest)
    ensures AllShaped([c] + rest) && Render([c] + rest) == RenderChunk(c) + Render(rest)
  {
    var chunks := [c] + rest;
    assert chunks[1..] == rest && (forall i | 0 <= i < |chunks| :: i == 0 || chunks[i] == rest[i - 1]);
  }

  lemma ChunkRendered(s: seq<byte>, c: Chunk, size: nat)
    requires |s| >= 8 && size == U32(s[4..8]) && |s| >= 8 + size + size % 2
    requires c == Chunk(s[..4], s[8..8 + size], s[8 + size..8 + size + size % 2])
    ensures Shaped(c) && RenderChunk(c) == s[..8 + size + size % 2]
  {
    LE32Determined(s[4..8]);
  }

  /** A file within the limit that is a RIFF list of these chunks. */
  predicate IsFile(stream: seq<byte>, max: int, chunks: seq<Chunk>) {
    |stream| <= max + 4096 && AllShaped(chunks) && |Render(chunks)| + 4 < 0x1_0000_0000 && stream == RiffFile(chunks)
  }

  lemma FileRead(stream: seq<byte>, rate: int, max: int, chunks: seq<Chunk>)
    requires IsFile(stream, max, chunks)
    ensures Reading(stream, rate, max) == ReadingChunks(Render(chunks), rate, max, false, None)
  {
    assert stream[..4] == RIFF && stream[4..8] == LE32(|Render(chunks)| + 4) && stream[8..12] == WAVE
           && stream[12..] == Render(chunks);
  }

  /**
   The reader returns pcm exactly for the files within the limit that are a RIFF list of even-padded chunks, of any
   kinds and in any order, whose format chunks are all valid, with at least one of them, and whose only data chunk
   is pcm.
   */
  lemma ReadsExactlyValidFiles(stream: seq<byte>, rate: int, max: int, pcm: seq<byte>)
    ensures Reading(stream, rate, max) == Ok(pcm) <==>
            exists chunks :: IsFile(stream, max, chunks) && Holds(chunks, rate, max, pcm)
  {
    if Reading(stream, rate, max) == Ok(pcm) {
      var chunks := AcceptedIsFile(stream, rate, max, pcm);
      assert IsFile(stream, max, chunks) && Holds(chunks, rate, max, pcm);
    }
    if exists chunks :: IsFile(stream, max, chunks) && Holds(chunks, rate, max, pcm) {
      var chunks :| IsFile(stream, max, chunks) && Holds(chunks, rate, max, pcm);
      FileRead(stream, rate, max, chunks);
      RenderedHolds(chunks, rate, max, pcm);
    }
  }

  lemma RenderedHolds(chunks: seq<Chunk>, rate: int, max: int, pcm: seq<byte>)
    requires AllShaped(chunks)
    ensures ReadingChunks(Render(chunks), rate, max, false, None) == Ok(pcm) <==> Holds(chunks, rate, max, pcm)
  {
    RenderedRead(chunks, rate, max, false, None, pcm);
  }

  lemma AcceptedIsFile(stream: seq<byte>, rate: int, max: int, pcm: seq<byte>) returns (chunks: seq<Chunk>)
    requires Reading(stream, rate, max) == Ok(pcm)
    ensures IsFile(stream, max, chunks) && Holds(chunks, rate, max, pcm)
  {
    assert Limited(stream, max) == stream;
    chunks := ReadIsRendered(stream[12..], rate, max, false, None);
    HeaderDetermined(stream, chunks);
    RenderedHolds(chunks, rate, max, pcm);
  }

  lemma HeaderDetermined(stream: seq<byte>, chunks: seq<Chunk>)
    requires |stream| >= 12 && stream[..4] == RIFF && stream[8..12] == WAVE && U32(stream[4..8]) + 8 == |stream|
    requires AllShaped(chunks) && Render(chunks) == stream[12..]
    ensures |Render(chunks)| + 4 < 0x1_0000_0000 && stream == RiffFile(chunks)
  {
    LE32Determined(stream[4..8]);
    assert stream == stream[..4] + stream[4..8] + stream[8..12] + stream[12..];
  }

  // ----- writing -----

  const MAX_OUTPUT: nat := 30 * 48000 * 2

  predicate Writable(pcm: seq<byte>, rate: int) {
    pcm != [] && |pcm| % 2 == 0 && |pcm| <= MAX_OUTPUT && 8000 <= rate <= 48000
  }

  function FormatBody(rate: int): seq<byte>
    requires 8000 <= rate <= 48000
  {
    LE16(1) + LE16(1) + LE32(rate) + LE32(rate * 2) + LE16(2) + LE16(16)
  }

  function Header(size: int, rate: int): (h: seq<byte>)
    requires 0 <= size <= MAX_OUTPUT && 8000 <= rate <= 48000
    ensures |h| == 44
  {
    RIFF + LE32(36 + size) + (WAVE + FMT) + LE32(16) + FormatBody(rate) + DATA + LE32(size)
  }

  function Writing(pcm: seq<byte>, rate: int): Option<seq<byte>> {
    if Writable(pcm, rate) then Some(Header(|pcm|, rate) + pcm) else None
  }

  /** Copies bytes into a buffer behind what was already written. */
  method Put(buffer: array<byte>, at: nat, bytes: seq<byte>, ghost written: seq<byte>)
    requires at + |bytes| <= buffer.Length && buffer[..at] == written
    modifies buffer
    ensures buffer[..at + |bytes|] == written + bytes
  {
    for k := 0 to |bytes|
      invariant buffer[..at + k] == written + bytes[..k]
    {
      buffer[at + k] := bytes[k];
      assert buffer[..at + k + 1] == buffer[..at + k] + [bytes[k]];
      assert bytes[..k + 1] == bytes[..k] + [bytes[k]];
    }
    assert bytes[..|bytes|] == bytes;
  }

  method PutFormat(header: array<byte>, rate: int, ghost written: seq<byte>)
    requires header.Length == 44 && 8000 <= rate <= 48000 && header[..20] == written
    modifies header
    ensures header[..36] == written + FormatBody(rate)
  {
    ghost var a, b, c := LE16(1), LE32(rate), LE32(rate * 2);
    Put(header, 20, LE16(1), written);
    Put(header, 22, LE16(1), written + a);
    Put(header, 24, LE32(rate), written + a + a);
    Put(header, 28, LE32(rate * 2), written + a + a + b);
    Put(header, 32, LE16(2), written + a + a + b + c);
    Put(header, 34, LE16(16), written + a + a + b + c + LE16(2));
    assert written + a + a + b + c + LE16(2) + LE16(16) == written + (a + a + b + c + LE16(2) + LE16(16));
  }

  method WritePCM16WAV(pcm: seq<byte>, sampleRate: int) returns (r: Option<seq<byte>>)
    ensures r == Writing(pcm, sampleRate)
  {
    if pcm == [] || |pcm| % 2 != 0 || |pcm| > MAX_OUTPUT || sampleRate < 8000 || sampleRate > 48000 {
      return None;
    }
    var header := new byte[44];
    PutHeader(header, |pcm|, sampleRate);
    r := Some(header[..] + pcm);
  }

  method PutHeader(header: array<byte>, size: nat, rate: int)
    requires header.Length == 44 && size <= MAX_OUTPUT && 8000 <= rate <= 48000
    modifies header
    ensures header[..] == Header(size, rate)
  {
    ghost var a := RIFF + LE32(36 + size);
    ghost var b := a + (WAVE + FMT) + LE32(16);
    ghost var c := b + FormatBody(rate) + DATA;
    Put(header, 0, RIFF, []);
    Put(header, 4, LE32(36 + size), RIFF);
    Put(header, 8, WAVE + FMT, a);
    Put(header, 16, LE32(16), a + (WAVE + FMT));
    PutFormat(header, rate, b);
    Put(header, 36, DATA, b + FormatBody(rate));
    Put(header, 40, LE32(size), c);
    assert header[..44] == header[..];
  }

  lemma FormatBodyValid(rate: int, other: int)
    requires 8000 <= rate <= 48000
    ensures |FormatBody(rate)| == 16 && (ValidFormat(FormatBody(rate), other) <==> rate == other)
  {
    var body := FormatBody(rate);
    assert body[0..2] == LE16(1) && body[2..4] == LE16(1) && body[4..8] == LE32(rate) && body[12..14] == LE16(2)
           && body[14..16] == LE16(16);
  }

  /**
   What is written reads back as the same audio exactly at the rate it was written for and within the reader's
   limit, for every length and rate the writer accepts.
   */
  lemma ReadInvertsWrite(pcm: seq<byte>, rate: int, other: int, max: int)
    requires Writing(pcm, rate).Some?
    ensures Reading(Writing(pcm, rate).value, other, max) == Ok(pcm) <==> other == rate && |pcm| <= max
    ensures Reading(Writing(pcm, rate).value, other, max).Ok? ==>
              Reading(Writing(pcm, rate).value, other, max) == Ok(pcm)
  {
    var stream := Writing(pcm, rate).value;
    var format, data := Chunk(FMT, FormatBody(rate), []), Chunk(DATA, pcm, []);
    FormatBodyValid(rate, other);
    RenderedPair(format, data);
    assert FMT[0] != DATA[0];
    HeaderRenders(pcm, rate, format, data);
    if |stream| <= max + 4096 {
      FileRead(stream, other, max, [format, data]);
      ReadRendered(format, RenderChunk(data) + [], other, max, false, None);
      ReadRendered(data, [], other, max, true, None);
    }
  }

  lemma RenderedPair(a: Chunk, b: Chunk)
    requires Shaped(a) && Shaped(b)
    ensures AllShaped([a, b]) && Render([a, b]) == RenderChunk(a) + (RenderChunk(b) + [])
  {
    RenderFirst(b, []);
    RenderFirst(a, [b]);
    assert [a] + [b] == [a, b] && [b] + [] == [b];
  }

  lemma HeaderRenders(pcm: seq<byte>, rate: int, format: Chunk, data: Chunk)
    requires Writable(pcm, rate) && format == Chunk(FMT, FormatBody(rate), []) && data == Chunk(DATA, pcm, [])
    requires Shaped(format) && Shaped(data) && AllShaped([format, data]) && |FormatBody(rate)| == 16
    requires Render([format, data]) == RenderChunk(format) + (RenderChunk(data) + [])
    ensures |Render([format, data])| == 32 + |pcm|
    ensures Header(|pcm|, rate) + pcm == RiffFile([format, data])
  {
    var a, f, d := RIFF + LE32(36 + |pcm|), FormatBody(rate), LE32(|pcm|);
    assert RenderChunk(format) == FMT + LE32(16) + f;
    assert RenderChunk(data) == DATA + d + pcm;
    Regroup(a, WAVE, FMT, LE32(16), f, DATA, d, pcm);
  }

  lemma Regroup(a: seq<byte>, b: seq<byte>, c: seq<byte>, d: seq<byte>, e: seq<byte>, f: seq<byte>, g: seq<byte>,
                h: seq<byte>)
    ensures a + (b + c) + d + e + f + g + h == a + b + (c + d + e + ((f + g + h) + []))
  {
  }
}
