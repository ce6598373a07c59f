/** The marker file: what it records about an import, how it is read back, and the replay it allows. */
module Marker {
  import opened Options
  import opened Text
  import opened Chunking
  import opened ImportTurns

  const MAX_SAFE_INTEGER := 9_007_199_254_740_991
  const DEFAULT_MAX_IMPORT_TURN_CHARS := 4000

  datatype Status = Pending | Processed

  datatype MarkerChunk = MarkerChunk(
    rawBytes: nat,
    turnFingerprint: Value,
    timestamp: Value,
    chunkIndex: nat,
    chunkCount: nat,
    maxTurnChars: nat)

  datatype Marker = Marker(
    status: Status,
    processedHash: Value,
    processedBytes: int,
    processedContent: Option<string>,
    processedChunks: Option<seq<MarkerChunk>>,
    processedAt: Value,
    reason: string)

  predicate IsSafe(n: int) {
    -MAX_SAFE_INTEGER <= n <= MAX_SAFE_INTEGER
  }

  // ---------------------------------------------------------------------------
  // Recording chunks
  // ---------------------------------------------------------------------------

  function Record(turn: ImportTurn, index: nat, turnCount: nat): MarkerChunk {
    MarkerChunk(
      turn.bytes,
      turn.fingerprint,
      turn.timestamp,
      if IsSafe(turn.chunkIndex) then turn.chunkIndex else index,
      if IsSafe(turn.chunkCount) then turn.chunkCount else turnCount,
      if IsSafe(turn.maxTurnChars) then turn.maxTurnChars else DEFAULT_MAX_IMPORT_TURN_CHARS)
  }

  function Records(turns: seq<ImportTurn>): (cs: seq<MarkerChunk>)
    ensures |cs| == |turns| && forall i | 0 <= i < |turns| :: cs[i] == Record(turns[i], i, |turns|)
  {
    seq(|turns|, i requires 0 <= i < |turns| => Record(turns[i], i, |turns|))
  }

  /** How many turns it takes to spell `rest`, if they do. */
  function TurnsSpelling(rest: string, raws: seq<string>): (r: Option<nat>)
    ensures r.Some? ==> 0 < r.value <= |raws|
    decreases raws
  {
    if raws == [] || !(raws[0] <= rest) then None
    else if raws[0] == rest then Some(1)
    else
      match TurnsSpelling(rest[|raws[0]|..], raws[1..])
      case None => None
      case Some(n) => Some(n + 1)
  }

  predicate Consistent(chunks: seq<MarkerChunk>) {
    forall i | 0 <= i < |chunks| ::
      && chunks[i].chunkIndex == i
      && chunks[i].chunkCount == |chunks|
      && chunks[i].maxTurnChars == chunks[0].maxTurnChars
  }

  function Checked(turns: seq<ImportTurn>, n: nat): Option<seq<MarkerChunk>>
    requires n <= |turns|
  {
    var chunks := Records(turns)[..n];
    if Consistent(chunks) && forall i | 0 <= i < n :: !chunks[i].timestamp.Empty() then Some(chunks) else None
  }

  /** The chunks a marker records for `content`: only when the turns spell its trimmed text and are
      numbered without gaps. */
  function RecordedChunks(content: string, turns: seq<ImportTurn>): Option<seq<MarkerChunk>> {
    if Trim(content) == "" then None
    else
      match TurnsSpelling(Trim(content), Raws(turns))
      case None => None
      case Some(n) => Checked(turns, n)
  }

  lemma {:induction false} SpellingTooLittle(rest: string, raws: seq<string>)
    requires |Concat(raws)| < |rest|
    ensures TurnsSpelling(rest, raws).None?
    decreases raws
  {
    if raws != [] && raws[0] <= rest {
      SpellingTooLittle(rest[|raws[0]|..], raws[1..]);
    }
  }

  lemma {:induction false} SpellingAll(rest: string, raws: seq<string>)
    requires Concat(raws) == rest && raws != [] && forall i | 0 <= i < |raws| :: raws[i] != ""
    ensures TurnsSpelling(rest, raws) == Some(|raws|)
    decreases raws
  {
    var tail := raws[1..];
    assert rest == raws[0] + Concat(tail);
    if tail == [] {
      assert rest == raws[0];
    } else {
      assert Concat(tail) != "" by { assert tail[0] == raws[1]; }
      assert rest[|raws[0]|..] == Concat(tail);
      SpellingAll(Concat(tail), tail);
    }
  }

  /** The recording loop. */
  method BuildProcessedMarkerChunks(content: string, turns: seq<ImportTurn>) returns (r: Option<seq<MarkerChunk>>)
    ensures r == RecordedChunks(content, turns)
  {
    var imported := Trim(content);
    var raws := Raws(turns);
    if turns == [] || imported == "" {
      return None;
    }
    ghost var spelled := TurnsSpelling(imported, raws);
    var rest := imported;
    var n: nat := 0;
    while n < |turns|
      invariant n <= |turns|
      invariant spelled == AddTo(n, TurnsSpelling(rest, raws[n..]))
    {
      assert raws[n..][1..] == raws[n + 1..];
      if !(raws[n] <= rest) {
        return None;
      }
      n := n + 1;
      if raws[n - 1] == rest {
        return Checked(turns, n);
      }
      rest := rest[|raws[n - 1]|..];
    }
    r := None;
  }

  function AddTo(n: nat, m: Option<nat>): Option<nat> {
    match m
    case None => None
    case Some(k) => Some(n + k)
  }

  function BuildMarker(status: Status, content: string, processedAt: Value, reason: string,
      turns: seq<ImportTurn>): Marker {
    Marker(status, Sha256(content), ByteLength(content), Some(content), RecordedChunks(content, turns), processedAt,
        reason)
  }

  // ---------------------------------------------------------------------------
  // The file: a JSON object. Absent fields are left out, as JSON.stringify does.
  // ---------------------------------------------------------------------------

  /** The property names of the marker and of its chunks. */
  datatype Field =
    | Version | StatusText | ProcessedHash | ProcessedBytes | ProcessedContent | ProcessedChunks | ProcessedAt | Reason
    | RawBytes | TurnFingerprint | Timestamp | ChunkIndex | ChunkCount | MaxTurnChars

  const PENDING := Plain("pending")
  const PROCESSED := Plain("processed")

  datatype Json =
    | JNumber(n: int)
    | JFraction
    | JString(v: Value)
    | JArray(items: seq<Json>)
    | JObject(fields: map<Field, Json>)
    | JOther

  function ChunkJson(c: MarkerChunk): Json {
    JObject(map[
      RawBytes := JNumber(c.rawBytes),
      TurnFingerprint := JString(c.turnFingerprint),
      Timestamp := JString(c.timestamp),
      ChunkIndex := JNumber(c.chunkIndex),
      ChunkCount := JNumber(c.chunkCount),
      MaxTurnChars := JNumber(c.maxTurnChars)])
  }

  function ChunksJson(cs: seq<MarkerChunk>): (items: seq<Json>)
    ensures |items| == |cs| && forall i | 0 <= i < |cs| :: items[i] == ChunkJson(cs[i])
  {
    seq(|cs|, i requires 0 <= i < |cs| => ChunkJson(cs[i]))
  }

  function MarkerFields(m: Marker): (f: map<Field, Json>)
    ensures Version in f && f[Version] == JNumber(1)
    ensures StatusText in f && f[StatusText] == JString(if m.status.Pending? then PENDING else PROCESSED)
    ensures ProcessedHash in f && f[ProcessedHash] == JString(m.processedHash)
    ensures ProcessedBytes in f && f[ProcessedBytes] == JNumber(m.processedBytes)
    ensures ProcessedAt in f && f[ProcessedAt] == JString(m.processedAt)
    ensures Reason in f && f[Reason] == JString(Plain(m.reason))
    ensures ProcessedContent in f <==> m.processedContent.Some?
    ensures m.processedContent.Some? ==> f[ProcessedContent] == JString(Plain(m.processedContent.value))
    ensures ProcessedChunks in f <==> m.processedChunks.Some?
    ensures m.processedChunks.Some? ==> f[ProcessedChunks] == JArray(ChunksJson(m.processedChunks.value))
  {
    var always := map[
      Version := JNumber(1),
      StatusText := JString(if m.status.Pending? then PENDING else PROCESSED),
      ProcessedHash := JString(m.processedHash),
      ProcessedBytes := JNumber(m.processedBytes),
      ProcessedAt := JString(m.processedAt),
      Reason := JString(Plain(m.reason))];
    var content := if m.processedContent.Some? then map[ProcessedContent := JString(Plain(m.processedContent.value))]
        else map[];
    var chunks := if m.processedChunks.Some? then map[ProcessedChunks := JArray(ChunksJson(m.processedChunks.value))]
        else map[];
    always + content + chunks
  }

  function MarkerJson(m: Marker): Json {
    JObject(MarkerFields(m))
  }

  function SafeField(fields: map<Field, Json>, key: Field): Option<int> {
    if key in fields && fields[key].JNumber? && IsSafe(fields[key].n) then Some(fields[key].n) else None
  }

  function StringField(fields: map<Field, Json>, key: Field): Option<Value> {
    if key in fields && fields[key].JString? then Some(fields[key].v) else None
  }

  function ParseChunk(raw: Json): Option<MarkerChunk> {
    if !raw.JObject? then None
    else
      var f := raw.fields;
      match (SafeField(f, RawBytes), StringField(f, TurnFingerprint), StringField(f, Timestamp),
             SafeField(f, ChunkIndex), SafeField(f, ChunkCount), SafeField(f, MaxTurnChars))
      case (Some(b), Some(fp), Some(ts), Some(i), Some(n), Some(m)) =>
        if b > 0 && !fp.Empty() && i >= 0 && n > 0 && m > 0 then Some(MarkerChunk(b, fp, ts, i, n, m)) else None
      case _ => None
  }

  function ParseEach(items: seq<Json>): Option<seq<MarkerChunk>> {
    if items == [] then Some([])
    else
      match (ParseChunk(items[0]), ParseEach(items[1..]))
      case (Some(c), Some(cs)) => Some([c] + cs)
      case _ => None
  }

  function ParseChunks(raw: Json): Option<seq<MarkerChunk>> {
    if !raw.JArray? || raw.items == [] then None
    else
      match ParseEach(raw.items)
      case None => None
      case Some(cs) => if Consistent(cs) then Some(cs) else None
  }

  /** The status field: absent means processed, anything unknown is refused. */
  function ParseStatus(f: map<Field, Json>): Option<Status> {
    if StatusText !in f || f[StatusText] == JString(PROCESSED) then Some(Processed)
    else if f[StatusText] == JString(PENDING) then Some(Pending)
    else None
  }

  /** Reading a marker. `None` stands for a file that is not JSON. */
  function ParseMarker(raw: Option<Json>): Option<Marker> {
    if raw.None? || !raw.value.JObject? then None
    else ParseFields(raw.value.fields)
  }

  function ParseFields(f: map<Field, Json>): Option<Marker> {
    if Version !in f || f[Version] != JNumber(1) then None
    else
      match (ParseStatus(f), StringField(f, ProcessedHash), SafeField(f, ProcessedBytes), StringField(f, ProcessedAt),
          StringField(f, Reason))
      case (Some(status), Some(hash), Some(bytes), Some(at), Some(Plain(reason))) =>
        var content := if ProcessedContent in f then PlainText(f[ProcessedContent]) else None;
        if ProcessedChunks !in f then Some(Marker(status, hash, bytes, content, None, at, reason))
        else
          var chunks := ParseChunks(f[ProcessedChunks]);
          if chunks.None? then None else Some(Marker(status, hash, bytes, content, chunks, at, reason))
      case _ => None
  }

  function PlainText(j: Json): Option<string> {
    if j.JString? && j.v.Plain? then Some(j.v.text) else None
  }

  /** The validation loop over recorded chunks. */
  method ParseProcessedMarkerChunks(items: seq<Json>) returns (r: Option<seq<MarkerChunk>>)
    ensures r == ParseChunks(JArray(items))
  {
    if items == [] {
      return None;
    }
    var chunks: seq<MarkerChunk> := [];
    ghost var all := ParseEach(items);
    assert items[0..] == items;
    for k := 0 to |items|
      invariant all == Prepend(chunks, ParseEach(items[k..]))
    {
      assert items[k..][1..] == items[k + 1..];
      var parsed := ParseChunk(items[k]);
      if parsed.None? {
        return None;
      }
      PrependShift(chunks, parsed.value, ParseEach(items[k + 1..]));
      chunks := chunks + [parsed.value];
    }
    r := if Consistent(chunks) then Some(chunks) else None;
  }

  function Prepend(front: seq<MarkerChunk>, rest: Option<seq<MarkerChunk>>): (r: Option<seq<MarkerChunk>>)
    ensures front == [] ==> r == rest
    ensures rest == Some([]) ==> r == Some(front)
  {
    match rest
    case None => None
    case Some(cs) => assert [] + cs == cs && front + [] == front; Some(front + cs)
  }

  lemma PrependShift(front: seq<MarkerChunk>, c: MarkerChunk, rest: Option<seq<MarkerChunk>>)
    ensures rest.Some? ==> Prepend(front + [c], rest) == Prepend(front, Some([c] + rest.value))
  {
    if rest.Some? {
      assert front + [c] + rest.value == front + ([c] + rest.value);
    }
  }

  // ---------------------------------------------------------------------------
  // Round trip
  // ---------------------------------------------------------------------------

  predicate ValidChunk(c: MarkerChunk) {
    && 0 < c.rawBytes <= MAX_SAFE_INTEGER
    && !c.turnFingerprint.Empty()
    && c.chunkIndex <= MAX_SAFE_INTEGER
    && 0 < c.chunkCount <= MAX_SAFE_INTEGER
    && 0 < c.maxTurnChars <= MAX_SAFE_INTEGER
  }

  lemma ChunkRoundTrip(c: MarkerChunk)
    ensures ParseChunk(ChunkJson(c)) == if ValidChunk(c) then Some(c) else None
  {
  }

  predicate AllValid(cs: seq<MarkerChunk>) {
    forall i | 0 <= i < |cs| :: ValidChunk(cs[i])
  }

  lemma AllValidTail(cs: seq<MarkerChunk>)
    requires cs != []
    ensures AllValid(cs) <==> ValidChunk(cs[0]) && AllValid(cs[1..])
  {
    if AllValid(cs[1..]) {
      assert forall i | 0 < i < |cs| :: cs[i] == cs[1..][i - 1];
    }
  }

  lemma {:induction false} ChunksRoundTrip(cs: seq<MarkerChunk>)
    ensures ParseEach(ChunksJson(cs)) == if AllValid(cs) then Some(cs) else None
    decreases cs
  {
    if cs != [] {
      ChunkRoundTrip(cs[0]);
      ChunksRoundTrip(cs[1..]);
      AllValidTail(cs);
      assert ChunksJson(cs)[1..] == ChunksJson(cs[1..]);
      assert cs == [cs[0]] + cs[1..];
    }
  }

  predicate ChunksReadable(chunks: Option<seq<MarkerChunk>>) {
    chunks.Some? ==>
      chunks.value != [] && Consistent(chunks.value) && AllValid(chunks.value)
  }

  /** A written marker reads back as itself exactly when its chunks pass validation; otherwise the
      whole marker is ignored. */
  lemma MarkerRoundTrip(m: Marker)
    requires IsSafe(m.processedBytes)
    ensures ParseMarker(Some(MarkerJson(m))) == if ChunksReadable(m.processedChunks) then Some(m) else None
  {
    var f := MarkerFields(m);
    if m.processedChunks.Some? {
      ReadableChunks(m.processedChunks.value);
    }
    assert ParseStatus(f) == Some(m.status);
    assert ParseMarker(Some(MarkerJson(m))) == ParseFields(f);
  }

  lemma ReadableChunks(cs: seq<MarkerChunk>)
    ensures ParseChunks(JArray(ChunksJson(cs))) == if ChunksReadable(Some(cs)) then Some(cs) else None
  {
    ChunksRoundTrip(cs);
  }

  // ---------------------------------------------------------------------------
  // Markers that other versions wrote
  // ---------------------------------------------------------------------------

  /** The properties a marker file cannot do without. */
  const REQUIRED: set<Field> := {Version, ProcessedHash, ProcessedBytes, ProcessedAt, Reason}

  /** A marker file without one of them is no marker, whatever else it holds. */
  lemma IncompleteMarkerIsIgnored(fields: map<Field, Json>, key: Field)
    requires key in REQUIRED
    ensures ParseMarker(Some(JObject(fields - {key}))) == None
  {
    assert key !in fields - {key};
    assert ParseMarker(Some(JObject(fields - {key}))) == ParseFields(fields - {key});
  }

  /** A marker written before there was a status counts as processed, and one with a status that is not
      known is ignored; a known status, and only that, is read as it is written. */
  lemma StatusIsRead(m: Marker, status: Option<Json>)
    requires IsSafe(m.processedBytes) && ChunksReadable(m.processedChunks)
    ensures var fields := MarkerFields(m) - {StatusText} + if status.Some? then map[StatusText := status.value] else map[];
      ParseMarker(Some(JObject(fields))) ==
        if status == Some(JString(PENDING)) then Some(m.(status := Pending))
        else if status == None || status == Some(JString(PROCESSED)) then Some(m.(status := Processed))
        else None
  {
    var fields := MarkerFields(m) - {StatusText} + if status.Some? then map[StatusText := status.value] else map[];
    OtherFieldsAreRead(m, fields);
    assert PENDING != PROCESSED by { assert |"pending"| == 7 && |"processed"| == 9; }
    assert StatusText in fields <==> status.Some?;
    assert ParseMarker(Some(JObject(fields))) == ParseFields(fields);
  }

  lemma OtherFieldsAreRead(m: Marker, fields: map<Field, Json>)
    requires IsSafe(m.processedBytes) && ChunksReadable(m.processedChunks)
    requires fields - {StatusText} == MarkerFields(m) - {StatusText}
    ensures ParseFields(fields) ==
      match ParseStatus(fields)
      case None => None
      case Some(status) => Some(m.(status := status))
  {
    var f, others := MarkerFields(m), fields - {StatusText};
    assert forall key | key != StatusText :: (key in fields <==> key in others) && (key in f <==> key in others);
    assert forall key | key != StatusText && key in fields :: fields[key] == others[key] == f[key];
    if m.processedChunks.Some? {
      ReadableChunks(m.processedChunks.value);
    }
  }

  // ---------------------------------------------------------------------------
  // Replay
  // ---------------------------------------------------------------------------

  /** The prefix of the file a marker stands for. */
  function MarkerPrefix(content: string, m: Marker): (prefix: Option<string>)
    ensures prefix.Some? ==> prefix.value <= content && Sha256(prefix.value) == m.processedHash
  {
    var byLength := PrefixByByteLength(content, m.processedBytes);
    if byLength.Some? && Sha256(byLength.value) == m.processedHash then byLength
    else if
      && m.processedContent.Some? && m.processedContent.value != "" && m.processedContent.value <= content
      && Sha256(m.processedContent.value) == m.processedHash
    then m.processedContent
    else None
  }

  /** A marker this code wrote is found in a file exactly when the file starts with its content. */
  lemma MarkerPrefixIsContent(content: string, m: Marker, text: string)
    requires m.processedHash == Sha256(text) && m.processedBytes == ByteLength(text) && m.processedContent == Some(text)
    ensures MarkerPrefix(content, m) == if text <= content then Some(text) else None
  {
    if text <= content {
      assert content == text + content[|text|..];
      PrefixByByteLengthOf(text, content[|text|..]);
    }
  }

  /** Which prefix of a file any marker stands for: the text with its hash, exactly when the file starts with
      that text and the marker tells the text's length or holds the text itself. */
  lemma MarkerPrefixExactly(content: string, m: Marker, text: string)
    requires m.processedHash == Sha256(text)
    ensures MarkerPrefix(content, m) ==
      if text <= content && (m.processedBytes == ByteLength(text) || (m.processedContent == Some(text) && text != ""))
      then Some(text) else None
  {
    if text <= content {
      assert content == text + content[|text|..];
      PrefixByByteLengthOf(text, content[|text|..]);
    }
  }

  /** Cutting a text at recorded byte lengths; `None` unless the cuts fall between characters and use it up. */
  function SplitByChunks(content: string, chunks: seq<MarkerChunk>): (r: Option<seq<string>>)
    ensures r.Some? ==> |r.value| == |chunks|
    decreases chunks
  {
    if chunks == [] then if content == "" then Some([]) else None
    else
      match PrefixByByteLength(content, chunks[0].rawBytes)
      case None => None
      case Some(p) =>
        match SplitByChunks(content[|p|..], chunks[1..])
        case None => None
        case Some(rest) => Some([p] + rest)
  }

  /** The splitting loop. */
  method SplitContentByMarkerChunks(content: string, chunks: seq<MarkerChunk>) returns (r: Option<seq<string>>)
    ensures r == SplitByChunks(content, chunks)
  {
    SplitStarts(SplitByChunks(content, chunks), content, chunks);
    r := CutAll(content, chunks, SplitByChunks(content, chunks));
  }

  method CutAll(content: string, chunks: seq<MarkerChunk>, ghost all: Option<seq<string>>)
      returns (r: Option<seq<string>>)
    requires Splitting(all, content, 0, chunks, 0, [])
    ensures r == all
  {
    var offset: nat, parts: seq<string> := 0, [];
    for k := 0 to |chunks|
      invariant offset <= |content| && Splitting(all, content, offset, chunks, k, parts)
    {
      var p := CutNext(content, offset, chunks, k, parts, all);
      if p.None? {
        return None;
      }
      parts, offset := parts + [p.value], offset + |p.value|;
    }
    SplitEnds(all, content, offset, chunks, parts);
    r := if offset == |content| then Some(parts) else None;
  }

  method CutNext(content: string, offset: nat, chunks: seq<MarkerChunk>, k: nat, ghost parts: seq<string>,
      ghost all: Option<seq<string>>)
    returns (p: Option<string>)
    requires offset <= |content| && k < |chunks| && Splitting(all, content, offset, chunks, k, parts)
    ensures p.None? ==> all == None
    ensures p.Some? ==> offset + |p.value| <= |content|
    ensures p.Some? ==> Splitting(all, content, offset + |p.value|, chunks, k + 1, parts + [p.value])
  {
    SplitNext(all, content, offset, chunks, k, parts);
    p := PrefixByByteLength(content[offset..], chunks[k].rawBytes);
  }

  lemma SplitStarts(all: Option<seq<string>>, content: string, chunks: seq<MarkerChunk>)
    requires all == SplitByChunks(content, chunks)
    ensures Splitting(all, content, 0, chunks, 0, [])
  {
    assert content[0..] == content && chunks[0..] == chunks;
  }

  lemma SplitEnds(all: Option<seq<string>>, content: string, offset: nat, chunks: seq<MarkerChunk>, parts: seq<string>)
    requires offset <= |content| && Splitting(all, content, offset, chunks, |chunks|, parts)
    ensures all == if offset == |content| then Some(parts) else None
  {
    assert chunks[|chunks|..] == [];
  }

  /** The loop has cut off `parts`; splitting the rest after the first `k` chunks completes them. */
  predicate Splitting(all: Option<seq<string>>, content: string, offset: nat, chunks: seq<MarkerChunk>, k: nat,
      parts: seq<string>)
    requires offset <= |content| && k <= |chunks|
  {
    all == PutBefore(parts, SplitByChunks(content[offset..], chunks[k..]))
  }

  /** One pass of the splitting loop. */
  lemma SplitNext(all: Option<seq<string>>, content: string, offset: nat, chunks: seq<MarkerChunk>, k: nat,
      parts: seq<string>)
    requires offset <= |content| && k < |chunks| && Splitting(all, content, offset, chunks, k, parts)
    ensures var p := PrefixByByteLength(content[offset..], chunks[k].rawBytes);
      if p.None? then all == None else Splitting(all, content, offset + |p.value|, chunks, k + 1, parts + [p.value])
  {
    var p := PrefixByByteLength(content[offset..], chunks[k].rawBytes);
    assert chunks[k..][1..] == chunks[k + 1..];
    if p.Some? {
      assert content[offset..][|p.value|..] == content[offset + |p.value|..];
      PutBeforeShift(parts, p.value, SplitByChunks(content[offset + |p.value|..], chunks[k + 1..]));
    }
  }

  function PutBefore(front: seq<string>, rest: Option<seq<string>>): (r: Option<seq<string>>)
    ensures front == [] ==> r == rest
    ensures rest == Some([]) ==> r == Some(front)
  {
    match rest
    case None => None
    case Some(xs) => assert [] + xs == xs && front + [] == front; Some(front + xs)
  }

  lemma PutBeforeShift(front: seq<string>, p: string, rest: Option<seq<string>>)
    ensures rest.Some? ==> PutBefore(front + [p], rest) == PutBefore(front, Some([p] + rest.value))
  {
    if rest.Some? {
      assert front + [p] + rest.value == front + ([p] + rest.value);
    }
  }

  function ReplayTurn(parts: seq<string>, chunks: seq<MarkerChunk>, i: nat, origin: Origin, m: Marker): ImportTurn
    requires i < |parts| && i < |chunks|
  {
    BuildTurn(
      parts[i], origin, m.processedAt, chunks[i].timestamp, chunks[i].turnFingerprint, m.reason,
      chunks[i].chunkIndex, chunks[i].chunkCount, chunks[i].maxTurnChars)
  }

  /** Turns rebuilt from a marker that recorded its chunks. */
  function TurnsFromMarker(content: string, m: Marker, origin: Origin): Option<seq<ImportTurn>> {
    match m.processedChunks
    case None => None
    case Some(chunks) =>
      match SplitByChunks(Trim(content), chunks)
      case None => None
      case Some(parts) =>
        Some(seq(|chunks|, i requires 0 <= i < |chunks| => ReplayTurn(parts, chunks, i, origin, m)))
  }

  lemma {:induction false} SplitConserves(content: string, chunks: seq<MarkerChunk>)
    ensures SplitByChunks(content, chunks).Some? ==> Concat(SplitByChunks(content, chunks).value) == content
    decreases chunks
  {
    if chunks != [] && PrefixByByteLength(content, chunks[0].rawBytes).Some? {
      var p := PrefixByByteLength(content, chunks[0].rawBytes).value;
      SplitConserves(content[|p|..], chunks[1..]);
      assert content == p + content[|p|..];
    }
  }

  lemma {:induction false} SplitSpelledText(raws: seq<string>, chunks: seq<MarkerChunk>)
    requires |raws| == |chunks| && forall i | 0 <= i < |raws| :: chunks[i].rawBytes == ByteLength(raws[i])
    ensures SplitByChunks(Concat(raws), chunks) == Some(raws)
    decreases raws
  {
    if raws != [] {
      var rest := Concat(raws[1..]);
      PrefixByByteLengthOf(raws[0], rest);
      assert (raws[0] + rest)[|raws[0]|..] == rest;
      SplitSpelledText(raws[1..], chunks[1..]);
      assert [raws[0]] + raws[1..] == raws;
    }
  }

  /** The turns a restart replays: from the marker if it can, else by chunking again with the
      turn limit configured now. */
  function ReplayTurns(content: string, m: Marker, origin: Origin, maxTurnChars: nat): seq<ImportTurn> {
    match TurnsFromMarker(content, m, origin)
    case Some(turns) => turns
    case None => BuildTurns(content, origin, m.processedAt, m.reason, maxTurnChars)
  }

  /** Replaying accounts for the whole prefix, whichever way the turns are rebuilt. */
  lemma ReplayCovers(content: string, m: Marker, origin: Origin, maxTurnChars: nat)
    ensures Covered(content, SetOf(Raws(ReplayTurns(content, m, origin, maxTurnChars))))
  {
    if TurnsFromMarker(content, m, origin).None? {
      ChunksCover(content, maxTurnChars);
      FreshRaws(content, origin, m.processedAt, m.reason, maxTurnChars);
    } else {
      var parts := SplitByChunks(Trim(content), m.processedChunks.value).value;
      SplitConserves(Trim(content), m.processedChunks.value);
      assert Raws(TurnsFromMarker(content, m, origin).value) == parts;
      CoveredByPieces(parts, SetOf(parts));
      CoveredInSpace(content, SetOf(parts));
    }
  }

  /** No piece was white space only, so the chunks spell the trimmed snapshot. */
  predicate ChunksSpell(content: string, maxTurnChars: nat) {
    Concat(ChunksOf(content, maxTurnChars)) == Trim(content)
  }

  lemma ChunksFacts(content: string, maxTurnChars: nat)
    requires !Blank(content)
    ensures var chunks := ChunksOf(content, maxTurnChars);
      && (forall i | 0 <= i < |chunks| :: chunks[i] != "" && !Blank(chunks[i]))
      && |Concat(chunks)| <= |Trim(content)|
      && (ChunksSpell(content, maxTurnChars) || |Concat(chunks)| < |Trim(content)|)
  {
    var _, _ := TrimSplits(content);
    PlanIsSplit(content, maxTurnChars);
    SplitFacts(Trim(content), PlanOf(content, maxTurnChars).value.share);
  }

  lemma SplitFacts(trimmed: string, share: nat)
    requires share >= 1
    ensures var chunks := SplitText(trimmed, share);
      && (forall i | 0 <= i < |chunks| :: chunks[i] != "" && !Blank(chunks[i]))
      && |Concat(chunks)| <= |trimmed| && (Concat(chunks) == trimmed || |Concat(chunks)| < |trimmed|)
  {
    var pieces := Pieces(trimmed, 0, share);
    PiecesConserve(trimmed, 0, share);
    PiecesAreBounded(trimmed, 0, share);
    assert trimmed[0..] == trimmed;
    KeptEverything(pieces);
    KeptLength(pieces);
    KeptAreNonBlank(pieces);
    var chunks := SplitText(trimmed, share);
    assert forall i | 0 <= i < |chunks| :: chunks[i] in chunks;
  }

  lemma {:induction false} KeptLength(pieces: seq<string>)
    requires forall i | 0 <= i < |pieces| :: pieces[i] != []
    ensures |Concat(KeepNonBlank(pieces))| == |Concat(pieces)| ==> Concat(KeepNonBlank(pieces)) == Concat(pieces)
  {
    if pieces != [] {
      KeptEverything(pieces[1..]);
      KeptLength(pieces[1..]);
      if !Blank(pieces[0]) {
        assert KeepNonBlank(pieces)[1..] == KeepNonBlank(pieces[1..]);
      }
    }
  }

  lemma {:induction false} PartsFit(raws: seq<string>, i: nat)
    requires i < |raws|
    ensures ByteLength(raws[i]) <= ByteLength(Concat(raws))
  {
    ByteLengthAppend(raws[0], Concat(raws[1..]));
    if i > 0 {
      PartsFit(raws[1..], i - 1);
    }
  }

  lemma {:induction false} PartsCount(raws: seq<string>)
    requires forall i | 0 <= i < |raws| :: raws[i] != ""
    ensures |raws| <= |Concat(raws)|
  {
    if raws != [] {
      PartsCount(raws[1..]);
    }
  }

  function FreshMarker(content: string, origin: Origin, ms: int, reason: string, maxTurnChars: nat): Marker {
    BuildMarker(Pending, content, Iso(ms), reason, BuildTurns(content, origin, Iso(ms), reason, maxTurnChars))
  }

  lemma TrimIsShorter(content: string)
    ensures ByteLength(Trim(content)) <= ByteLength(content) && |Trim(content)| <= |content|
    ensures |content| <= ByteLength(content)
  {
    var lead, trail := TrimSplits(content);
    ByteLengthAppend(lead + Trim(content), trail);
    ByteLengthAppend(lead, Trim(content));
    ByteLengthAppend(content, "");
  }

  lemma SpelledChunksAreRecorded(content: string, origin: Origin, ms: int, reason: string, maxTurnChars: nat)
    requires !Blank(content) && ChunksSpell(content, maxTurnChars) && ByteLength(content) <= MAX_SAFE_INTEGER
    ensures
      var turns := BuildTurns(content, origin, Iso(ms), reason, maxTurnChars);
      && turns != [] && |turns| <= MAX_SAFE_INTEGER
      && FreshMarker(content, origin, ms, reason, maxTurnChars).processedChunks == Some(Records(turns))
  {
    var turns := BuildTurns(content, origin, Iso(ms), reason, maxTurnChars);
    FreshRaws(content, origin, Iso(ms), reason, maxTurnChars);
    SpelledChunksAreFew(content, maxTurnChars);
    assert Numbered(turns);
    NumberedRecords(turns);
    AllTurnsRecorded(content, turns);
  }

  lemma SpelledChunksAreFew(content: string, maxTurnChars: nat)
    requires !Blank(content) && ChunksSpell(content, maxTurnChars) && ByteLength(content) <= MAX_SAFE_INTEGER
    ensures
      var chunks := ChunksOf(content, maxTurnChars);
      Trim(content) != "" && 0 < |chunks| <= MAX_SAFE_INTEGER && forall i | 0 <= i < |chunks| :: chunks[i] != ""
  {
    var _, _ := TrimSplits(content);
    ChunksFacts(content, maxTurnChars);
    TrimIsShorter(content);
    PartsCount(ChunksOf(content, maxTurnChars));
  }

  /** Turns numbered from 0 with a common count, a common limit and a time. */
  predicate Numbered(turns: seq<ImportTurn>) {
    forall i | 0 <= i < |turns| ::
      && turns[i].chunkIndex == i && turns[i].chunkCount == |turns|
      && turns[i].maxTurnChars == turns[0].maxTurnChars
      && !turns[i].timestamp.Empty()
  }

  lemma NumberedRecords(turns: seq<ImportTurn>)
    requires Numbered(turns) && |turns| <= MAX_SAFE_INTEGER
    ensures Checked(turns, |turns|) == Some(Records(turns))
  {
    assert Records(turns)[..|turns|] == Records(turns);
  }

  lemma AllTurnsRecorded(content: string, turns: seq<ImportTurn>)
    requires Trim(content) != "" && Concat(Raws(turns)) == Trim(content) && turns != []
    requires forall i | 0 <= i < |turns| :: Raws(turns)[i] != ""
    ensures RecordedChunks(content, turns) == Checked(turns, |turns|)
  {
    SpellingAll(Trim(content), Raws(turns));
  }

  lemma RawFits(raws: seq<string>, i: nat)
    requires i < |raws|
    ensures |raws[i]| <= ByteLength(raws[i]) <= ByteLength(Concat(raws))
  {
    PartsFit(raws, i);
    ByteLengthAppend(raws[i], "");
  }

  /** A fresh turn's record is valid exactly when the turn limit is positive. */
  lemma FreshRecordIsValid(chunks: seq<string>, i: nat, origin: Origin, ms: int, reason: string, maxTurnChars: nat)
    requires i < |chunks| <= MAX_SAFE_INTEGER && maxTurnChars <= MAX_SAFE_INTEGER
    requires 0 < ByteLength(chunks[i]) <= MAX_SAFE_INTEGER
    ensures var turn := FreshTurn(chunks, i, origin, Iso(ms), reason, maxTurnChars);
      ValidChunk(Record(turn, i, |chunks|)) <==> maxTurnChars >= 1
  {
  }

  lemma RecordedChunksAreValid(content: string, origin: Origin, ms: int, reason: string, maxTurnChars: nat)
    requires !Blank(content) && ChunksSpell(content, maxTurnChars) && ByteLength(content) <= MAX_SAFE_INTEGER
    requires maxTurnChars <= MAX_SAFE_INTEGER
    ensures
      var turns := BuildTurns(content, origin, Iso(ms), reason, maxTurnChars);
      turns != [] && (AllValid(Records(turns)) <==> maxTurnChars >= 1)
  {
    var turns := BuildTurns(content, origin, Iso(ms), reason, maxTurnChars);
    var chunks := ChunksOf(content, maxTurnChars);
    SpelledChunksAreFew(content, maxTurnChars);
    TrimIsShorter(content);
    forall i | 0 <= i < |turns|
      ensures ValidChunk(Records(turns)[i]) <==> maxTurnChars >= 1
    {
      RawFits(chunks, i);
      FreshRecordIsValid(chunks, i, origin, ms, reason, maxTurnChars);
    }
    if maxTurnChars == 0 {
      assert !ValidChunk(Records(turns)[0]);
    }
  }

  lemma ReplayedTurnsAreFresh(content: string, origin: Origin, ms: int, reason: string, maxTurnChars: nat, m: Marker)
    requires ChunksSpell(content, maxTurnChars)
    requires m.processedAt == Iso(ms) && m.reason == reason
    requires m.processedChunks == Some(Records(BuildTurns(content, origin, Iso(ms), reason, maxTurnChars)))
    requires BuildTurns(content, origin, Iso(ms), reason, maxTurnChars) != []
    requires |BuildTurns(content, origin, Iso(ms), reason, maxTurnChars)| <= MAX_SAFE_INTEGER
    ensures TurnsFromMarker(content, m, origin).Some?
    ensures
      TurnsFromMarker(content, m, origin) == Some(BuildTurns(content, origin, Iso(ms), reason, maxTurnChars)) <==>
      maxTurnChars <= MAX_SAFE_INTEGER
  {
    var turns := BuildTurns(content, origin, Iso(ms), reason, maxTurnChars);
    FreshRaws(content, origin, Iso(ms), reason, maxTurnChars);
    SplitSpelledText(Raws(turns), Records(turns));
    var replayed := TurnsFromMarker(content, m, origin).value;
    if maxTurnChars <= MAX_SAFE_INTEGER {
      assert replayed == turns;
    } else {
      assert replayed[0].maxTurnChars != turns[0].maxTurnChars;
    }
  }

  /** Writing the pending marker, reading it back and rebuilding the turns gives exactly the turns
      of the first attempt, whatever the turn limit has become since: if and only if no chunk was
      dropped as white space and the limit was a positive safe integer. */
  lemma ReplayIsExact(content: string, origin: Origin, ms: int, reason: string, maxTurnChars: nat)
    requires !Blank(content) && ByteLength(content) <= MAX_SAFE_INTEGER
    ensures
      var turns := BuildTurns(content, origin, Iso(ms), reason, maxTurnChars);
      var parsed := ParseMarker(Some(MarkerJson(FreshMarker(content, origin, ms, reason, maxTurnChars))));
      (parsed.Some? && TurnsFromMarker(content, parsed.value, origin) == Some(turns)) <==>
      ChunksSpell(content, maxTurnChars) && 1 <= maxTurnChars <= MAX_SAFE_INTEGER
  {
    if ChunksSpell(content, maxTurnChars) {
      SpelledReplay(content, origin, ms, reason, maxTurnChars);
    } else {
      UnspelledReplay(content, origin, ms, reason, maxTurnChars);
    }
  }

  lemma PieceAt(s: string, offset: nat, end: nat, piece: string)
    requires offset < |s| && PieceEnd(s, offset, 1) == end && s[offset..end] == piece
    ensures Pieces(s, offset, 1) == [piece] + Pieces(s, end, 1)
  {
  }

  lemma ChunksAroundBlankLines(s: string)
    requires s == ['a', '\n', '\n', '\n', 'b']
    ensures Trim(s) == s && ChunksOf(s, 1) == ["a\n", "b"]
  {
    TrimFixed(s);
    ChunksAtLimitOne(s);
    PieceAt(s, 0, 2, ['a', '\n']);
    PieceAt(s, 2, 4, ['\n', '\n']);
    PieceAt(s, 4, 5, ['b']);
    KeptOfThree(['a', '\n'], ['\n', '\n'], ['b']);
  }

  lemma KeptOfThree(a: string, blank: string, b: string)
    requires !Blank(a) && Blank(blank) && !Blank(b)
    ensures KeepNonBlank([a] + ([blank] + ([b] + []))) == [a, b]
  {
    assert KeepNonBlank([b] + []) == [b];
    assert KeepNonBlank([blank] + ([b] + [])) == [b];
  }

  lemma BlankLinesAreDropped(s: string)
    requires s == ['a', '\n', '\n', '\n', 'b']
    ensures ChunksOf(s, 1) == ["a\n", "b"] && !ChunksSpell(s, 1)
    ensures !Blank(s) && ByteLength(s) <= MAX_SAFE_INTEGER
  {
    ChunksAroundBlankLines(s);
    ShortTextIsSafe(s);
    assert ["a\n", "b"][1..] == ["b"] && Concat(["b"]) == "b" + "" == "b";
    assert |Concat(["a\n", "b"])| == 3;
    assert !IsSpace(s[0]);
  }

  /** A text with a dropped chunk: the marker is read back without chunks, so that no turn limit makes
      the restart rebuild the turns from it. */
  lemma DroppedChunkIsNotReplayed(origin: Origin, ms: int, reason: string)
    ensures
      var content := "a\n\n\nb";
      var m := FreshMarker(content, origin, ms, reason, 1);
      && ChunksOf(content, 1) == ["a\n", "b"] && !ChunksSpell(content, 1)
      && ParseMarker(Some(MarkerJson(m))) == Some(m) && TurnsFromMarker(content, m, origin).None?
  {
    BlankLinesAreDropped("a\n\n\nb");
    UnspelledReplay("a\n\n\nb", origin, ms, reason, 1);
  }

  lemma {:induction false} ShortTextIsSafe(s: string)
    ensures ByteLength(s) <= 4 * |s|
  {
    if s != "" {
      ShortTextIsSafe(s[1..]);
    }
  }

  lemma UnspelledReplay(content: string, origin: Origin, ms: int, reason: string, maxTurnChars: nat)
    requires !Blank(content) && ByteLength(content) <= MAX_SAFE_INTEGER && !ChunksSpell(content, maxTurnChars)
    ensures
      var m := FreshMarker(content, origin, ms, reason, maxTurnChars);
      ParseMarker(Some(MarkerJson(m))) == Some(m) && TurnsFromMarker(content, m, origin).None?
  {
    MarkerRoundTrip(FreshMarker(content, origin, ms, reason, maxTurnChars));
    ChunksFacts(content, maxTurnChars);
    FreshRaws(content, origin, Iso(ms), reason, maxTurnChars);
    SpellingTooLittle(Trim(content), ChunksOf(content, maxTurnChars));
  }

  lemma SpelledReplay(content: string, origin: Origin, ms: int, reason: string, maxTurnChars: nat)
    requires !Blank(content) && ByteLength(content) <= MAX_SAFE_INTEGER && ChunksSpell(content, maxTurnChars)
    ensures
      var turns := BuildTurns(content, origin, Iso(ms), reason, maxTurnChars);
      var parsed := ParseMarker(Some(MarkerJson(FreshMarker(content, origin, ms, reason, maxTurnChars))));
      (parsed.Some? && TurnsFromMarker(content, parsed.value, origin) == Some(turns)) <==>
      1 <= maxTurnChars <= MAX_SAFE_INTEGER
  {
    var m := FreshMarker(content, origin, ms, reason, maxTurnChars);
    SpelledChunksAreRecorded(content, origin, ms, reason, maxTurnChars);
    if maxTurnChars <= MAX_SAFE_INTEGER {
      SafeLimitReadsBack(content, origin, ms, reason, maxTurnChars);
    } else {
      MarkerRoundTrip(m);
    }
    ReplayedTurnsAreFresh(content, origin, ms, reason, maxTurnChars, m);
  }

  lemma SafeLimitReadsBack(content: string, origin: Origin, ms: int, reason: string, maxTurnChars: nat)
    requires !Blank(content) && ByteLength(content) <= MAX_SAFE_INTEGER && ChunksSpell(content, maxTurnChars)
    requires maxTurnChars <= MAX_SAFE_INTEGER
    ensures
      var m := FreshMarker(content, origin, ms, reason, maxTurnChars);
      ParseMarker(Some(MarkerJson(m))) == if maxTurnChars >= 1 then Some(m) else None
  {
    MarkerRoundTrip(FreshMarker(content, origin, ms, reason, maxTurnChars));
    SpelledChunksAreRecorded(content, origin, ms, reason, maxTurnChars);
    RecordedChunksAreValid(content, origin, ms, reason, maxTurnChars);
  }

  /** Crash after any number of turns, restart, replay: the ingestor ends as after one uninterrupted
      import, under any turn limit if the chunks were recorded, and under the same one otherwise. */
  lemma CrashReplayIsOneImport(
    store: Store, content: string, origin: Origin, ms: int, reason: string, before: nat, after: nat, done: nat)
    requires !Blank(content) && ByteLength(content) <= MAX_SAFE_INTEGER
    requires if ChunksSpell(content, before) then 1 <= before <= MAX_SAFE_INTEGER else before == after
    requires done <= |ChunksOf(content, before)|
    ensures
      var turns := BuildTurns(content, origin, Iso(ms), reason, before);
      var parsed := ParseMarker(Some(MarkerJson(FreshMarker(content, origin, ms, reason, before))));
      && parsed.Some?
      && IngestAll(IngestAll(store, turns[..done]), ReplayTurns(content, parsed.value, origin, after))
          == IngestAll(store, turns)
  {
    if ChunksSpell(content, before) {
      ReplayIsExact(content, origin, ms, reason, before);
    } else {
      UnspelledReplay(content, origin, ms, reason, before);
    }
    RestartIsOneImport(store, BuildTurns(content, origin, Iso(ms), reason, before), done);
  }
}
