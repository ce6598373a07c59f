/** Splitting a flush-plan snapshot into import turns of bounded size. */
module Chunking {
  import opened Options
  import opened Text

  const MAX_ATTEMPTS: nat := 8

  /** The text put before a chunk. Only its kind, its numbers and its length are modelled:
      the instruction alone is 254 characters long. */
  datatype Wrapper =
    | Verbose(chunkIndex: nat, chunkCount: nat)
    | Compact(chunkIndex: nat, chunkCount: nat)
    | Bare
  {
    function Length(): nat {
      match this
      case Verbose(i, n) => if n > 1 then 302 + DigitCount(i + 1) + DigitCount(n) else 256
      case Compact(i, n) => if n > 1 then 30 + DigitCount(i + 1) + DigitCount(n) else 31
      case Bare => 0
    }
  }

  /** The verbose wrapper if it leaves room for text, else the compact one, else none. */
  function ImportPrefix(chunkIndex: nat, chunkCount: nat, maxTurnChars: nat): (w: Wrapper)
    ensures w.Length() < maxTurnChars || w == Bare
  {
    if Verbose(chunkIndex, chunkCount).Length() < maxTurnChars then Verbose(chunkIndex, chunkCount)
    else if Compact(chunkIndex, chunkCount).Length() < maxTurnChars then Compact(chunkIndex, chunkCount)
    else Bare
  }

  /** The longest wrapper over the first `n` chunks of `chunkCount`. */
  function MaxPrefixLength(n: nat, chunkCount: nat, maxTurnChars: nat): (m: nat)
    ensures m < maxTurnChars || m == 0
  {
    if n == 0 then 0
    else
      var m := MaxPrefixLength(n - 1, chunkCount, maxTurnChars);
      var last := ImportPrefix(n - 1, chunkCount, maxTurnChars).Length();
      if m < last then last else m
  }

  lemma {:induction false} LongestIsBound(i: nat, n: nat, chunkCount: nat, maxTurnChars: nat)
    requires i < n
    ensures ImportPrefix(i, chunkCount, maxTurnChars).Length() <= MaxPrefixLength(n, chunkCount, maxTurnChars)
  {
    if i < n - 1 {
      LongestIsBound(i, n - 1, chunkCount, maxTurnChars);
    }
  }

  function Max(a: int, b: int): int {
    if a < b then b else a
  }

  /** Index of the last newline at or before `from`, or -1. */
  function LastNewline(s: string, from: int): (i: int)
    requires -1 <= from < |s|
    ensures -1 <= i <= from && (i >= 0 ==> s[i] == '\n')
    ensures forall k | i < k <= from :: s[k] != '\n'
    decreases from + 1
  {
    if from == -1 || s[from] == '\n' then from else LastNewline(s, from - 1)
  }

  /** Where the piece that starts at `offset` ends: after the last newline in reach, or at the limit. */
  function PieceEnd(s: string, offset: nat, maxChars: nat): (end: nat)
    requires offset < |s| && maxChars >= 1
    ensures offset < end <= |s|
    ensures end <= offset + maxChars || (end == offset + maxChars + 1 && s[end - 1] == '\n')
  {
    var end := if offset + maxChars < |s| then offset + maxChars else |s|;
    if end < |s| then
      var newline := LastNewline(s, end);
      if newline > offset then newline + 1 else end
    else end
  }

  /** Every piece from `offset` on, blank ones included. */
  function Pieces(s: string, offset: nat, maxChars: nat): seq<string>
    requires offset <= |s| && maxChars >= 1
    decreases |s| - offset
  {
    if offset == |s| then []
    else
      var end := PieceEnd(s, offset, maxChars);
      [s[offset..end]] + Pieces(s, end, maxChars)
  }

  function KeepNonBlank(pieces: seq<string>): seq<string> {
    if pieces == [] then []
    else if Blank(pieces[0]) then KeepNonBlank(pieces[1..])
    else [pieces[0]] + KeepNonBlank(pieces[1..])
  }

  lemma {:induction false} KeptAreNonBlank(pieces: seq<string>)
    ensures forall p | p in KeepNonBlank(pieces) :: !Blank(p) && p in pieces
    ensures |KeepNonBlank(pieces)| <= |pieces|
  {
    if pieces != [] {
      KeptAreNonBlank(pieces[1..]);
    }
  }

  function SplitText(s: string, maxChars: nat): seq<string>
    requires maxChars >= 1
  {
    KeepNonBlank(Pieces(s, 0, maxChars))
  }

  /** Room left for chunk text when `chunkCount` chunks are expected. */
  function Share(chunkCount: nat, maxTurnChars: nat): (n: nat)
    ensures 1 <= n <= Max(1, maxTurnChars)
  {
    Max(1, maxTurnChars - MaxPrefixLength(chunkCount, chunkCount, maxTurnChars))
  }

  datatype ChunkPlan = ChunkPlan(chunks: seq<string>, share: nat, converged: bool)

  /** One attempt: split with the room that `chunkCount` chunks leave. */
  function Attempt(trimmed: string, chunkCount: nat, maxTurnChars: nat): (plan: ChunkPlan)
    ensures plan.share >= 1
  {
    var chunks := SplitText(trimmed, Share(chunkCount, maxTurnChars));
    ChunkPlan(chunks, Share(chunkCount, maxTurnChars), |chunks| == chunkCount)
  }

  /** When the attempts are used up, the wrapper of the last chunk alone decides the room. */
  function Unsettled(trimmed: string, chunkCount: nat, maxTurnChars: nat): (plan: ChunkPlan)
    requires chunkCount >= 1
    ensures plan.share >= 1
  {
    var share := Max(1, maxTurnChars - ImportPrefix(chunkCount - 1, chunkCount, maxTurnChars).Length());
    ChunkPlan(SplitText(trimmed, share), share, false)
  }

  /** Guess a chunk count, split with the room it leaves, and retry with the count that came out. */
  function PlanChunks(trimmed: string, chunkCount: nat, attempt: nat, maxTurnChars: nat): (plan: ChunkPlan)
    requires chunkCount >= 1 && attempt <= MAX_ATTEMPTS
    ensures plan.share >= 1
    decreases MAX_ATTEMPTS - attempt, trimmed
  {
    if attempt == MAX_ATTEMPTS then Unsettled(trimmed, chunkCount, maxTurnChars)
    else
      var plan := Attempt(trimmed, chunkCount, maxTurnChars);
      if plan.converged then plan else PlanChunks(trimmed, Max(1, |plan.chunks|), attempt + 1, maxTurnChars)
  }

  /** The chunks are the text split at the plan's share, which fits their number if the retries settled. */
  predicate PlanFits(plan: ChunkPlan, trimmed: string, maxTurnChars: nat) {
    && plan.share >= 1 && plan.chunks == SplitText(trimmed, plan.share)
    && (plan.converged ==> plan.share == Share(|plan.chunks|, maxTurnChars))
  }

  lemma {:induction false} EveryPlanFits(trimmed: string, chunkCount: nat, attempt: nat, maxTurnChars: nat,
      plan: ChunkPlan)
    requires chunkCount >= 1 && attempt <= MAX_ATTEMPTS
    requires plan == PlanChunks(trimmed, chunkCount, attempt, maxTurnChars)
    ensures PlanFits(plan, trimmed, maxTurnChars)
    decreases MAX_ATTEMPTS - attempt
  {
    if attempt < MAX_ATTEMPTS {
      var first := Attempt(trimmed, chunkCount, maxTurnChars);
      if !first.converged {
        EveryPlanFits(trimmed, Max(1, |first.chunks|), attempt + 1, maxTurnChars, plan);
      }
    }
  }

  lemma {:induction false} ShareIsBounded(trimmed: string, chunkCount: nat, attempt: nat, maxTurnChars: nat,
      plan: ChunkPlan)
    requires chunkCount >= 1 && attempt <= MAX_ATTEMPTS
    requires plan == PlanChunks(trimmed, chunkCount, attempt, maxTurnChars)
    ensures plan.share <= Max(1, maxTurnChars)
    decreases MAX_ATTEMPTS - attempt
  {
    if attempt < MAX_ATTEMPTS {
      var first := Attempt(trimmed, chunkCount, maxTurnChars);
      if !first.converged {
        ShareIsBounded(trimmed, Max(1, |first.chunks|), attempt + 1, maxTurnChars, plan);
      }
    }
  }

  /** Under a turn limit of one the text is cut into the smallest pieces. */
  lemma ChunksAtLimitOne(content: string)
    requires Trim(content) == content != ""
    ensures ChunksOf(content, 1) == SplitText(content, 1)
  {
    PlanIsSplit(content, 1);
    ShareIsBounded(content, 1, 0, 1, PlanOf(content, 1).value);
  }

  /** The chunks of a snapshot; `None` when it has no text. */
  function PlanOf(content: string, maxTurnChars: nat): Option<ChunkPlan> {
    var trimmed := Trim(content);
    if trimmed == "" then None else Some(PlanChunks(trimmed, 1, 0, maxTurnChars))
  }

  /** Whatever the outcome of the retries, the chunks are the text split at the share settled on. */
  lemma PlanIsSplit(content: string, maxTurnChars: nat)
    requires PlanOf(content, maxTurnChars).Some?
    ensures var plan := PlanOf(content, maxTurnChars).value;
      ChunksOf(content, maxTurnChars) == plan.chunks == SplitText(Trim(content), plan.share)
  {
    EveryPlanFits(Trim(content), 1, 0, maxTurnChars, PlanOf(content, maxTurnChars).value);
  }

  function ChunksOf(content: string, maxTurnChars: nat): seq<string> {
    match PlanOf(content, maxTurnChars)
    case None => []
    case Some(plan) => plan.chunks
  }

  // ---------------------------------------------------------------------------
  // The loops
  // ---------------------------------------------------------------------------

  method FilterNonBlank(pieces: seq<string>) returns (kept: seq<string>)
    ensures kept == KeepNonBlank(pieces)
  {
    kept := [];
    for i := 0 to |pieces|
      invariant kept + KeepNonBlank(pieces[i..]) == KeepNonBlank(pieces)
    {
      assert pieces[i..][1..] == pieces[i + 1..];
      if exists k | 0 <= k < |pieces[i]| :: !IsSpace(pieces[i][k]) {
        kept := kept + [pieces[i]];
      }
    }
  }

  /** The scanning loop of the splitter: it terminates for every limit of at least one character. */
  method SplitTextByMaxChars(content: string, maxChars: nat) returns (chunks: seq<string>)
    requires maxChars >= 1
    ensures chunks == SplitText(content, maxChars)
    ensures exists pieces | IsCutting(content, 0, maxChars, pieces) :: chunks == KeepNonBlank(pieces)
  {
    ghost var all := Pieces(content, 0, maxChars);
    var pieces: seq<string> := [];
    var offset := 0;
    while offset < |content|
      invariant offset <= |content|
      invariant pieces + Pieces(content, offset, maxChars) == all
    {
      var end := if offset + maxChars < |content| then offset + maxChars else |content|;
      if end < |content| {
        var newline := FindLastNewline(content, end);
        if newline > offset {
          end := newline + 1;
        }
      }
      PiecesNext(content, offset, maxChars, end, pieces);
      pieces := pieces + [content[offset..end]];
      offset := end;
    }
    assert pieces == all;
    PiecesAreTheCutting(content, 0, maxChars, pieces);
    chunks := FilterNonBlank(pieces);
  }

  lemma PiecesNext(s: string, offset: nat, maxChars: nat, end: nat, before: seq<string>)
    requires offset < |s| && maxChars >= 1 && end == PieceEnd(s, offset, maxChars)
    ensures before + [s[offset..end]] + Pieces(s, end, maxChars) == before + Pieces(s, offset, maxChars)
  {
    assert Pieces(s, offset, maxChars) == [s[offset..end]] + Pieces(s, end, maxChars);
  }

  /** `lastIndexOf("\n", from)`. */
  method FindLastNewline(s: string, from: nat) returns (i: int)
    requires from < |s|
    ensures i == LastNewline(s, from)
  {
    i := from;
    while i >= 0 && s[i] != '\n'
      invariant -1 <= i <= from
      invariant LastNewline(s, i) == LastNewline(s, from)
    {
      i := i - 1;
    }
  }

  lemma PlanStep(trimmed: string, chunkCount: nat, attempt: nat, maxTurnChars: nat, plan: ChunkPlan)
    requires chunkCount >= 1 && attempt < MAX_ATTEMPTS && plan == PlanChunks(trimmed, chunkCount, attempt, maxTurnChars)
    ensures
      var chunks := SplitText(trimmed, Share(chunkCount, maxTurnChars));
      if |chunks| == chunkCount then plan.chunks == chunks
      else plan == PlanChunks(trimmed, Max(1, |chunks|), attempt + 1, maxTurnChars)
  {
  }

  method LongestPrefix(chunkCount: nat, maxTurnChars: nat) returns (longest: nat)
    ensures longest == MaxPrefixLength(chunkCount, chunkCount, maxTurnChars)
  {
    longest := 0;
    for i := 0 to chunkCount
      invariant longest == MaxPrefixLength(i, chunkCount, maxTurnChars)
    {
      longest := Max(longest, ImportPrefix(i, chunkCount, maxTurnChars).Length());
    }
  }

  /** One pass of the retry loop: the chunks, and the count to try next if they do not settle it. */
  method SplitForCount(trimmed: string, chunkCount: nat, attempt: nat, maxTurnChars: nat, ghost plan: ChunkPlan)
    returns (chunks: seq<string>, next: nat)
    requires chunkCount >= 1 && attempt < MAX_ATTEMPTS && plan == PlanChunks(trimmed, chunkCount, attempt, maxTurnChars)
    ensures next >= 1 && (|chunks| == chunkCount ==> plan.chunks == chunks)
    ensures |chunks| != chunkCount ==> plan == PlanChunks(trimmed, next, attempt + 1, maxTurnChars)
  {
    PlanStep(trimmed, chunkCount, attempt, maxTurnChars, plan);
    var maxPrefixChars := LongestPrefix(chunkCount, maxTurnChars);
    chunks := SplitTextByMaxChars(trimmed, Max(1, maxTurnChars - maxPrefixChars));
    next := Max(1, |chunks|);
  }

  /** The retry loop that settles the chunk count. */
  method SplitFlushPlanContentIntoChunks(content: string, maxTurnChars: nat) returns (chunks: seq<string>)
    ensures chunks == ChunksOf(content, maxTurnChars)
  {
    var trimmed := Trim(content);
    if trimmed == "" {
      return [];
    }
    chunks := SettleChunks(trimmed, maxTurnChars, PlanChunks(trimmed, 1, 0, maxTurnChars));
  }

  method SettleChunks(trimmed: string, maxTurnChars: nat, ghost plan: ChunkPlan) returns (chunks: seq<string>)
    requires plan == PlanChunks(trimmed, 1, 0, maxTurnChars)
    ensures chunks == plan.chunks
  {
    var chunkCount: nat, attempt: nat := 1, 0;
    while attempt < MAX_ATTEMPTS
      invariant chunkCount >= 1 && attempt <= MAX_ATTEMPTS
      invariant plan == PlanChunks(trimmed, chunkCount, attempt, maxTurnChars)
    {
      var next;
      chunks, next := SplitForCount(trimmed, chunkCount, attempt, maxTurnChars, plan);
      if |chunks| == chunkCount {
        return;
      }
      chunkCount, attempt := next, attempt + 1;
    }
    chunks := SplitUnsettled(trimmed, chunkCount, maxTurnChars, plan);
  }

  /** After the last attempt the wrapper of the last chunk alone decides the room. */
  method SplitUnsettled(trimmed: string, chunkCount: nat, maxTurnChars: nat, ghost plan: ChunkPlan)
      returns (chunks: seq<string>)
    requires chunkCount >= 1 && plan == PlanChunks(trimmed, chunkCount, MAX_ATTEMPTS, maxTurnChars)
    ensures chunks == plan.chunks
  {
    var lastPrefix := ImportPrefix(chunkCount - 1, chunkCount, maxTurnChars);
    chunks := SplitTextByMaxChars(trimmed, Max(1, maxTurnChars - lastPrefix.Length()));
  }

  // ---------------------------------------------------------------------------
  // Conservation
  // ---------------------------------------------------------------------------

  /** Nothing is lost or reordered by cutting: the pieces spell the text. */
  lemma {:induction false} PiecesConserve(s: string, offset: nat, maxChars: nat)
    requires offset <= |s| && maxChars >= 1
    ensures Concat(Pieces(s, offset, maxChars)) == s[offset..]
    decreases |s| - offset
  {
    if offset < |s| {
      var end := PieceEnd(s, offset, maxChars);
      PiecesConserve(s, end, maxChars);
      assert s[offset..] == s[offset..end] + s[end..];
    }
  }

  /** A piece overruns its share by at most one character, and then that character is its final newline. */
  lemma {:induction false} PiecesAreBounded(s: string, offset: nat, maxChars: nat)
    requires offset <= |s| && maxChars >= 1
    ensures forall p | p in Pieces(s, offset, maxChars) ::
              1 <= |p| && (|p| <= maxChars || (|p| == maxChars + 1 && p[maxChars] == '\n'))
    decreases |s| - offset
  {
    if offset < |s| {
      PiecesAreBounded(s, PieceEnd(s, offset, maxChars), maxChars);
    }
  }

  /** Trimming takes the extra newline away again. */
  lemma TrimmedPieceFits(p: string, maxChars: nat)
    requires |p| <= maxChars || (|p| == maxChars + 1 && p[maxChars] == '\n')
    ensures |Trim(p)| <= maxChars
  {
    var rest := TrimStart(p);
    TrimStartSkips(p);
    assert |rest| <= |p| && |Trim(p)| <= |rest|;
    if |rest| == maxChars + 1 {
      assert rest == p && IsSpace(rest[maxChars]);
      assert |TrimEnd(rest)| != |rest|;
    }
  }

  /** Every turn built from a settled plan fits the turn limit, wrapper included. */
  lemma SettledTurnsFit(content: string, maxTurnChars: nat, i: nat)
    requires maxTurnChars >= 1
    requires PlanOf(content, maxTurnChars).Some? && PlanOf(content, maxTurnChars).value.converged
    requires i < |ChunksOf(content, maxTurnChars)|
    ensures
      var chunks := ChunksOf(content, maxTurnChars);
      ImportPrefix(i, |chunks|, maxTurnChars).Length() + |Trim(chunks[i])| <= maxTurnChars
  {
    var plan := PlanOf(content, maxTurnChars).value;
    PlanIsSplit(content, maxTurnChars);
    EveryPlanFits(Trim(content), 1, 0, maxTurnChars, plan);
    SplitFits(Trim(content), plan, maxTurnChars, i);
  }

  lemma SplitFits(trimmed: string, plan: ChunkPlan, maxTurnChars: nat, i: nat)
    requires maxTurnChars >= 1 && plan.share >= 1 && plan.chunks == SplitText(trimmed, plan.share)
    requires plan.share == Share(|plan.chunks|, maxTurnChars) && i < |plan.chunks|
    ensures ImportPrefix(i, |plan.chunks|, maxTurnChars).Length() + |Trim(plan.chunks[i])| <= maxTurnChars
  {
    var n := |plan.chunks|;
    LongestIsBound(i, n, n, maxTurnChars);
    PiecesAreBounded(trimmed, 0, plan.share);
    KeptAreNonBlank(Pieces(trimmed, 0, plan.share));
    assert plan.chunks[i] in plan.chunks;
    TrimmedPieceFits(plan.chunks[i], plan.share);
  }

  // ---------------------------------------------------------------------------
  // Where the cuts fall
  // ---------------------------------------------------------------------------

  predicate NewlineInReach(s: string, offset: nat, maxChars: nat) {
    exists k :: offset < k <= offset + maxChars < |s| && s[k] == '\n'
  }

  /** `newline` is the last newline among the characters after the first that a piece from `offset` can reach. */
  predicate LastInReach(s: string, offset: nat, maxChars: nat, newline: nat) {
    && offset < newline <= offset + maxChars < |s| && s[newline] == '\n'
    && forall k | newline < k <= offset + maxChars :: s[k] != '\n'
  }

  /** A piece that reaches from `offset` to `end`: to the end of the text if that fits; else up to the
      last newline in reach, included; else, without one, exactly as far as the limit. */
  predicate WellCut(s: string, offset: nat, maxChars: nat, end: nat) {
    && offset < end <= |s|
    && if |s| - offset <= maxChars then end == |s|
       else if NewlineInReach(s, offset, maxChars) then LastInReach(s, offset, maxChars, end - 1)
       else end == offset + maxChars
  }

  /** The pieces spell the text from `offset` on, and each is well cut where it stands. */
  predicate IsCutting(s: string, offset: nat, maxChars: nat, pieces: seq<string>)
    requires offset <= |s|
    decreases pieces
  {
    if pieces == [] then offset == |s|
    else
      var end := offset + |pieces[0]|;
      && WellCut(s, offset, maxChars, end) && pieces[0] == s[offset..end]
      && IsCutting(s, end, maxChars, pieces[1..])
  }

  lemma PieceIsWellCut(s: string, offset: nat, maxChars: nat, end: nat)
    requires offset < |s| && maxChars >= 1
    ensures WellCut(s, offset, maxChars, end) <==> end == PieceEnd(s, offset, maxChars)
  {
  }

  lemma CutStep(s: string, offset: nat, maxChars: nat, first: string, rest: seq<string>)
    requires offset < |s| && maxChars >= 1
    ensures var end := PieceEnd(s, offset, maxChars);
      && (IsCutting(s, offset, maxChars, [first] + rest) <==>
            first == s[offset..end] && IsCutting(s, end, maxChars, rest))
      && ([first] + rest == Pieces(s, offset, maxChars) <==>
            first == s[offset..end] && rest == Pieces(s, end, maxChars))
  {
    var pieces := [first] + rest;
    assert pieces[0] == first && pieces[1..] == rest;
    PieceIsWellCut(s, offset, maxChars, offset + |first|);
  }

  /** There is one way to cut a text, and the splitter's pieces are it. */
  lemma {:induction false} PiecesAreTheCutting(s: string, offset: nat, maxChars: nat, pieces: seq<string>)
    requires offset <= |s| && maxChars >= 1
    ensures pieces == Pieces(s, offset, maxChars) <==> IsCutting(s, offset, maxChars, pieces)
    decreases pieces
  {
    if offset < |s| && pieces != [] {
      assert pieces == [pieces[0]] + pieces[1..];
      CutStep(s, offset, maxChars, pieces[0], pieces[1..]);
      PiecesAreTheCutting(s, PieceEnd(s, offset, maxChars), maxChars, pieces[1..]);
    }
  }

  lemma {:induction false} CuttingAt(s: string, offset: nat, maxChars: nat, pieces: seq<string>, i: nat)
    requires offset <= |s| && IsCutting(s, offset, maxChars, pieces) && i < |pieces|
    ensures var start := offset + |Concat(pieces[..i])|; var end := start + |pieces[i]|;
      WellCut(s, start, maxChars, end) && pieces[i] == s[start..end]
    decreases pieces
  {
    if i > 0 {
      assert pieces[..i][0] == pieces[0] && pieces[..i][1..] == pieces[1..][..i - 1];
      CuttingAt(s, offset + |pieces[0]|, maxChars, pieces[1..], i - 1);
    }
  }

  /** A piece reaches the end of the text exactly if it is the last. */
  lemma OnlyTheLastEnds(s: string, maxChars: nat, pieces: seq<string>, i: nat, start: nat, end: nat)
    requires maxChars >= 1 && IsCutting(s, 0, maxChars, pieces) && Concat(pieces) == s && i < |pieces|
    requires start == |Concat(pieces[..i])| && end == start + |pieces[i]|
    ensures i == |pieces| - 1 <==> end == |s|
  {
    NextOffset(pieces, i);
    if i < |pieces| - 1 {
      CuttingAt(s, 0, maxChars, pieces, i + 1);
    } else {
      assert pieces[..i + 1] == pieces;
    }
  }

  lemma WholeCutting(s: string, maxChars: nat, pieces: seq<string>)
    requires maxChars >= 1 && pieces == Pieces(s, 0, maxChars)
    ensures IsCutting(s, 0, maxChars, pieces) && Concat(pieces) == s
  {
    PiecesConserve(s, 0, maxChars);
    assert s[0..] == s;
    PiecesAreTheCutting(s, 0, maxChars, pieces);
  }

  /** Each piece is well cut where it stands, and only the last reaches the end of the text. */
  lemma PiecesAreWellCut(s: string, maxChars: nat, pieces: seq<string>, i: nat, start: nat, end: nat)
    requires maxChars >= 1 && IsCutting(s, 0, maxChars, pieces) && Concat(pieces) == s && i < |pieces|
    requires start == |Concat(pieces[..i])| && end == start + |pieces[i]|
    ensures WellCut(s, start, maxChars, end) && pieces[i] == s[start..end]
    ensures i == |pieces| - 1 <==> end == |s|
  {
    CuttingAt(s, 0, maxChars, pieces, i);
    OnlyTheLastEnds(s, maxChars, pieces, i, start, end);
  }

  lemma EndsInNewline(s: string, start: nat, maxChars: nat, end: nat)
    requires maxChars >= 1 && WellCut(s, start, maxChars, end) && end < |s|
    ensures s[end - 1] == '\n' <==> NewlineInReach(s, start, maxChars) || (end == start + 1 && s[start] == '\n')
    ensures
      if NewlineInReach(s, start, maxChars) then LastInReach(s, start, maxChars, end - 1) else end - start == maxChars
  {
  }

  /** Where the pieces end: a piece that is not the last ends in a newline if and only if one is in its
      reach, and that is the last one there; without one it is as long as the limit. (A limit of one can
      also cut off a newline by itself.) */
  lemma PiecesEndAtNewlines(s: string, maxChars: nat, pieces: seq<string>, i: nat, start: nat, end: nat)
    requires maxChars >= 1 && pieces == Pieces(s, 0, maxChars) && i < |pieces| - 1
    requires start == |Concat(pieces[..i])| && end == start + |pieces[i]|
    ensures start < end < |s| && pieces[i] == s[start..end]
    ensures s[end - 1] == '\n' <==> NewlineInReach(s, start, maxChars) || (end == start + 1 && s[start] == '\n')
    ensures
      if NewlineInReach(s, start, maxChars) then LastInReach(s, start, maxChars, end - 1) else end - start == maxChars
  {
    WholeCutting(s, maxChars, pieces);
    PiecesAreWellCut(s, maxChars, pieces, i, start, end);
    EndsInNewline(s, start, maxChars, end);
  }

  lemma NextOffset(pieces: seq<string>, i: nat)
    requires i < |pieces|
    ensures Concat(pieces[..i + 1]) == Concat(pieces[..i]) + pieces[i]
  {
    assert pieces[..i + 1] == pieces[..i] + [pieces[i]];
    ConcatAppend(pieces[..i], [pieces[i]]);
    assert pieces[i] + "" == pieces[i];
  }

  // ---------------------------------------------------------------------------
  // What a set of imported chunks accounts for
  // ---------------------------------------------------------------------------

  /** `pieces` spell `text`, and each of them is white space or has been imported. */
  predicate Accounts(pieces: seq<string>, text: string, imported: set<string>) {
    Concat(pieces) == text && forall i | 0 <= i < |pieces| :: Blank(pieces[i]) || pieces[i] in imported
  }

  /** The text is made of imported chunks with nothing but white space between them. */
  ghost predicate Covered(text: string, imported: set<string>) {
    exists pieces: seq<string> :: Accounts(pieces, text, imported)
  }

  lemma CoveredByPieces(pieces: seq<string>, imported: set<string>)
    requires forall i | 0 <= i < |pieces| :: Blank(pieces[i]) || pieces[i] in imported
    ensures Covered(Concat(pieces), imported)
  {
    assert Accounts(pieces, Concat(pieces), imported);
  }

  lemma CoveredJoin(a: string, b: string, imported: set<string>)
    requires Covered(a, imported) && Covered(b, imported)
    ensures Covered(a + b, imported)
  {
    var x: seq<string> :| Accounts(x, a, imported);
    var y: seq<string> :| Accounts(y, b, imported);
    ConcatAppend(x, y);
    CoveredByPieces(x + y, imported);
  }

  lemma CoveredGrows(text: string, imported: set<string>, more: set<string>)
    requires Covered(text, imported) && imported <= more
    ensures Covered(text, more)
  {
    var x: seq<string> :| Accounts(x, text, imported);
    assert Accounts(x, text, more);
  }

  function SetOf(parts: seq<string>): (s: set<string>)
    ensures forall i | 0 <= i < |parts| :: parts[i] in s
  {
    set i | 0 <= i < |parts| :: parts[i]
  }

  lemma {:induction false} KeptPieces(pieces: seq<string>)
    ensures forall i | 0 <= i < |pieces| :: Blank(pieces[i]) || pieces[i] in KeepNonBlank(pieces)
  {
    if pieces != [] {
      KeptPieces(pieces[1..]);
      forall i | 0 <= i < |pieces| ensures Blank(pieces[i]) || pieces[i] in KeepNonBlank(pieces) {
        if i > 0 { assert pieces[i] == pieces[1..][i - 1]; }
      }
    }
  }

  /** Importing every chunk accounts for the whole snapshot: all that chunking drops is white space. */
  lemma ChunksCover(content: string, maxTurnChars: nat)
    ensures Covered(content, SetOf(ChunksOf(content, maxTurnChars)))
  {
    var imported := SetOf(ChunksOf(content, maxTurnChars));
    if PlanOf(content, maxTurnChars).None? {
      var _, _ := TrimSplits(content);
      CoveredBlank(content, imported);
    } else {
      var share := PlanOf(content, maxTurnChars).value.share;
      PlanIsSplit(content, maxTurnChars);
      CoveredCore(content, share, imported);
    }
  }

  lemma CoveredBlank(text: string, imported: set<string>)
    requires Blank(text)
    ensures Covered(text, imported)
  {
    assert Concat([text]) == text + Concat([]) == text;
    CoveredByPieces([text], imported);
  }

  lemma CoveredCore(content: string, maxChars: nat, imported: set<string>)
    requires maxChars >= 1
    requires forall p | p in SplitText(Trim(content), maxChars) :: p in imported
    ensures Covered(content, imported)
  {
    PiecesConserve(Trim(content), 0, maxChars);
    assert Trim(content)[0..] == Trim(content);
    CoveredByKept(Pieces(Trim(content), 0, maxChars), imported);
    CoveredInSpace(content, imported);
  }

  lemma CoveredByKept(pieces: seq<string>, imported: set<string>)
    requires forall p | p in KeepNonBlank(pieces) :: p in imported
    ensures Covered(Concat(pieces), imported)
  {
    KeptPieces(pieces);
    CoveredByPieces(pieces, imported);
  }

  lemma CoveredInSpace(content: string, imported: set<string>)
    requires Covered(Trim(content), imported)
    ensures Covered(content, imported)
  {
    var lead, trail := TrimSplits(content);
    CoveredBlank(lead, imported);
    CoveredBlank(trail, imported);
    CoveredJoin(lead, Trim(content), imported);
    CoveredJoin(lead + Trim(content), trail, imported);
  }

  /** When no piece was blank the chunks spell the trimmed text exactly. */
  lemma {:induction false} KeptEverything(pieces: seq<string>)
    requires forall i | 0 <= i < |pieces| :: pieces[i] != []
    ensures |Concat(KeepNonBlank(pieces))| <= |Concat(pieces)|
    ensures Concat(KeepNonBlank(pieces)) == Concat(pieces) <==> KeepNonBlank(pieces) == pieces
  {
    if pieces != [] {
      var rest := pieces[1..];
      KeptEverything(rest);
      var kept := KeepNonBlank(rest);
      assert pieces == [pieces[0]] + rest;
      assert Concat(pieces) == pieces[0] + Concat(rest);
      if Blank(pieces[0]) {
        assert KeepNonBlank(pieces) == kept && |pieces[0]| > 0;
        KeptAreNonBlank(rest);
      } else {
        assert KeepNonBlank(pieces) == [pieces[0]] + kept;
        assert ([pieces[0]] + kept)[1..] == kept;
        assert Concat([pieces[0]] + kept) == pieces[0] + Concat(kept);
        assert Concat(pieces)[|pieces[0]|..] == Concat(rest);
        assert Concat([pieces[0]] + kept)[|pieces[0]|..] == Concat(kept);
      }
    }
  }
}
