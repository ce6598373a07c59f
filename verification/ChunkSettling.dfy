/** When the retries that settle the number of import turns come to an end, and what happens if they do not. */
module ChunkSettling {
  import opened Options
  import opened Text
  import opened Chunking

  // ---------------------------------------------------------------------------
  // The room that is left for text
  // ---------------------------------------------------------------------------

  /** The wrapper chosen is one of three, and none of the three that leaves room for text is longer. */
  lemma WrapperIsLongestThatFits(i: nat, n: nat, limit: nat, other: Wrapper)
    requires other in {Verbose(i, n), Compact(i, n), Bare}
    ensures ImportPrefix(i, n, limit) in {Verbose(i, n), Compact(i, n), Bare}
    ensures other.Length() < limit ==> other.Length() <= ImportPrefix(i, n, limit).Length() < limit
  {
  }

  lemma {:induction false} LongestIsReached(n: nat, count: nat, limit: nat) returns (i: nat)
    requires n >= 1
    ensures i < n && ImportPrefix(i, count, limit).Length() == MaxPrefixLength(n, count, limit)
  {
    if n == 1 || MaxPrefixLength(n, count, limit) == ImportPrefix(n - 1, count, limit).Length() {
      i := n - 1;
    } else {
      i := LongestIsReached(n - 1, count, limit);
    }
  }

  /** The room is that beside the longest wrapper of the turns, and never none. */
  lemma RoomBesideLongest(n: nat, limit: nat) returns (longest: nat)
    requires n >= 1
    ensures longest < n && Share(n, limit) == Max(1, limit - ImportPrefix(longest, n, limit).Length())
    ensures forall i | 0 <= i < n :: Share(n, limit) <= Max(1, limit - ImportPrefix(i, n, limit).Length())
  {
    longest := LongestIsReached(n, n, limit);
    forall i | 0 <= i < n ensures Share(n, limit) <= Max(1, limit - ImportPrefix(i, n, limit).Length()) {
      LongestIsBound(i, n, n, limit);
    }
  }

  /** A text goes into one settled turn exactly when it fits beside the wrapper of a single turn. */
  lemma OneTurnIffItFits(content: string, limit: nat)
    requires Trim(content) != ""
    ensures var plan := PlanOf(content, limit).value;
      && (plan.converged && |plan.chunks| == 1 <==> |Trim(content)| <= Max(1, limit - ImportPrefix(0, 1, limit).Length()))
      && (|plan.chunks| == 1 && plan.converged ==> plan.chunks == [Trim(content)])
  {
    var s := Trim(content);
    var _, _ := TrimSplits(content);
    assert !IsSpace(s[0]) && !IsSpace(s[|s| - 1]);
    var plan := PlanOf(content, limit).value;
    assert MaxPrefixLength(0, 1, limit) == 0;
    assert Share(1, limit) == Max(1, limit - ImportPrefix(0, 1, limit).Length());
    OnePieceIffItFits(s, Share(1, limit));
    EveryPlanFits(s, 1, 0, limit, plan);
    if |s| <= Share(1, limit) {
      assert plan == Attempt(s, 1, limit);
    }
  }

  lemma TwoPieces(s: string, m: nat)
    requires m >= 1 && m < |s| && !IsSpace(s[|s| - 1])
    ensures PieceEnd(s, 0, m) < |s|
  {
  }

  lemma OnePieceIffItFits(s: string, m: nat)
    requires m >= 1 && s != "" && !IsSpace(s[0]) && !IsSpace(s[|s| - 1])
    ensures SplitText(s, m) == [s] <==> |s| <= m
    ensures |SplitText(s, m)| == 1 <==> |s| <= m
  {
    var end := PieceEnd(s, 0, m);
    var first, rest := s[0..end], Pieces(s, end, m);
    assert first[0] == s[0] && ([first] + rest)[1..] == rest;
    if |s| <= m {
      assert first == s && KeepNonBlank(rest) == [];
    } else {
      TwoPieces(s, m);
      PiecesConserve(s, end, m);
      assert s[end..][|s| - end - 1] == s[|s| - 1];
      if KeepNonBlank(rest) == [] {
        AllDropped(rest);
      }
    }
  }

  lemma {:induction false} AllDropped(pieces: seq<string>)
    requires KeepNonBlank(pieces) == []
    ensures Blank(Concat(pieces))
  {
    if pieces != [] {
      AllDropped(pieces[1..]);
    }
  }

  // ---------------------------------------------------------------------------
  // More room never makes more pieces
  // ---------------------------------------------------------------------------

  /** Starting further on and with more room, a piece does not end sooner. */
  lemma EndsAreMonotone(s: string, o: nat, p: nat, m: nat, more: nat)
    requires o <= p < |s| && 1 <= m <= more
    ensures PieceEnd(s, o, m) <= PieceEnd(s, p, more)
  {
    PieceIsWellCut(s, o, m, PieceEnd(s, o, m));
    PieceIsWellCut(s, p, more, PieceEnd(s, p, more));
  }

  lemma {:induction false} MoreRoomFewerPieces(s: string, o: nat, p: nat, m: nat, more: nat)
    requires o <= p <= |s| && 1 <= m <= more
    ensures |Pieces(s, p, more)| <= |Pieces(s, o, m)|
    decreases |s| - o
  {
    if p < |s| {
      EndsAreMonotone(s, o, p, m, more);
      MoreRoomFewerPieces(s, PieceEnd(s, o, m), PieceEnd(s, p, more), m, more);
    }
  }

  lemma {:induction false} NoMorePiecesThanCharacters(s: string, o: nat, m: nat)
    requires o <= |s| && m >= 1
    ensures |Pieces(s, o, m)| <= |s| - o
    decreases |s| - o
  {
    if o < |s| {
      NoMorePiecesThanCharacters(s, PieceEnd(s, o, m), m);
    }
  }

  // ---------------------------------------------------------------------------
  // Texts of which no piece is blank
  // ---------------------------------------------------------------------------

  /** No line but an empty one ends in white space, no three newlines come in a row, and no white space is
      as long as `m`. */
  ghost predicate Tidy(s: string, m: nat) {
    && (forall i | 0 <= i < |s| - 1 :: IsSpace(s[i]) && s[i + 1] == '\n' ==> s[i] == '\n')
    && (forall i | 0 <= i < |s| - 2 :: !(s[i] == '\n' && s[i + 1] == '\n' && s[i + 2] == '\n'))
    && (forall i: nat :: !BlankFor(s, i, m))
  }

  predicate BlankFor(s: string, i: nat, m: nat) {
    i + m <= |s| && Blank(s[i..i + m])
  }

  /** A place where the splitter of a tidy text can come to stand: just after a newline, or not before one. */
  predicate CleanCut(s: string, o: nat) {
    o < |s| ==> s[o] != '\n' || (o > 0 && s[o - 1] == '\n')
  }

  lemma NextCutIsClean(s: string, o: nat, m: nat, end: nat)
    requires o < |s| && m >= 1 && WellCut(s, o, m, end)
    ensures CleanCut(s, end)
  {
  }

  lemma BlankBeforeNewline(s: string, o: nat, end: nat, m: nat)
    requires Tidy(s, m) && o + 2 <= end <= |s| && s[end - 1] == '\n' && CleanCut(s, o)
    ensures !Blank(s[o..end])
  {
    if s[end - 2] == '\n' {
      if end > o + 2 {
        assert s[o..end][end - 3 - o] == s[end - 3];
      }
    } else {
      assert s[o..end][end - 2 - o] == s[end - 2];
    }
  }

  lemma TidyPieceHasText(s: string, o: nat, m: nat, run: nat)
    requires o < |s| && 1 <= run <= m && Tidy(s, run) && CleanCut(s, o) && !IsSpace(s[|s| - 1])
    ensures var end := PieceEnd(s, o, m); !Blank(s[o..end]) && CleanCut(s, end)
  {
    var end := PieceEnd(s, o, m);
    PieceIsWellCut(s, o, m, end);
    NextCutIsClean(s, o, m, end);
    if end == |s| {
      assert s[o..end][end - 1 - o] == s[|s| - 1];
    } else if NewlineInReach(s, o, m) {
      BlankBeforeNewline(s, o, end, run);
    } else {
      assert !BlankFor(s, o, run);
      var i :| 0 <= i < run && !IsSpace(s[o..o + run][i]);
      assert s[o..end][i] == s[o..o + run][i];
    }
  }

  /** Of a tidy text no piece is dropped. */
  lemma {:induction false} NothingIsDropped(s: string, o: nat, m: nat, run: nat)
    requires o <= |s| && 1 <= run <= m && Tidy(s, run) && CleanCut(s, o) && (s != "" ==> !IsSpace(s[|s| - 1]))
    ensures KeepNonBlank(Pieces(s, o, m)) == Pieces(s, o, m)
    decreases |s| - o
  {
    if o < |s| {
      var end := PieceEnd(s, o, m);
      TidyPieceHasText(s, o, m, run);
      NothingIsDropped(s, end, m, run);
      assert ([s[o..end]] + Pieces(s, end, m))[1..] == Pieces(s, end, m);
    }
  }

  // ---------------------------------------------------------------------------
  // Limits under which more turns never have more room
  // ---------------------------------------------------------------------------

  lemma {:induction false} DigitsGrow(a: nat, b: nat)
    requires a <= b
    ensures DigitCount(a) <= DigitCount(b)
    decreases b
  {
    if b >= 10 && a >= 10 {
      DigitsGrow(a / 10, b / 10);
    }
  }

  /** Every wrapper is of the same kind, whatever the number of turns up to `digits` digits. */
  predicate OneKind(limit: nat, digits: nat) {
    limit <= 31 || 30 + 2 * digits < limit <= 256 || 302 + 2 * digits < limit
  }

  /** How the length of the wrapper depends on the number of turns: not at all from one to nine digits
      of the same number, and a single turn has a wrapper of its own. */
  function Level(n: nat): nat {
    if n <= 1 then 0 else DigitCount(n)
  }

  function Longest(limit: nat, level: nat): nat {
    if limit <= 31 then 0
    else if limit <= 256 then if level == 0 then 31 else 30 + 2 * level
    else if level == 0 then 256 else 302 + 2 * level
  }

  lemma {:induction false} LongestOfKind(j: nat, n: nat, limit: nat, base: nat)
    requires 1 <= j <= n
    requires forall i | 0 <= i < n ::
      ImportPrefix(i, n, limit).Length() == base + DigitCount(i + 1) + DigitCount(n)
    ensures MaxPrefixLength(j, n, limit) == base + DigitCount(j) + DigitCount(n)
  {
    if j > 1 {
      LongestOfKind(j - 1, n, limit, base);
      DigitsGrow(j - 1, j);
    } else {
      assert MaxPrefixLength(0, n, limit) == 0;
    }
    assert ImportPrefix(j - 1, n, limit).Length() == base + DigitCount(j) + DigitCount(n);
  }

  lemma {:induction false} AllBare(j: nat, n: nat, limit: nat)
    requires limit <= 31
    ensures MaxPrefixLength(j, n, limit) == 0
  {
    if j > 0 {
      AllBare(j - 1, n, limit);
    }
  }

  lemma LongestByLevel(n: nat, limit: nat, digits: nat)
    requires n >= 1 && DigitCount(n) <= digits && OneKind(limit, digits)
    ensures MaxPrefixLength(n, n, limit) == Longest(limit, Level(n))
  {
    if limit <= 31 {
      AllBare(n, n, limit);
    } else if n == 1 {
      assert MaxPrefixLength(0, 1, limit) == 0;
    } else {
      var base := if limit <= 256 then 30 else 302;
      forall i | 0 <= i < n ensures ImportPrefix(i, n, limit).Length() == base + DigitCount(i + 1) + DigitCount(n) {
        DigitsGrow(i + 1, n);
      }
      LongestOfKind(n, n, limit, base);
    }
  }

  /** The room depends on the level only, and shrinks as it rises. */
  lemma RoomShrinks(a: nat, b: nat, limit: nat, digits: nat)
    requires 1 <= a <= b && DigitCount(b) <= digits && OneKind(limit, digits)
    ensures Level(a) <= Level(b) && Share(b, limit) <= Share(a, limit)
    ensures Level(a) == Level(b) ==> Share(a, limit) == Share(b, limit)
  {
    DigitsGrow(a, b);
    LongestByLevel(a, limit, digits);
    LongestByLevel(b, limit, digits);
  }

  // ---------------------------------------------------------------------------
  // The retries settle
  // ---------------------------------------------------------------------------

  /** A trimmed text of at most six digits of characters, under a limit with one kind of wrapper, and tidy
      for the smallest room it can get. */
  ghost predicate Settleable(s: string, limit: nat) {
    && s != "" && !IsSpace(s[0]) && !IsSpace(s[|s| - 1]) && DigitCount(|s|) <= 6
    && OneKind(limit, DigitCount(|s|)) && Tidy(s, Share(|s|, limit))
  }

  function CountAt(s: string, n: nat, limit: nat): nat {
    |SplitText(s, Share(n, limit))|
  }

  lemma CountIsPieces(s: string, n: nat, limit: nat)
    requires Settleable(s, limit) && 1 <= n <= |s|
    ensures SplitText(s, Share(n, limit)) == Pieces(s, 0, Share(n, limit))
    ensures 1 <= CountAt(s, n, limit) <= |s|
  {
    RoomShrinks(n, |s|, limit, DigitCount(|s|));
    NothingIsDropped(s, 0, Share(n, limit), Share(|s|, limit));
    NoMorePiecesThanCharacters(s, 0, Share(n, limit));
  }

  /** Expecting more turns never gives fewer. */
  lemma CountsGrow(s: string, a: nat, b: nat, limit: nat)
    requires Settleable(s, limit) && 1 <= a <= b <= |s|
    ensures CountAt(s, a, limit) <= CountAt(s, b, limit)
    ensures Level(a) == Level(b) ==> CountAt(s, a, limit) == CountAt(s, b, limit)
    ensures Level(a) <= Level(b) <= DigitCount(|s|)
  {
    DigitsGrow(b, |s|);
    RoomShrinks(a, b, limit, DigitCount(|s|));
    CountIsPieces(s, a, limit);
    CountIsPieces(s, b, limit);
    MoreRoomFewerPieces(s, 0, 0, Share(b, limit), Share(a, limit));
  }

  lemma {:induction false} Settles(s: string, n: nat, attempt: nat, limit: nat)
    requires Settleable(s, limit) && 1 <= n <= CountAt(s, n, limit) && n <= |s|
    requires attempt + (DigitCount(|s|) - Level(n)) + 2 <= MAX_ATTEMPTS && Level(n) <= DigitCount(|s|)
    ensures PlanChunks(s, n, attempt, limit).converged
    decreases MAX_ATTEMPTS - attempt
  {
    var next := CountAt(s, n, limit);
    if next != n {
      CountIsPieces(s, n, limit);
      CountsGrow(s, n, next, limit);
      PlanStep(s, n, attempt, limit, PlanChunks(s, n, attempt, limit));
      if Level(next) == Level(n) {
        assert Attempt(s, next, limit).converged;
      } else {
        Settles(s, next, attempt + 1, limit);
      }
    }
  }

  /** For such texts the retries settle; every turn fits the limit, its wrapper included, and the turns
      spell the trimmed text, with nothing dropped. */
  lemma TidyPlansSettle(content: string, limit: nat)
    requires Settleable(Trim(content), limit)
    ensures PlanOf(content, limit).value.converged
    ensures Concat(ChunksOf(content, limit)) == Trim(content)
    ensures limit >= 1 ==>
      forall i | 0 <= i < |ChunksOf(content, limit)| ::
        var chunks := ChunksOf(content, limit);
        ImportPrefix(i, |chunks|, limit).Length() + |Trim(chunks[i])| <= limit
  {
    var s := Trim(content);
    DigitsGrow(1, |s|);
    CountIsPieces(s, 1, limit);
    Settles(s, 1, 0, limit);
    SettledChunksSpell(content, limit);
    if limit >= 1 {
      forall i | 0 <= i < |ChunksOf(content, limit)| ensures
        ImportPrefix(i, |ChunksOf(content, limit)|, limit).Length() + |Trim(ChunksOf(content, limit)[i])| <= limit
      {
        SettledTurnsFit(content, limit, i);
      }
    }
  }

  lemma SettledChunksSpell(content: string, limit: nat)
    requires Settleable(Trim(content), limit) && PlanOf(content, limit).value.converged
    ensures Concat(ChunksOf(content, limit)) == Trim(content)
  {
    var s := Trim(content);
    var plan := PlanOf(content, limit).value;
    PlanIsSplit(content, limit);
    EveryPlanFits(s, 1, 0, limit, plan);
    var n := |plan.chunks|;
    KeptAreNonBlank(Pieces(s, 0, plan.share));
    NoMorePiecesThanCharacters(s, 0, plan.share);
    assert n <= |s|;
    if n == 0 {
      OnePieceIffItFits(s, plan.share);
      SomePieceIsKept(s, plan.share);
    } else {
      CountIsPieces(s, n, limit);
    }
    PiecesConserve(s, 0, plan.share);
    assert s[0..] == s;
  }

  lemma SomePieceIsKept(s: string, m: nat)
    requires m >= 1 && s != "" && !IsSpace(s[0])
    ensures SplitText(s, m) != []
  {
    var end := PieceEnd(s, 0, m);
    assert s[0..end][0] == s[0];
  }

  // ---------------------------------------------------------------------------
  // Retries that do not settle
  // ---------------------------------------------------------------------------

  predicate Solid(s: string) {
    forall i | 0 <= i < |s| :: !IsSpace(s[i])
  }

  /** A text without white space is cut into pieces as long as the limit, but for the last. */
  lemma SolidPieces(s: string, m: nat, n: nat)
    requires Solid(s) && m >= 1 && n >= 1 && (n - 1) * m < |s| <= n * m
    ensures |Pieces(s, 0, m)| == n && KeepNonBlank(Pieces(s, 0, m)) == Pieces(s, 0, m)
  {
    LastStartIs(0, m, n);
    assert n * m == (n - 1) * m + m;
    PiecesUpTo(s, 0, m, n);
  }

  /** Where the last of `n` pieces of length `m` starts. */
  function LastStart(o: nat, m: nat, n: nat): (start: nat)
    ensures start >= o
    decreases n
  {
    if n <= 1 then o else LastStart(o + m, m, n - 1)
  }

  lemma {:induction false} LastStartIs(o: nat, m: nat, n: nat)
    requires n >= 1
    ensures LastStart(o, m, n) == o + (n - 1) * m
    decreases n
  {
    if n > 1 {
      LastStartIs(o + m, m, n - 1);
      assert (n - 1) * m == (n - 2) * m + m;
    }
  }

  lemma {:induction false} PiecesUpTo(s: string, o: nat, m: nat, n: nat)
    requires Solid(s) && m >= 1 && n >= 1 && LastStart(o, m, n) < |s| <= LastStart(o, m, n) + m
    ensures |Pieces(s, o, m)| == n && KeepNonBlank(Pieces(s, o, m)) == Pieces(s, o, m)
    decreases n
  {
    if n == 1 {
      assert Pieces(s, |s|, m) == [];
      SolidPiece(s, o, m, |s|);
    } else {
      PiecesUpTo(s, o + m, m, n - 1);
      SolidPiece(s, o, m, o + m);
    }
  }

  lemma SolidPiece(s: string, o: nat, m: nat, end: nat)
    requires Solid(s) && m >= 1 && o < |s| && end == if o + m < |s| then o + m else |s|
    requires KeepNonBlank(Pieces(s, end, m)) == Pieces(s, end, m)
    ensures Pieces(s, o, m) == [s[o..end]] + Pieces(s, end, m)
    ensures KeepNonBlank(Pieces(s, o, m)) == Pieces(s, o, m)
  {
    assert WellCut(s, o, m, end);
    PieceIsWellCut(s, o, m, end);
    assert s[o..end][0] == s[o];
    assert ([s[o..end]] + Pieces(s, end, m))[1..] == Pieces(s, end, m);
  }

  const AWKWARD: nat := 306

  // At 306 characters the room for one, two, fifty and a hundred turns is 50, 2, 1 and 270.

  lemma RoomForFew()
    ensures Share(1, AWKWARD) == 50 && Share(2, AWKWARD) == 2
  {
    assert MaxPrefixLength(0, 1, AWKWARD) == 0;
    assert MaxPrefixLength(0, 2, AWKWARD) == 0;
    assert MaxPrefixLength(1, 2, AWKWARD) == 304;
  }

  lemma RoomForFifty()
    ensures Share(50, AWKWARD) == 1
  {
    LongestIsBound(0, 50, 50, AWKWARD);
    assert DigitCount(50) == 2;
  }

  lemma RoomForHundred()
    ensures Share(100, AWKWARD) == 270
  {
    assert DigitCount(100) == 3;
    LongestOfKind(100, 100, AWKWARD, 30);
  }

  /** From `n` turns the retries go on to `next`, with the same plan in the end. */
  predicate Retries(s: string, n: nat, next: nat, limit: nat) {
    n >= 1 && next >= 1 && n != next && |SplitText(s, Share(n, limit))| == next
  }

  /** From `n` turns at an attempt the retries come to this plan. */
  predicate ComesTo(s: string, n: nat, attempt: nat, limit: nat, plan: ChunkPlan) {
    n >= 1 && attempt <= MAX_ATTEMPTS && PlanChunks(s, n, attempt, limit) == plan
  }

  lemma RetryStep(s: string, n: nat, next: nat, attempt: nat, limit: nat, plan: ChunkPlan)
    requires Retries(s, n, next, limit) && attempt < MAX_ATTEMPTS && ComesTo(s, next, attempt + 1, limit, plan)
    ensures ComesTo(s, n, attempt, limit, plan)
  {
  }

  /** The retries go from each count of the trace to the next, and use up all attempts. */
  predicate Follows(s: string, limit: nat, trace: seq<nat>) {
    |trace| == MAX_ATTEMPTS + 1 && forall i | 0 <= i < MAX_ATTEMPTS :: Retries(s, trace[i], trace[i + 1], limit)
  }

  lemma {:induction false} FollowedBack(s: string, limit: nat, trace: seq<nat>, plan: ChunkPlan, k: nat)
    requires Follows(s, limit, trace) && k <= MAX_ATTEMPTS
    requires ComesTo(s, trace[MAX_ATTEMPTS], MAX_ATTEMPTS, limit, plan)
    ensures ComesTo(s, trace[k], k, limit, plan)
    decreases MAX_ATTEMPTS - k
  {
    if k < MAX_ATTEMPTS {
      FollowedBack(s, limit, trace, plan, k + 1);
      RetryStep(s, trace[k], trace[k + 1], k, limit, plan);
    }
  }

  lemma SolidRetries(s: string, limit: nat, n: nat, next: nat, room: nat)
    requires Solid(s) && n >= 1 && next >= 1 && n != next && Share(n, limit) == room
    requires (next - 1) * room < |s| <= next * room
    ensures Retries(s, n, next, limit)
  {
    SolidPieces(s, room, next);
  }

  /** One, two, fifty, a hundred turns, and back to one. */
  function NextInCircle(n: nat): nat {
    if n == 1 then 2 else if n == 2 then 50 else if n == 50 then 100 else 1
  }

  predicate InCircle(n: nat) {
    n == 1 || n == 2 || n == 50 || n == 100
  }

  predicate RunsInCircle(trace: seq<nat>) {
    |trace| == MAX_ATTEMPTS + 1
    && forall i | 0 <= i < MAX_ATTEMPTS :: InCircle(trace[i]) && trace[i + 1] == NextInCircle(trace[i])
  }

  lemma CircleStep(s: string, n: nat)
    requires Solid(s) && |s| == 100 && InCircle(n)
    ensures Retries(s, n, NextInCircle(n), AWKWARD)
  {
    if n == 1 {
      RoomForFew();
      SolidRetries(s, AWKWARD, 1, 2, 50);
    } else if n == 2 {
      RoomForFew();
      SolidRetries(s, AWKWARD, 2, 50, 2);
    } else if n == 50 {
      RoomForFifty();
      SolidRetries(s, AWKWARD, 50, 100, 1);
    } else {
      RoomForHundred();
      SolidRetries(s, AWKWARD, 100, 1, 270);
    }
  }

  lemma AlwaysAround(s: string, trace: seq<nat>)
    requires Solid(s) && |s| == 100 && RunsInCircle(trace)
    ensures Follows(s, AWKWARD, trace)
  {
    forall i | 0 <= i < MAX_ATTEMPTS ensures Retries(s, trace[i], trace[i + 1], AWKWARD) {
      CircleStep(s, trace[i]);
    }
  }

  lemma AwkwardPlan(s: string, limit: nat, trace: seq<nat>, plan: ChunkPlan)
    requires Follows(s, limit, trace) && trace[0] == trace[MAX_ATTEMPTS] == 1 && plan == Unsettled(s, 1, limit)
    ensures PlanChunks(s, 1, 0, limit) == plan
  {
    FollowedBack(s, limit, trace, plan, 0);
  }

  /** A text for which the retries go round in circles: any hundred characters without white space, under a
      limit of 306. It ends up in two turns of 354 characters each. */
  lemma UnsettledTurnsOverflow(content: string)
    requires Solid(content) && |content| == 100
    ensures !PlanOf(content, AWKWARD).value.converged && |ChunksOf(content, AWKWARD)| == 2
    ensures forall i | 0 <= i < 2 ::
      ImportPrefix(i, 2, AWKWARD).Length() + |Trim(ChunksOf(content, AWKWARD)[i])| == 354
  {
    TrimFixed(content);
    var plan := Unsettled(content, 1, AWKWARD);
    var trace := [1, 2, 50, 100, 1, 2, 50, 100, 1];
    AlwaysAround(content, trace);
    AwkwardPlan(content, AWKWARD, trace, plan);
    SolidHalves(content, plan);
  }

  lemma SolidHalves(s: string, plan: ChunkPlan)
    requires Solid(s) && |s| == 100 && plan == Unsettled(s, 1, AWKWARD)
    ensures |plan.chunks| == 2 && forall i | 0 <= i < 2 :: |Trim(plan.chunks[i])| == 50
  {
    SolidPieces(s, 50, 2);
    PieceIsWellCut(s, 0, 50, 50);
    PieceIsWellCut(s, 50, 50, 100);
    assert Pieces(s, 100, 50) == [];
    assert Pieces(s, 50, 50) == [s[50..100]];
    assert Pieces(s, 0, 50) == [s[0..50], s[50..100]];
    TrimFixed(s[0..50]);
    TrimFixed(s[50..100]);
  }
}
