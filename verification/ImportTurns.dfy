/** The turns handed to the ingestor, and the ingestor itself as far as it is relied upon. */
module ImportTurns {
  import opened Text
  import opened Chunking

  /** A JavaScript string: free text, an ISO time, or the SHA-256 of a text.
      A constructor for the digest makes the hash injective. */
  datatype Value = Plain(text: string) | Iso(ms: int) | Sha256(preimage: string)
  {
    predicate Empty() {
      this == Plain("")
    }
  }

  /** Where a flush plan lives; fixed for one service in one workspace. */
  datatype Origin = Origin(serviceId: string, flushPlanPath: string, fingerprintPath: string)

  datatype ImportTurn = ImportTurn(
    timestamp: Value,
    wrapper: Wrapper,
    body: string,
    rawContent: string,
    origin: Origin,
    importedAt: Value,
    reason: string,
    bytes: nat,
    chunkIndex: nat,
    chunkCount: nat,
    maxTurnChars: nat,
    fingerprint: Value)

  /** The fingerprint of a chunk: everything but the chunk is fixed by the origin. */
  function Fingerprint(origin: Origin, content: string): Value {
    Sha256("openclaw-flush-plan\n" + origin.serviceId + "\n" + origin.fingerprintPath + "\n" + content)
  }

  lemma FingerprintIsInjective(origin: Origin, a: string, b: string)
    requires Fingerprint(origin, a) == Fingerprint(origin, b)
    ensures a == b
  {
    var prefix := "openclaw-flush-plan\n" + origin.serviceId + "\n" + origin.fingerprintPath + "\n";
    assert a == (prefix + a)[|prefix|..];
    assert b == (prefix + b)[|prefix|..];
  }

  function BuildTurn(
    content: string, origin: Origin, importedAt: Value, timestamp: Value, fingerprint: Value, reason: string,
    chunkIndex: nat, chunkCount: nat, maxTurnChars: nat): ImportTurn
  {
    ImportTurn(
      timestamp, ImportPrefix(chunkIndex, chunkCount, maxTurnChars), Trim(content), content, origin,
      importedAt, reason, ByteLength(content), chunkIndex, chunkCount, maxTurnChars, fingerprint)
  }

  /** Chunk times are one millisecond apart; a time that does not parse is used as it stands. */
  function ChunkTimestamp(importedAt: Value, chunkIndex: nat): Value {
    match importedAt
    case Iso(ms) => Iso(ms + chunkIndex)
    case _ => importedAt
  }

  function FreshTurn(chunks: seq<string>, i: nat, origin: Origin, importedAt: Value, reason: string,
      maxTurnChars: nat): ImportTurn
    requires i < |chunks|
  {
    BuildTurn(
      chunks[i], origin, importedAt, ChunkTimestamp(importedAt, i), Fingerprint(origin, chunks[i]), reason,
      i, |chunks|, maxTurnChars)
  }

  /** The turns of a first attempt. */
  function BuildTurns(content: string, origin: Origin, importedAt: Value, reason: string,
      maxTurnChars: nat): (turns: seq<ImportTurn>)
    ensures |turns| == |ChunksOf(content, maxTurnChars)|
    ensures forall i | 0 <= i < |turns| ::
              turns[i] == FreshTurn(ChunksOf(content, maxTurnChars), i, origin, importedAt, reason, maxTurnChars)
  {
    var chunks := ChunksOf(content, maxTurnChars);
    seq(|chunks|, i requires 0 <= i < |chunks| => FreshTurn(chunks, i, origin, importedAt, reason, maxTurnChars))
  }

  function Raws(turns: seq<ImportTurn>): (raws: seq<string>)
    ensures |raws| == |turns| && forall i | 0 <= i < |turns| :: raws[i] == turns[i].rawContent
  {
    seq(|turns|, i requires 0 <= i < |turns| => turns[i].rawContent)
  }

  lemma FreshRaws(content: string, origin: Origin, importedAt: Value, reason: string, maxTurnChars: nat)
    ensures Raws(BuildTurns(content, origin, importedAt, reason, maxTurnChars)) == ChunksOf(content, maxTurnChars)
  {
  }

  /** The times of a first attempt's turns follow their order in the text, a millisecond apart, from the
      time of the import on. */
  lemma TurnsAreTimedInOrder(content: string, origin: Origin, ms: int, reason: string, limit: nat, i: nat, j: nat)
    requires i <= j < |BuildTurns(content, origin, Iso(ms), reason, limit)|
    ensures var turns := BuildTurns(content, origin, Iso(ms), reason, limit);
      && turns[0].timestamp == Iso(ms) && turns[i].timestamp.Iso? && turns[j].timestamp.Iso?
      && turns[j].timestamp.ms - turns[i].timestamp.ms == j - i
  {
  }

  /** When the number of turns settles, what a turn says, wrapper included, is within the turn limit. */
  lemma FreshTurnsFit(content: string, origin: Origin, importedAt: Value, reason: string, limit: nat, i: nat)
    requires limit >= 1 && PlanOf(content, limit).Some? && PlanOf(content, limit).value.converged
    requires i < |BuildTurns(content, origin, importedAt, reason, limit)|
    ensures var turn := BuildTurns(content, origin, importedAt, reason, limit)[i];
      turn.wrapper.Length() + |turn.body| <= limit
  {
    SettledTurnsFit(content, limit, i);
  }

  lemma {:induction false} CoveredThrough(pieces: seq<string>, text: string, some: set<string>, imported: set<string>)
    requires Accounts(pieces, text, some) && forall p | p in some :: Covered(p, imported)
    ensures Covered(text, imported)
    decreases pieces
  {
    if pieces == [] {
      CoveredBlank(text, imported);
    } else {
      var rest := pieces[1..];
      forall i | 0 <= i < |rest| ensures Blank(rest[i]) || rest[i] in some {
        assert rest[i] == pieces[i + 1];
      }
      CoveredThrough(rest, Concat(rest), some, imported);
      if Blank(pieces[0]) {
        CoveredBlank(pieces[0], imported);
      }
      CoveredJoin(pieces[0], Concat(rest), imported);
    }
  }

  function Bodies(turns: seq<ImportTurn>): (bodies: seq<string>)
    ensures |bodies| == |turns| && forall i | 0 <= i < |turns| :: bodies[i] == turns[i].body
  {
    seq(|turns|, i requires 0 <= i < |turns| => turns[i].body)
  }

  lemma BodyCoversItsChunk(chunk: string, imported: set<string>)
    requires Trim(chunk) in imported
    ensures Covered(chunk, imported)
  {
    assert Accounts([Trim(chunk)], Trim(chunk), imported) by {
      assert [Trim(chunk)][1..] == [] && Trim(chunk) + "" == Trim(chunk);
    }
    CoveredInSpace(chunk, imported);
  }

  /** What the turns of a first attempt say, without their wrappers, is the whole plan: between their texts
      there is nothing but white space. */
  lemma TurnsSayEverything(content: string, origin: Origin, importedAt: Value, reason: string, limit: nat)
    ensures Covered(content, SetOf(Bodies(BuildTurns(content, origin, importedAt, reason, limit))))
  {
    var turns := BuildTurns(content, origin, importedAt, reason, limit);
    var chunks, said := ChunksOf(content, limit), SetOf(Bodies(turns));
    ChunksCover(content, limit);
    forall p | p in SetOf(chunks) ensures Covered(p, said) {
      var i :| 0 <= i < |chunks| && chunks[i] == p;
      assert Bodies(turns)[i] == Trim(p);
      BodyCoversItsChunk(p, said);
    }
    var pieces: seq<string> :| Accounts(pieces, content, SetOf(chunks));
    CoveredThrough(pieces, content, SetOf(chunks), said);
  }

  // ---------------------------------------------------------------------------
  // An ingestor that is idempotent per fingerprint
  // ---------------------------------------------------------------------------

  type Store = map<Value, ImportTurn>

  function Ingest(store: Store, turn: ImportTurn): Store {
    if turn.fingerprint in store then store else store[turn.fingerprint := turn]
  }

  function IngestAll(store: Store, turns: seq<ImportTurn>): Store
    decreases turns
  {
    if turns == [] then store else IngestAll(Ingest(store, turns[0]), turns[1..])
  }

  lemma {:induction false} IngestAllIsKnown(store: Store, turns: seq<ImportTurn>)
    ensures forall f | f in store :: f in IngestAll(store, turns) && IngestAll(store, turns)[f] == store[f]
    ensures forall i | 0 <= i < |turns| :: turns[i].fingerprint in IngestAll(store, turns)
    decreases turns
  {
    if turns != [] {
      IngestAllIsKnown(Ingest(store, turns[0]), turns[1..]);
      forall i | 0 <= i < |turns| ensures turns[i].fingerprint in IngestAll(store, turns) {
        if i > 0 { assert turns[i] == turns[1..][i - 1]; }
      }
    }
  }

  lemma {:induction false} IngestKnownChangesNothing(store: Store, turns: seq<ImportTurn>)
    requires forall i | 0 <= i < |turns| :: turns[i].fingerprint in store
    ensures IngestAll(store, turns) == store
  {
    if turns != [] {
      assert Ingest(store, turns[0]) == store;
      IngestKnownChangesNothing(store, turns[1..]);
    }
  }

  lemma {:induction false} IngestSplit(store: Store, a: seq<ImportTurn>, b: seq<ImportTurn>)
    ensures IngestAll(store, a + b) == IngestAll(IngestAll(store, a), b)
    decreases a
  {
    if a == [] {
      assert a + b == b;
    } else {
      assert (a + b)[1..] == a[1..] + b;
      IngestSplit(Ingest(store, a[0]), a[1..], b);
    }
  }

  /** Stopping after any number of turns and starting over from the first is one uninterrupted import. */
  lemma RestartIsOneImport(store: Store, turns: seq<ImportTurn>, done: nat)
    requires done <= |turns|
    ensures IngestAll(IngestAll(store, turns[..done]), turns) == IngestAll(store, turns)
  {
    var half := IngestAll(store, turns[..done]);
    assert turns == turns[..done] + turns[done..];
    IngestSplit(half, turns[..done], turns[done..]);
    IngestSplit(store, turns[..done], turns[done..]);
    IngestAllIsKnown(store, turns[..done]);
    IngestKnownChangesNothing(half, turns[..done]);
  }

  /** The first `done` turns have been taken in. */
  predicate Known(store: Store, turns: seq<ImportTurn>, done: nat) {
    done <= |turns| && forall i | 0 <= i < done :: turns[i].fingerprint in store
  }

  /** Taking in the next turn beforehand makes no difference to an import from the first turn on. */
  lemma NextTurnChangesNothing(store: Store, turns: seq<ImportTurn>, done: nat)
    requires Known(store, turns, done) && done < |turns|
    ensures IngestAll(Ingest(store, turns[done]), turns) == IngestAll(store, turns)
    ensures Known(Ingest(store, turns[done]), turns, done + 1)
  {
    var more := Ingest(store, turns[done]);
    assert turns == turns[..done] + turns[done..];
    IngestSplit(store, turns[..done], turns[done..]);
    IngestSplit(more, turns[..done], turns[done..]);
    IngestKnownChangesNothing(store, turns[..done]);
    IngestKnownChangesNothing(more, turns[..done]);
    assert Ingest(more, turns[done]) == more;
  }
}
