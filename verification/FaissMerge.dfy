/** How the FAISS sidecar merges conversation chunks into the metadata rows it already holds. */
module FaissMerge {
  import opened Collections
  import opened Options

  /** A metadata row. `time` is the parsed timestamp; a missing or non-string field reads as None. */
  datatype Row = Row(sessionKey: Option<string>, id: Option<string>, text: string, time: Option<int>)

  datatype Key = Key(sessionKey: string, id: string)

  function TextOr(s: Option<string>): string {
    if s.Some? then s.value else ""
  }

  function KeyOf(row: Row): Key {
    Key(TextOr(row.sessionKey), TextOr(row.id))
  }

  function Keys(rows: seq<Row>): (keys: seq<Key>)
    ensures |keys| == |rows| && forall i | 0 <= i < |rows| :: keys[i] == KeyOf(rows[i])
  {
    seq(|rows|, i requires 0 <= i < |rows| => KeyOf(rows[i]))
  }

  // ---------------------------------------------------------------------------
  // Pruning
  // ---------------------------------------------------------------------------

  /** A row stays when its time is unknown or not before the cutoff. */
  predicate Retained(row: Row, cutoff: Option<int>) {
    cutoff.None? || row.time.None? || row.time.value >= cutoff.value
  }

  function Pruned(rows: seq<Row>, cutoff: Option<int>): seq<Row> {
    if rows == [] then []
    else
      var rest := Pruned(rows[..|rows| - 1], cutoff);
      if Retained(rows[|rows| - 1], cutoff) then rest + [rows[|rows| - 1]] else rest
  }

  lemma {:induction false} PrunedWithoutCutoff(rows: seq<Row>)
    ensures Pruned(rows, None) == rows
  {
    if rows != [] {
      PrunedWithoutCutoff(rows[..|rows| - 1]);
    }
  }

  method PruneMetadataRows(rows: seq<Row>, cutoff: Option<int>) returns (pruned: seq<Row>)
    ensures pruned == Pruned(rows, cutoff)
    ensures forall row :: row in pruned <==> row in rows && Retained(row, cutoff)
  {
    PrunedRows(rows, cutoff);
    if cutoff.None? {
      PrunedWithoutCutoff(rows);
      return rows;
    }
    pruned := [];
    for i := 0 to |rows|
      invariant pruned == Pruned(rows[..i], cutoff)
    {
      assert rows[..i + 1][..i] == rows[..i];
      if rows[i].time.None? || rows[i].time.value >= cutoff.value {
        pruned := pruned + [rows[i]];
      }
    }
    assert rows[..|rows|] == rows;
  }

  lemma {:induction false} PrunedRows(rows: seq<Row>, cutoff: Option<int>)
    ensures forall row :: row in Pruned(rows, cutoff) <==> row in rows && Retained(row, cutoff)
  {
    if rows != [] {
      PrunedRows(rows[..|rows| - 1], cutoff);
      assert rows == rows[..|rows| - 1] + [rows[|rows| - 1]];
    }
  }

  // ---------------------------------------------------------------------------
  // Merging
  // ---------------------------------------------------------------------------

  predicate HasKey(rows: seq<Row>, key: Key) {
    exists i | 0 <= i < |rows| :: KeyOf(rows[i]) == key
  }

  /** The last row filed under a key. */
  function Latest(rows: seq<Row>, key: Key): (row: Row)
    requires HasKey(rows, key)
    ensures KeyOf(row) == key && row in rows
  {
    if KeyOf(rows[|rows| - 1]) == key then rows[|rows| - 1] else Latest(rows[..|rows| - 1], key)
  }

  /** The keys that updates add, in the order they first appear. */
  function FreshKeys(known: seq<Key>, updates: seq<Row>): (added: seq<Key>)
    ensures forall k | k in added :: HasKey(updates, k) && k !in known
    ensures forall i | 0 <= i < |updates| :: KeyOf(updates[i]) in known || KeyOf(updates[i]) in added
    ensures forall i, j | 0 <= i < j < |added| :: added[i] != added[j]
  {
    if updates == [] then []
    else
      var last := updates[|updates| - 1];
      var added := FreshKeys(known, updates[..|updates| - 1]);
      if KeyOf(last) in known || KeyOf(last) in added then added else added + [KeyOf(last)]
  }

  function Order(existing: seq<Row>, updates: seq<Row>): seq<Key> {
    Keys(existing) + FreshKeys(Keys(existing), updates)
  }

  lemma OrderIsKeys(existing: seq<Row>, updates: seq<Row>, key: Key)
    ensures key in Order(existing, updates) <==> HasKey(existing + updates, key)
  {
    var keys, added, all := Keys(existing), FreshKeys(Keys(existing), updates), existing + updates;
    if key in keys {
      var i :| 0 <= i < |keys| && keys[i] == key;
      assert KeyOf(all[i]) == key;
    } else if key in added {
      var i :| 0 <= i < |updates| && KeyOf(updates[i]) == key;
      assert KeyOf(all[|existing| + i]) == key;
    }
  }

  /** For each listed key, the row last filed under it. */
  function RowsFor(order: seq<Key>, rows: seq<Row>): (result: seq<Row>)
    requires forall k | k in order :: HasKey(rows, k)
    ensures |result| == |order| && forall i | 0 <= i < |order| :: result[i] == Latest(rows, order[i])
  {
    seq(|order|, i requires 0 <= i < |order| => Latest(rows, order[i]))
  }

  function Merged(existing: seq<Row>, updates: seq<Row>): (merged: seq<Row>)
    ensures |merged| == |Order(existing, updates)|
  {
    assert forall k | k in Order(existing, updates) :: HasKey(existing + updates, k) by {
      forall k | k in Order(existing, updates) ensures HasKey(existing + updates, k) {
        OrderIsKeys(existing, updates, k);
      }
    }
    RowsFor(Order(existing, updates), existing + updates)
  }

  /** The dictionary view of a list of rows: each key's last row. */
  ghost predicate Indexes(byKey: map<Key, Row>, rows: seq<Row>) {
    forall k :: (k in byKey <==> HasKey(rows, k)) && (k in byKey ==> byKey[k] == Latest(rows, k))
  }

  lemma IndexesNext(byKey: map<Key, Row>, rows: seq<Row>, row: Row)
    requires Indexes(byKey, rows)
    ensures Indexes(byKey[KeyOf(row) := row], rows + [row])
  {
    forall k ensures HasKey(rows + [row], k) <==> HasKey(rows, k) || k == KeyOf(row) {
      HasKeyAppend(rows, [row], k);
      assert HasKey([row], k) <==> KeyOf([row][0]) == k;
    }
    assert (rows + [row])[..|rows|] == rows;
  }

  lemma HasKeyAppend(a: seq<Row>, b: seq<Row>, key: Key)
    ensures HasKey(a + b, key) <==> HasKey(a, key) || HasKey(b, key)
  {
    if HasKey(a, key) {
      var i :| 0 <= i < |a| && KeyOf(a[i]) == key;
      assert KeyOf((a + b)[i]) == key;
    } else if HasKey(b, key) {
      var i :| 0 <= i < |b| && KeyOf(b[i]) == key;
      assert KeyOf((a + b)[|a| + i]) == key;
    }
  }

  method IndexExisting(existing: seq<Row>) returns (byKey: map<Key, Row>, order: seq<Key>)
    ensures Indexes(byKey, existing) && order == Keys(existing)
  {
    byKey, order := map[], [];
    for i := 0 to |existing|
      invariant Indexes(byKey, existing[..i]) && order == Keys(existing[..i])
    {
      assert existing[..i + 1] == existing[..i] + [existing[i]];
      IndexesNext(byKey, existing[..i], existing[i]);
      byKey := byKey[KeyOf(existing[i]) := existing[i]];
      order := order + [KeyOf(existing[i])];
    }
    assert existing[..|existing|] == existing;
  }

  method ApplyUpdates(existing: seq<Row>, updates: seq<Row>, indexed: map<Key, Row>)
      returns (byKey: map<Key, Row>, order: seq<Key>)
    requires Indexes(indexed, existing)
    ensures Indexes(byKey, existing + updates) && order == Order(existing, updates)
  {
    byKey, order := indexed, Keys(existing);
    assert existing + updates[..0] == existing;
    for i := 0 to |updates|
      invariant Indexes(byKey, existing + updates[..i]) && order == Order(existing, updates[..i])
    {
      assert existing + updates[..i + 1] == existing + updates[..i] + [updates[i]];
      assert updates[..i + 1][..i] == updates[..i];
      var key := KeyOf(updates[i]);
      OrderIsKeys(existing, updates[..i], key);
      IndexesNext(byKey, existing + updates[..i], updates[i]);
      if key !in byKey {
        order := order + [key];
      }
      byKey := byKey[key := updates[i]];
    }
    assert updates[..|updates|] == updates;
  }

  method MergeRows(existing: seq<Row>, updates: seq<Row>) returns (merged: seq<Row>)
    ensures merged == Merged(existing, updates)
  {
    var byKey, order := IndexExisting(existing);
    byKey, order := ApplyUpdates(existing, updates, byKey);
    forall k | k in order ensures k in byKey {
      OrderIsKeys(existing, updates, k);
    }
    merged := seq(|order|, i requires 0 <= i < |order| && order[i] in byKey => byKey[order[i]]);
  }

  /** The merged rows: one for each position of the order, holding the latest row under its key. */
  lemma MergeKeepsLatest(existing: seq<Row>, updates: seq<Row>)
    ensures Keys(Merged(existing, updates)) == Order(existing, updates)
    ensures forall key :: HasKey(Merged(existing, updates), key) <==> HasKey(existing + updates, key)
    ensures forall row | row in Merged(existing, updates) ::
      HasKey(existing + updates, KeyOf(row)) && row == Latest(existing + updates, KeyOf(row))
  {
    var merged, order := Merged(existing, updates), Order(existing, updates);
    assert forall i | 0 <= i < |merged| :: KeyOf(merged[i]) == order[i];
    forall key ensures HasKey(merged, key) <==> HasKey(existing + updates, key) {
      OrderIsKeys(existing, updates, key);
      if key in order {
        var i :| 0 <= i < |order| && order[i] == key;
        assert KeyOf(merged[i]) == key;
      }
    }
  }

  predicate DistinctKeys(rows: seq<Row>) {
    forall i, j | 0 <= i < j < |rows| :: KeyOf(rows[i]) != KeyOf(rows[j])
  }

  /** Merging never adds a repeated key, and never repairs one that was already there. */
  lemma MergeKeepsKeysDistinct(existing: seq<Row>, updates: seq<Row>)
    ensures DistinctKeys(Merged(existing, updates)) <==> DistinctKeys(existing)
  {
    MergedKeysAt(existing, updates);
    if DistinctKeys(existing) {
      OrderIsDistinct(existing, updates);
    } else {
      var i, j :| 0 <= i < j < |existing| && KeyOf(existing[i]) == KeyOf(existing[j]);
      assert Order(existing, updates)[i] == Order(existing, updates)[j];
      assert KeyOf(Merged(existing, updates)[i]) == KeyOf(Merged(existing, updates)[j]);
    }
  }

  lemma MergedKeysAt(existing: seq<Row>, updates: seq<Row>)
    ensures forall i | 0 <= i < |Merged(existing, updates)| ::
              KeyOf(Merged(existing, updates)[i]) == Order(existing, updates)[i]
    ensures forall i | 0 <= i < |existing| :: Order(existing, updates)[i] == KeyOf(existing[i])
  {
    MergeKeepsLatest(existing, updates);
    var merged := Merged(existing, updates);
    assert forall i | 0 <= i < |merged| :: Keys(merged)[i] == KeyOf(merged[i]);
  }

  lemma OrderIsDistinct(existing: seq<Row>, updates: seq<Row>)
    requires DistinctKeys(existing)
    ensures forall i, j | 0 <= i < j < |Order(existing, updates)| ::
              Order(existing, updates)[i] != Order(existing, updates)[j]
  {
    var keys := Keys(existing);
    var added := FreshKeys(keys, updates);
    forall i, j | 0 <= i < j < |keys + added| ensures (keys + added)[i] != (keys + added)[j] {
      if i < |keys| <= j {
        assert keys[i] in keys && added[j - |keys|] in added;
      }
    }
  }

  lemma {:induction false} LatestAppend(a: seq<Row>, b: seq<Row>, key: Key)
    requires HasKey(a + b, key)
    ensures HasKey(b, key) ==> Latest(a + b, key) == Latest(b, key)
    ensures !HasKey(b, key) ==> HasKey(a, key) && Latest(a + b, key) == Latest(a, key)
  {
    HasKeyAppend(a, b, key);
    if b == [] {
      assert a + b == a;
    } else if KeyOf(b[|b| - 1]) != key {
      var front := b[..|b| - 1];
      assert (a + b)[..|a + b| - 1] == a + front;
      assert b == front + [b[|b| - 1]];
      HasKeyAppend(front, [b[|b| - 1]], key);
      HasKeyAppend(a, front, key);
      LatestAppend(a, front, key);
    }
  }

  lemma {:induction false} FreshKeysAppend(known: seq<Key>, u: seq<Row>, v: seq<Row>)
    ensures FreshKeys(known, u + v) == FreshKeys(known, u) + FreshKeys(known + FreshKeys(known, u), v)
  {
    if v == [] {
      assert u + v == u;
    } else {
      var front := v[..|v| - 1];
      assert (u + v)[..|u + v| - 1] == u + front;
      FreshKeysAppend(known, u, front);
    }
  }

  lemma LatestOfMerged(existing: seq<Row>, updates: seq<Row>, key: Key)
    requires HasKey(existing + updates, key)
    ensures HasKey(Merged(existing, updates), key)
    ensures Latest(Merged(existing, updates), key) == Latest(existing + updates, key)
  {
    MergeKeepsLatest(existing, updates);
    assert Latest(Merged(existing, updates), key) in Merged(existing, updates);
  }

  /** Merging u and then v is merging u followed by v in one batch. */
  lemma MergeInBatches(existing: seq<Row>, u: seq<Row>, v: seq<Row>)
    ensures Merged(Merged(existing, u), v) == Merged(existing, u + v)
  {
    var first := Merged(existing, u);
    var order := Order(existing, u + v);
    OrderInBatches(existing, u, v);
    assert existing + (u + v) == existing + u + v;
    forall i | 0 <= i < |order| ensures Merged(first, v)[i] == Merged(existing, u + v)[i] {
      LatestInBatches(existing, u, v, order[i]);
    }
  }

  lemma OrderInBatches(existing: seq<Row>, u: seq<Row>, v: seq<Row>)
    ensures Order(Merged(existing, u), v) == Order(existing, u + v)
  {
    var keys := Keys(existing);
    var first := FreshKeys(keys, u);
    assert Keys(Merged(existing, u)) == keys + first by { MergeKeepsLatest(existing, u); }
    assert FreshKeys(keys, u + v) == first + FreshKeys(keys + first, v) by { FreshKeysAppend(keys, u, v); }
    Associates(keys, first, FreshKeys(keys + first, v));
  }

  lemma LatestInBatches(existing: seq<Row>, u: seq<Row>, v: seq<Row>, key: Key)
    requires key in Order(existing, u + v)
    ensures HasKey(Merged(existing, u) + v, key) && HasKey(existing + u + v, key)
    ensures Latest(Merged(existing, u) + v, key) == Latest(existing + u + v, key)
  {
    var first := Merged(existing, u);
    OrderIsKeys(existing, u + v, key);
    assert existing + (u + v) == (existing + u) + v;
    HasKeyAppend(existing + u, v, key);
    MergeKeepsLatest(existing, u);
    HasKeyAppend(first, v, key);
    LatestAppend(existing + u, v, key);
    LatestAppend(first, v, key);
    if !HasKey(v, key) {
      LatestOfMerged(existing, u, key);
    }
  }

  /** Sending the same batch again changes nothing. */
  lemma MergeIsIdempotent(existing: seq<Row>, updates: seq<Row>)
    ensures Merged(Merged(existing, updates), updates) == Merged(existing, updates)
  {
    var merged, order := Merged(existing, updates), Order(existing, updates);
    MergeKeepsLatest(existing, updates);
    forall i | 0 <= i < |updates| ensures KeyOf(updates[i]) in Keys(merged) {
      assert (existing + updates)[|existing| + i] == updates[i];
      OrderIsKeys(existing, updates, KeyOf(updates[i]));
    }
    NothingFresh(Keys(merged), updates);
    assert Order(merged, updates) == order;
    forall i | 0 <= i < |order| ensures Merged(merged, updates)[i] == merged[i] {
      var key := order[i];
      OrderIsKeys(existing, updates, key);
      OrderIsKeys(merged, updates, key);
      LatestAppend(merged, updates, key);
      LatestAppend(existing, updates, key);
      LatestOfMerged(existing, updates, key);
    }
  }

  lemma {:induction false} NothingFresh(known: seq<Key>, updates: seq<Row>)
    requires forall i | 0 <= i < |updates| :: KeyOf(updates[i]) in known
    ensures FreshKeys(known, updates) == []
  {
    if updates != [] {
      NothingFresh(known, updates[..|updates| - 1]);
    }
  }

  // ---------------------------------------------------------------------------
  // One upsert
  // ---------------------------------------------------------------------------

  /** What an upsert leaves in the metadata file. */
  function Upserted(existing: seq<Row>, cutoff: Option<int>, chunks: seq<Row>): seq<Row> {
    Merged(Pruned(existing, cutoff), chunks)
  }

  lemma {:induction false} PrunedLength(rows: seq<Row>, cutoff: Option<int>)
    ensures |Pruned(rows, cutoff)| <= |rows|
    ensures |Pruned(rows, cutoff)| == |rows| ==> Pruned(rows, cutoff) == rows
    ensures (forall row | row in rows :: Retained(row, cutoff)) ==> Pruned(rows, cutoff) == rows
  {
    if rows != [] {
      PrunedLength(rows[..|rows| - 1], cutoff);
      assert rows == rows[..|rows| - 1] + [rows[|rows| - 1]];
    }
  }

  /** Rows with equal keys are equal. */
  predicate OneRowPerKey(rows: seq<Row>) {
    forall i, j | 0 <= i < |rows| && 0 <= j < |rows| && KeyOf(rows[i]) == KeyOf(rows[j]) :: rows[i] == rows[j]
  }

  lemma MergedHasOneRowPerKey(existing: seq<Row>, updates: seq<Row>)
    ensures OneRowPerKey(Merged(existing, updates))
  {
    MergeKeepsLatest(existing, updates);
    var merged := Merged(existing, updates);
    forall i, j | 0 <= i < |merged| && 0 <= j < |merged| && KeyOf(merged[i]) == KeyOf(merged[j])
      ensures merged[i] == merged[j]
    {
      assert merged[i] in merged && merged[j] in merged;
    }
  }

  /** Without some of the old rows a merge gives the same rows exactly when it gives the same keys. */
  lemma SameRowsIfSameKeys(kept: seq<Row>, rows: seq<Row>, v: seq<Row>)
    requires OneRowPerKey(rows) && forall row | row in kept :: row in rows
    ensures Merged(kept, v) == Merged(rows, v) <==> Order(kept, v) == Order(rows, v)
  {
    MergeKeepsLatest(kept, v);
    MergeKeepsLatest(rows, v);
    if Order(kept, v) == Order(rows, v) {
      var order := Order(rows, v);
      forall i | 0 <= i < |order| ensures Merged(kept, v)[i] == Merged(rows, v)[i] {
        SameLatest(kept, rows, v, order[i]);
      }
    }
  }

  lemma SameLatest(kept: seq<Row>, rows: seq<Row>, v: seq<Row>, key: Key)
    requires OneRowPerKey(rows) && (forall row | row in kept :: row in rows)
    requires key in Order(kept, v) && key in Order(rows, v)
    ensures HasKey(kept + v, key) && HasKey(rows + v, key) && Latest(kept + v, key) == Latest(rows + v, key)
  {
    OrderIsKeys(kept, v, key);
    OrderIsKeys(rows, v, key);
    LatestAppend(kept, v, key);
    LatestAppend(rows, v, key);
    if !HasKey(v, key) {
      var a, b := Latest(kept, key), Latest(rows, key);
      assert a in rows && b in rows;
    }
  }

  /** What is known besides changes which keys are fresh, and in no other way their order. */
  lemma {:induction false} FreshAfter(known: seq<Key>, more: seq<Key>, v: seq<Row>)
    requires more <= FreshKeys(known, v)
    ensures FreshKeys(known, v) == more + FreshKeys(known + more, v)
  {
    if v == [] {
      assert more == [];
    } else {
      var front, last := v[..|v| - 1], KeyOf(v[|v| - 1]);
      var added := FreshKeys(known, front);
      if more <= added {
        FreshAfter(known, more, front);
      } else {
        assert more == added + [last];
        NothingFresh(known + more, v);
      }
    }
  }

  /** The batch names the keys of the dropped rows first, and in their order, among its own new keys. */
  predicate BroughtBack(kept: seq<Row>, dropped: seq<Row>, v: seq<Row>) {
    Keys(dropped) <= FreshKeys(Keys(kept), v)
  }

  /** The rows that pruning drops stand at the end, and the batch brings them back. */
  predicate DropsOnlyWhatComesBack(rows: seq<Row>, later: Option<int>, v: seq<Row>) {
    var kept := Pruned(rows, later);
    kept <= rows && BroughtBack(kept, rows[|kept|..], v)
  }

  lemma KeptStandFirst(kept: seq<Row>, rows: seq<Row>, v: seq<Row>)
    requires OneRowPerKey(rows) && (forall row | row in kept :: row in rows) && |kept| <= |rows|
    requires Order(kept, v) == Order(rows, v)
    ensures kept <= rows
  {
    forall i | 0 <= i < |kept| ensures kept[i] == rows[i] {
      assert Order(kept, v)[i] == KeyOf(kept[i]) && Order(rows, v)[i] == KeyOf(rows[i]);
      assert kept[i] in rows;
    }
  }

  /** If the rows kept stand first, the keys are the same exactly when the batch brings the others back. */
  lemma SameKeysIfBroughtBack(kept: seq<Key>, dropped: seq<Key>, v: seq<Row>)
    ensures kept + FreshKeys(kept, v) == kept + dropped + FreshKeys(kept + dropped, v) <==>
      dropped <= FreshKeys(kept, v)
  {
    var again, added := FreshKeys(kept, v), FreshKeys(kept + dropped, v);
    Associates(kept, dropped, added);
    SameRest(kept, again, dropped + added);
    if dropped <= again {
      FreshAfter(kept, dropped, v);
    }
  }

  lemma SameRest(a: seq<Key>, b: seq<Key>, c: seq<Key>)
    ensures a + b == a + c <==> b == c
  {
    assert (a + b)[|a|..] == b && (a + c)[|a|..] == c;
  }

  lemma BroughtBackExactly(kept: seq<Row>, dropped: seq<Row>, v: seq<Row>, rows: seq<Row>)
    requires rows == kept + dropped
    ensures Order(kept, v) == Order(rows, v) <==> BroughtBack(kept, dropped, v)
  {
    assert Keys(rows) == Keys(kept) + Keys(dropped);
    SameKeysIfBroughtBack(Keys(kept), Keys(dropped), v);
  }

  lemma SameKeysExactly(kept: seq<Row>, rows: seq<Row>, v: seq<Row>)
    requires OneRowPerKey(rows) && (forall row | row in kept :: row in rows) && |kept| <= |rows|
    ensures Order(kept, v) == Order(rows, v) <==> kept <= rows && BroughtBack(kept, rows[|kept|..], v)
  {
    if Order(kept, v) == Order(rows, v) {
      KeptStandFirst(kept, rows, v);
    }
    if kept <= rows {
      BroughtBackExactly(kept, rows[|kept|..], v, rows);
    }
  }

  /** Two upserts are one upsert of both batches if and only if the second cutoff drops only rows that
      the second batch brings back in the same places. */
  lemma UpsertInBatches(existing: seq<Row>, cutoff: Option<int>, u: seq<Row>, later: Option<int>, v: seq<Row>)
    ensures Upserted(Upserted(existing, cutoff, u), later, v) == Upserted(existing, cutoff, u + v) <==>
      DropsOnlyWhatComesBack(Upserted(existing, cutoff, u), later, v)
  {
    var first := Upserted(existing, cutoff, u);
    MergedHasOneRowPerKey(Pruned(existing, cutoff), u);
    MergeInBatches(Pruned(existing, cutoff), u, v);
    PrunedRows(first, later);
    PrunedLength(first, later);
    SameRowsIfSameKeys(Pruned(first, later), first, v);
    SameKeysExactly(Pruned(first, later), first, v);
  }

  /** This is so when the second cutoff retains every row that the first upsert left. */
  lemma NothingDropped(rows: seq<Row>, later: Option<int>, v: seq<Row>)
    requires forall row | row in rows :: Retained(row, later)
    ensures DropsOnlyWhatComesBack(rows, later, v)
  {
    PrunedLength(rows, later);
    assert rows[|rows|..] == [];
  }

  // ---------------------------------------------------------------------------
  // What an upsert leaves, row by row
  // ---------------------------------------------------------------------------

  predicate LastWith(rows: seq<Row>, key: Key, i: nat) {
    i < |rows| && KeyOf(rows[i]) == key && forall j | i < j < |rows| :: KeyOf(rows[j]) != key
  }

  predicate FirstWith(rows: seq<Row>, key: Key, i: nat) {
    i < |rows| && KeyOf(rows[i]) == key && forall j | 0 <= j < i :: KeyOf(rows[j]) != key
  }

  /** `row` is the last of `rows` with its key. */
  ghost predicate IsLast(rows: seq<Row>, row: Row) {
    exists i: nat :: LastWith(rows, KeyOf(row), i) && rows[i] == row
  }

  /** `kept` are the rows at the places `at`: those of `rows` within the cutoff, in order. */
  predicate IsSelection(rows: seq<Row>, cutoff: Option<int>, kept: seq<Row>, at: seq<nat>) {
    && |at| == |kept|
    && (forall i | 0 <= i < |at| :: at[i] < |rows| && rows[at[i]] == kept[i])
    && (forall i, j | 0 <= i < j < |at| :: at[i] < at[j])
    && (forall k: nat | k < |rows| :: k in at <==> Retained(rows[k], cutoff))
  }

  /** Keys stand in the order in which `updates` first name them. */
  ghost predicate FirstSeenOrder(keys: seq<Key>, updates: seq<Row>) {
    forall i, j, a: nat, b: nat | 0 <= i < j < |keys| && FirstWith(updates, keys[i], a) && FirstWith(updates, keys[j], b) ::
      a < b
  }

  /** `after` has a place for each row kept, in their order, and then one for each key that only the
      chunks name, in first-seen order; each holds the last chunk of its key, or else the last row kept. */
  ghost predicate Leaves(kept: seq<Row>, chunks: seq<Row>, after: seq<Row>) {
    && |kept| <= |after|
    && (forall i | 0 <= i < |kept| :: KeyOf(after[i]) == KeyOf(kept[i]))
    && (forall i, j | |kept| <= j < |after| && 0 <= i < j :: KeyOf(after[i]) != KeyOf(after[j]))
    && (forall i | 0 <= i < |chunks| :: HasKey(after, KeyOf(chunks[i])))
    && FirstSeenOrder(Keys(after)[|kept|..], chunks)
    && (forall i | 0 <= i < |after| ::
          if HasKey(chunks, KeyOf(after[i])) then IsLast(chunks, after[i]) else IsLast(kept, after[i]))
  }

  /** What an upsert makes of the rows before it. */
  ghost predicate UpsertLeaves(before: seq<Row>, cutoff: Option<int>, chunks: seq<Row>, after: seq<Row>) {
    exists kept: seq<Row>, at: seq<nat> :: IsSelection(before, cutoff, kept, at) && Leaves(kept, chunks, after)
  }

  lemma {:induction false} PrunedIsSelection(rows: seq<Row>, cutoff: Option<int>) returns (at: seq<nat>)
    ensures IsSelection(rows, cutoff, Pruned(rows, cutoff), at)
  {
    if rows == [] {
      at := [];
    } else {
      var n := |rows| - 1;
      at := PrunedIsSelection(rows[..n], cutoff);
      SelectionNext(rows, cutoff, Pruned(rows[..n], cutoff), at);
      if Retained(rows[n], cutoff) {
        at := at + [n];
      }
    }
  }

  lemma SelectionNext(rows: seq<Row>, cutoff: Option<int>, kept: seq<Row>, at: seq<nat>)
    requires rows != [] && IsSelection(rows[..|rows| - 1], cutoff, kept, at)
    ensures var n := |rows| - 1;
      if Retained(rows[n], cutoff) then IsSelection(rows, cutoff, kept + [rows[n]], at + [n])
      else IsSelection(rows, cutoff, kept, at)
  {
    var n := |rows| - 1;
    assert forall i | 0 <= i < |at| :: at[i] < n;
    assert n !in at;
    assert forall k: nat | k < n :: rows[..n][k] == rows[k];
    assert forall k: nat :: k in at + [n] <==> k in at || k == n;
  }

  lemma {:induction false} LatestAt(rows: seq<Row>, key: Key) returns (i: nat)
    requires HasKey(rows, key)
    ensures LastWith(rows, key, i) && rows[i] == Latest(rows, key)
  {
    i := |rows| - 1;
    if KeyOf(rows[i]) != key {
      i := LatestAt(rows[..|rows| - 1], key);
    }
  }

  lemma LatestIsLast(rows: seq<Row>, row: Row)
    requires HasKey(rows, KeyOf(row)) && row == Latest(rows, KeyOf(row))
    ensures IsLast(rows, row)
  {
    var i := LatestAt(rows, KeyOf(row));
  }

  lemma {:induction false} FreshKeysAreFirstSeen(known: seq<Key>, updates: seq<Row>)
    ensures FirstSeenOrder(FreshKeys(known, updates), updates)
  {
    if updates != [] {
      FreshKeysAreFirstSeen(known, updates[..|updates| - 1]);
      FirstSeenNext(FreshKeys(known, updates[..|updates| - 1]), known, updates);
    }
  }

  lemma FirstSeenNext(added: seq<Key>, known: seq<Key>, updates: seq<Row>)
    requires updates != [] && added == FreshKeys(known, updates[..|updates| - 1])
    requires FirstSeenOrder(added, updates[..|updates| - 1])
    ensures FirstSeenOrder(FreshKeys(known, updates), updates)
  {
    var n := |updates| - 1;
    var front, keys := updates[..n], FreshKeys(known, updates);
    forall i, j, a: nat, b: nat |
      0 <= i < j < |keys| && FirstWith(updates, keys[i], a) && FirstWith(updates, keys[j], b)
      ensures a < b
    {
      SeenEarlier(added, front, updates, keys[i], a);
      if j < |added| {
        SeenEarlier(added, front, updates, keys[j], b);
        assert FirstWith(front, added[i], a) && FirstWith(front, added[j], b);
      } else if b < n {
        assert KeyOf(front[b]) == keys[j];
      }
    }
  }

  /** A key that the earlier updates named was first named there. */
  lemma SeenEarlier(added: seq<Key>, front: seq<Row>, updates: seq<Row>, key: Key, a: nat)
    requires updates != [] && front == updates[..|updates| - 1] && FirstWith(updates, key, a)
    requires forall k | k in added :: HasKey(front, k)
    ensures key in added ==> FirstWith(front, key, a)
  {
    if key in added {
      var i :| 0 <= i < |front| && KeyOf(front[i]) == key;
      assert KeyOf(updates[i]) == key;
    }
  }

  lemma MergedRowIsLast(kept: seq<Row>, chunks: seq<Row>, row: Row)
    requires HasKey(kept + chunks, KeyOf(row)) && row == Latest(kept + chunks, KeyOf(row))
    ensures if HasKey(chunks, KeyOf(row)) then IsLast(chunks, row) else IsLast(kept, row)
  {
    LatestAppend(kept, chunks, KeyOf(row));
    if HasKey(chunks, KeyOf(row)) {
      LatestIsLast(chunks, row);
    } else {
      LatestIsLast(kept, row);
    }
  }

  lemma MergedPlaces(kept: seq<Row>, chunks: seq<Row>, after: seq<Row>)
    requires after == Merged(kept, chunks)
    ensures |kept| <= |after| && (forall i | 0 <= i < |kept| :: KeyOf(after[i]) == KeyOf(kept[i]))
    ensures forall i, j | |kept| <= j < |after| && 0 <= i < j :: KeyOf(after[i]) != KeyOf(after[j])
    ensures FirstSeenOrder(Keys(after)[|kept|..], chunks)
  {
    var known := Keys(kept);
    var added := FreshKeys(known, chunks);
    MergedKeysAt(kept, chunks);
    MergeKeepsLatest(kept, chunks);
    FreshKeysAreFirstSeen(known, chunks);
    assert Keys(after)[|kept|..] == added;
    forall i, j | |kept| <= j < |after| && 0 <= i < j ensures KeyOf(after[i]) != KeyOf(after[j]) {
      assert KeyOf(after[j]) == added[j - |kept|] && added[j - |kept|] in added;
      if i < |kept| {
        assert KeyOf(after[i]) == known[i];
      }
    }
  }

  lemma MergeLeaves(kept: seq<Row>, chunks: seq<Row>, after: seq<Row>)
    requires after == Merged(kept, chunks)
    ensures Leaves(kept, chunks, after)
  {
    MergedPlaces(kept, chunks, after);
    MergeKeepsLatest(kept, chunks);
    forall i | 0 <= i < |chunks| ensures HasKey(after, KeyOf(chunks[i])) {
      assert (kept + chunks)[|kept| + i] == chunks[i];
    }
    forall i | 0 <= i < |after|
      ensures if HasKey(chunks, KeyOf(after[i])) then IsLast(chunks, after[i]) else IsLast(kept, after[i])
    {
      assert after[i] in after;
      MergedRowIsLast(kept, chunks, after[i]);
    }
  }

  /** Every key of the chunks then holds the last chunk given for it, the rows within the cutoff keep
      their places, and nothing else is there. */
  lemma UpsertLeavesLatest(before: seq<Row>, cutoff: Option<int>, chunks: seq<Row>)
    ensures UpsertLeaves(before, cutoff, chunks, Upserted(before, cutoff, chunks))
  {
    var at := PrunedIsSelection(before, cutoff);
    MergeLeaves(Pruned(before, cutoff), chunks, Upserted(before, cutoff, chunks));
  }

  /** Rows kept whose key no chunk names are all still there if and only if none of them has been
      superseded by a later one with its key, as a rebuild from repeated keys can leave them. */
  lemma UnnamedRowsStay(kept: seq<Row>, chunks: seq<Row>, after: seq<Row>)
    requires Leaves(kept, chunks, after)
    ensures (forall row | row in kept && !HasKey(chunks, KeyOf(row)) :: row in after) <==>
            (forall row | row in kept && !HasKey(chunks, KeyOf(row)) :: IsLast(kept, row))
  {
    forall row | row in kept && !HasKey(chunks, KeyOf(row)) ensures row in after <==> IsLast(kept, row) {
      var i :| 0 <= i < |kept| && kept[i] == row;
      assert KeyOf(after[i]) == KeyOf(row) && IsLast(kept, after[i]);
      if IsLast(kept, row) {
        OneLast(kept, row, after[i]);
      }
    }
  }

  lemma OneLast(rows: seq<Row>, a: Row, b: Row)
    requires IsLast(rows, a) && IsLast(rows, b) && KeyOf(a) == KeyOf(b)
    ensures a == b
  {
    var i: nat :| LastWith(rows, KeyOf(a), i) && rows[i] == a;
    var j: nat :| LastWith(rows, KeyOf(b), j) && rows[j] == b;
    assert i == j;
  }
}
