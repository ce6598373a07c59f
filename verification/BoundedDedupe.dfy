/** The bounded memories the host keeps of inbound messages: first-in first-out sets of keys and
    fingerprints, and the reply metadata filed under message keys. */
module BoundedDedupe {
  import opened Collections
  import opened Options
  import Text

  const MAX_OBSERVED: nat := 1024

  // ---------------------------------------------------------------------------
  // One set with its arrival queue
  // ---------------------------------------------------------------------------

  datatype Fifo = Fifo(members: set<string>, order: seq<string>)

  const NOTHING := Fifo({}, [])

  /** The set is exactly the queue, without repetition and within the limit. */
  ghost predicate Exact(f: Fifo) {
    && Distinct(f.order) && |f.order| <= MAX_OBSERVED
    && forall k :: k in f.members <==> k in f.order
  }

  /** What survives an empty key, which is shifted off the queue but never taken out of the set. */
  ghost predicate Almost(f: Fifo) {
    && Distinct(f.order) && |f.order| <= MAX_OBSERVED
    && forall k :: (k in f.order ==> k in f.members) && (k in f.members ==> k in f.order || k == "")
  }

  function Added(f: Fifo, key: string): Fifo {
    if key in f.members then f else Fifo(f.members + {key}, f.order + [key])
  }

  /** The oldest key leaves; `if (expired)` skips the deletion for the empty string. */
  function WithoutOldest(f: Fifo): Fifo
    requires f.order != []
  {
    Fifo(if f.order[0] == "" then f.members else f.members - {f.order[0]}, f.order[1..])
  }

  function Evicted(f: Fifo): Fifo
    decreases |f.order|
  {
    if |f.order| <= MAX_OBSERVED then f else Evicted(WithoutOldest(f))
  }

  function Remembered(f: Fifo, key: string): Fifo {
    Evicted(Added(f, key))
  }

  /** Content fingerprints are refused when missing or empty. */
  predicate Usable(fingerprint: Option<string>) {
    fingerprint.Some? && fingerprint.value != ""
  }

  function RememberedFingerprint(f: Fifo, fingerprint: Option<string>): Fifo {
    if Usable(fingerprint) then Remembered(f, fingerprint.value) else f
  }

  function IndexOf(s: seq<string>, key: string): (i: nat)
    ensures i <= |s| && key !in s[..i] && (i < |s| ==> s[i] == key)
  {
    if s == [] || s[0] == key then 0
    else
      var i := 1 + IndexOf(s[1..], key);
      assert s[..i] == [s[0]] + s[1..][..i - 1];
      i
  }

  function Spliced(s: seq<string>, key: string): seq<string> {
    var i := IndexOf(s, key);
    if i < |s| then s[..i] + s[i + 1..] else s
  }

  function Consumed(f: Fifo, fingerprint: Option<string>): Fifo {
    if Usable(fingerprint) && fingerprint.value in f.members
    then Fifo(f.members - {fingerprint.value}, Spliced(f.order, fingerprint.value))
    else f
  }

  /** One new key pushes out at most one old one. */
  lemma EvictsAtMostOne(f: Fifo, key: string)
    requires |f.order| <= MAX_OBSERVED
    ensures Remembered(f, key) ==
      if key !in f.members && |f.order| == MAX_OBSERVED then WithoutOldest(Added(f, key)) else Added(f, key)
  {
    if key !in f.members && |f.order| == MAX_OBSERVED {
      var g := WithoutOldest(Added(f, key));
      assert |g.order| == MAX_OBSERVED;
      assert Evicted(g) == g;
    }
  }

  /** The set stays its queue exactly when the key pushed out, if any, is not the empty string. */
  lemma RememberStaysExact(f: Fifo, key: string)
    requires Exact(f)
    ensures Exact(Remembered(f, key)) <==> !(key !in f.members && |f.order| == MAX_OBSERVED && f.order[0] == "")
    ensures Almost(Remembered(f, key))
    ensures key in Remembered(f, key).members
  {
    EvictsAtMostOne(f, key);
    if key !in f.members && |f.order| == MAX_OBSERVED {
      var g := Added(f, key);
      assert g.order[0] == f.order[0];
      assert forall k :: k in g.order[1..] <==> k in g.order && k != g.order[0];
      if f.order[0] == "" {
        assert "" in WithoutOldest(g).members && "" !in WithoutOldest(g).order;
      }
    }
  }

  /** Once the empty key has been pushed off the queue it is remembered for good. */
  lemma EmptyKeyIsStuck(f: Fifo, key: string)
    requires Almost(f) && "" in f.members && "" !in f.order
    ensures "" in Remembered(f, key).members && "" !in Remembered(f, key).order
    ensures Almost(Remembered(f, key)) && !Exact(Remembered(f, key))
  {
    AlmostStays(f, key);
    EvictsAtMostOne(f, key);
  }

  lemma AlmostStays(f: Fifo, key: string)
    requires Almost(f)
    ensures Almost(Remembered(f, key))
  {
    EvictsAtMostOne(f, key);
    var g := Added(f, key);
    if g.order != [] {
      assert forall k :: k in g.order[1..] ==> k in g.order;
      assert forall k :: k in g.order && k != g.order[0] ==> k in g.order[1..];
    }
  }

  lemma SplicedElements(s: seq<string>, key: string)
    requires Distinct(s)
    ensures Distinct(Spliced(s, key)) && |Spliced(s, key)| <= |s|
    ensures forall k :: k in Spliced(s, key) <==> k in s && k != key
  {
    var i := IndexOf(s, key);
    if i < |s| {
      assert s == s[..i] + [key] + s[i + 1..];
      assert forall j | i < j < |s| :: s[j] != key;
    } else {
      assert s[..i] == s;
    }
  }

  /** Consuming takes the fingerprint out of the set and out of the queue, and nothing else. */
  lemma ConsumeStaysExact(f: Fifo, fingerprint: Option<string>)
    requires Exact(f)
    ensures Exact(Consumed(f, fingerprint))
    ensures Consumed(f, fingerprint).members == f.members - (if Usable(fingerprint) then {fingerprint.value} else {})
  {
    if Usable(fingerprint) {
      SplicedElements(f.order, fingerprint.value);
    }
  }

  datatype FingerprintCall = Remember(fingerprint: Option<string>) | Consume(fingerprint: Option<string>)

  function AfterCalls(calls: seq<FingerprintCall>): Fifo {
    if calls == [] then NOTHING
    else
      var f := AfterCalls(calls[..|calls| - 1]);
      match calls[|calls| - 1]
      case Remember(fp) => RememberedFingerprint(f, fp)
      case Consume(fp) => Consumed(f, fp)
  }

  /** Fingerprint sets are their queues after any calls: the guard keeps the empty key out. */
  lemma {:induction false} FingerprintSetIsItsQueue(calls: seq<FingerprintCall>)
    ensures Exact(AfterCalls(calls)) && "" !in AfterCalls(calls).members
    ensures |AfterCalls(calls).members| <= MAX_OBSERVED
  {
    if calls != [] {
      var f, call := AfterCalls(calls[..|calls| - 1]), calls[|calls| - 1];
      FingerprintSetIsItsQueue(calls[..|calls| - 1]);
      match call {
        case Remember(fp) =>
          if Usable(fp) {
            assert f.order != [] ==> f.order[0] in f.order;
            RememberStaysExact(f, fp.value);
            EvictsAtMostOne(f, fp.value);
          }
        case Consume(fp) => ConsumeStaysExact(f, fp);
      }
    }
    Cardinality(AfterCalls(calls).members, AfterCalls(calls).order);
  }

  lemma {:induction false} Cardinality(s: set<string>, q: seq<string>)
    requires forall k | k in s :: k in q
    ensures |s| <= |q|
  {
    if q == [] {
      assert s == {};
    } else {
      var rest := s - {q[0]};
      forall k | k in rest ensures k in q[1..] {
        var i :| 0 <= i < |q| && q[i] == k;
        assert q[1..][i - 1] == k;
      }
      Cardinality(rest, q[1..]);
      assert |s| <= |rest| + 1 by { assert s <= rest + {q[0]}; SubsetSize(s, rest + {q[0]}); }
    }
  }

  /** First in, first out: the queue is always the end of the list of keys as they first arrived,
      and all of it until the limit is reached. */
  function Arrivals(keys: seq<string>): seq<string> {
    if keys == [] then []
    else
      var before, key := keys[..|keys| - 1], keys[|keys| - 1];
      if key in AfterKeys(before).members then Arrivals(before) else Arrivals(before) + [key]
  }

  function AfterKeys(keys: seq<string>): Fifo {
    if keys == [] then NOTHING else Remembered(AfterKeys(keys[..|keys| - 1]), keys[|keys| - 1])
  }

  function LastOf(s: seq<string>, n: nat): seq<string> {
    if |s| <= n then s else s[|s| - n..]
  }

  lemma {:induction false} QueueIsLatestArrivals(keys: seq<string>)
    ensures AfterKeys(keys).order == LastOf(Arrivals(keys), MAX_OBSERVED)
    ensures Almost(AfterKeys(keys))
  {
    if keys != [] {
      var before, key := keys[..|keys| - 1], keys[|keys| - 1];
      QueueIsLatestArrivals(before);
      AlmostStays(AfterKeys(before), key);
      EvictsAtMostOne(AfterKeys(before), key);
      if key !in AfterKeys(before).members {
      }
    }
  }

  /** Without empty keys the message set is exactly the latest arrivals. */
  lemma {:induction false} MessageSetIsItsQueue(keys: seq<string>)
    requires "" !in keys
    ensures Exact(AfterKeys(keys)) && "" !in AfterKeys(keys).order
  {
    if keys != [] {
      var before, key := keys[..|keys| - 1], keys[|keys| - 1];
      assert keys == before + [key];
      MessageSetIsItsQueue(before);
      var f := AfterKeys(before);
      assert f.order != [] ==> f.order[0] in f.order;
      RememberStaysExact(f, key);
      EvictsAtMostOne(f, key);
    }
  }

  // ---------------------------------------------------------------------------
  // Reply metadata
  // ---------------------------------------------------------------------------

  datatype Metadata = Metadata(replyToBody: Option<string>)

  /** Metadata without a reply body, or with a blank one, is neither stored nor returned. */
  predicate HasReply(metadata: Option<Metadata>) {
    metadata.Some? && metadata.value.replyToBody.Some? && !Text.Blank(metadata.value.replyToBody.value)
  }

  datatype Memory = Memory(seen: Fifo, replies: map<string, Metadata>, replyOrder: seq<string>)

  const BLANK := Memory(NOTHING, map[], [])

  function SeenEvicted(m: Memory): Memory
    decreases |m.seen.order|
  {
    if |m.seen.order| <= MAX_OBSERVED then m
    else
      var expired := m.seen.order[0];
      SeenEvicted(m.(seen := WithoutOldest(m.seen), replies := if expired == "" then m.replies
          else m.replies - {expired}))
  }

  function Seen(m: Memory, key: string): Memory {
    SeenEvicted(m.(seen := Added(m.seen, key)))
  }

  function AllSeen(m: Memory, keys: seq<string>): Memory {
    if keys == [] then m else Seen(AllSeen(m, keys[..|keys| - 1]), keys[|keys| - 1])
  }

  function Filed(m: Memory, key: string, metadata: Metadata): Memory {
    m.(replyOrder := if key in m.replies then m.replyOrder else m.replyOrder + [key],
       replies := m.replies[key := metadata])
  }

  function AllFiled(m: Memory, keys: seq<string>, metadata: Metadata): Memory {
    if keys == [] then m else Filed(AllFiled(m, keys[..|keys| - 1], metadata), keys[|keys| - 1], metadata)
  }

  function RepliesEvicted(m: Memory): Memory
    decreases |m.replyOrder|
  {
    if |m.replyOrder| <= MAX_OBSERVED then m
    else
      var expired := m.replyOrder[0];
      RepliesEvicted(m.(replyOrder := m.replyOrder[1..],
                        replies := if expired != "" && expired !in m.seen.members then m.replies - {expired}
                            else m.replies))
  }

  function Replied(m: Memory, keys: seq<string>, metadata: Option<Metadata>): Memory {
    if !HasReply(metadata) then m else RepliesEvicted(AllFiled(m, keys, metadata.value))
  }

  /** A filed reply is queued, or its message is remembered, or its key is empty. */
  predicate Accounted(m: Memory) {
    forall k | k in m.replies :: k in m.replyOrder || k in m.seen.members || k == ""
  }

  ghost predicate Kept(m: Memory) {
    Almost(m.seen) && |m.replyOrder| <= MAX_OBSERVED && Accounted(m)
  }

  lemma {:induction false} SeenEvictedKeeps(m: Memory)
    requires Accounted(m)
    ensures var e := SeenEvicted(m); Accounted(e) && e.seen == Evicted(m.seen) && e.replyOrder == m.replyOrder
    decreases |m.seen.order|
  {
    if |m.seen.order| > MAX_OBSERVED {
      var expired := m.seen.order[0];
      var next := m.(seen := WithoutOldest(m.seen), replies := if expired == "" then m.replies
          else m.replies - {expired});
      SeenEvictedKeeps(next);
    }
  }

  lemma SeenKeeps(m: Memory, key: string)
    requires Kept(m)
    ensures Kept(Seen(m, key)) && Seen(m, key).seen == Remembered(m.seen, key)
  {
    AlmostStays(m.seen, key);
    SeenEvictedKeeps(m.(seen := Added(m.seen, key)));
  }

  lemma {:induction false} AllSeenKeeps(m: Memory, keys: seq<string>)
    requires Kept(m)
    ensures Kept(AllSeen(m, keys))
  {
    if keys != [] {
      AllSeenKeeps(m, keys[..|keys| - 1]);
      SeenKeeps(AllSeen(m, keys[..|keys| - 1]), keys[|keys| - 1]);
    }
  }

  /** Without empty keys the message set is exactly its queue and no reply is filed under one. */
  ghost predicate Clean(m: Memory) {
    Kept(m) && Exact(m.seen) && "" !in m.seen.members && "" !in m.replies
  }

  lemma {:induction false} SeenEvictedForgets(m: Memory)
    ensures SeenEvicted(m).replies.Keys <= m.replies.Keys
    decreases |m.seen.order|
  {
    if |m.seen.order| > MAX_OBSERVED {
      var expired := m.seen.order[0];
      SeenEvictedForgets(m.(seen := WithoutOldest(m.seen), replies := if expired == "" then m.replies
          else m.replies - {expired}));
    }
  }

  lemma {:induction false} AllSeenStaysClean(m: Memory, keys: seq<string>)
    requires Clean(m) && "" !in keys
    ensures Clean(AllSeen(m, keys))
  {
    if keys != [] {
      var before, key := keys[..|keys| - 1], keys[|keys| - 1];
      assert keys == before + [key];
      AllSeenStaysClean(m, before);
      var s := AllSeen(m, before);
      SeenKeeps(s, key);
      SeenEvictedForgets(s.(seen := Added(s.seen, key)));
      assert s.seen.order != [] ==> s.seen.order[0] in s.seen.order;
      RememberStaysExact(s.seen, key);
      EvictsAtMostOne(s.seen, key);
    }
  }

  lemma {:induction false} AllFiledKeeps(m: Memory, keys: seq<string>, metadata: Metadata)
    requires Accounted(m)
    ensures var f := AllFiled(m, keys, metadata); Accounted(f) && f.seen == m.seen
  {
    if keys != [] {
      AllFiledKeeps(m, keys[..|keys| - 1], metadata);
    }
  }

  lemma {:induction false} RepliesEvictedKeeps(m: Memory)
    requires Accounted(m)
    ensures var e := RepliesEvicted(m); Accounted(e) && e.seen == m.seen && |e.replyOrder| <= MAX_OBSERVED
    ensures forall k | k in m.replies && k in m.seen.members ::
      k in RepliesEvicted(m).replies && RepliesEvicted(m).replies[k] == m.replies[k]
    decreases |m.replyOrder|
  {
    if |m.replyOrder| > MAX_OBSERVED {
      var expired := m.replyOrder[0];
      var next := m.(replyOrder := m.replyOrder[1..],
                     replies := if expired != "" && expired !in m.seen.members then m.replies - {expired}
                         else m.replies);
      assert m.replyOrder == [expired] + m.replyOrder[1..];
      RepliesEvictedKeeps(next);
    }
  }

  lemma {:induction false} RepliesEvictedForgets(m: Memory)
    ensures RepliesEvicted(m).replies.Keys <= m.replies.Keys
    decreases |m.replyOrder|
  {
    if |m.replyOrder| > MAX_OBSERVED {
      var expired := m.replyOrder[0];
      RepliesEvictedForgets(
        m.(replyOrder := m.replyOrder[1..],
           replies := if expired != "" && expired !in m.seen.members then m.replies - {expired} else m.replies));
    }
  }

  lemma RepliedKeeps(m: Memory, keys: seq<string>, metadata: Option<Metadata>)
    requires Kept(m)
    ensures Kept(Replied(m, keys, metadata))
  {
    if HasReply(metadata) {
      AllFiledKeeps(m, keys, metadata.value);
      RepliesEvictedKeeps(AllFiled(m, keys, metadata.value));
    }
  }

  lemma {:induction false} AllFiledStores(m: Memory, keys: seq<string>, metadata: Metadata, k: string)
    ensures var f := AllFiled(m, keys, metadata);
      && (k in f.replies <==> k in m.replies || k in keys)
      && (k in f.replies ==> f.replies[k] == if k in keys then metadata else m.replies[k])
  {
    if keys != [] {
      AllFiledStores(m, keys[..|keys| - 1], metadata, k);
      assert keys == keys[..|keys| - 1] + [keys[|keys| - 1]];
    }
  }

  /** While a message is remembered its reply stays: filing any other replies never drops it. */
  lemma ObservedReplySurvives(m: Memory, keys: seq<string>, metadata: Option<Metadata>, k: string)
    requires Kept(m) && k in m.seen.members && (k in m.replies || (k in keys && HasReply(metadata)))
    ensures var r := Replied(m, keys, metadata);
      k in r.replies && r.replies[k] == if k in keys && HasReply(metadata) then metadata.value else m.replies[k]
  {
    if HasReply(metadata) {
      AllFiledKeeps(m, keys, metadata.value);
      AllFiledStores(m, keys, metadata.value, k);
      RepliesEvictedKeeps(AllFiled(m, keys, metadata.value));
    }
  }

  datatype Call = See(keys: seq<string>) | Reply(keys: seq<string>, metadata: Option<Metadata>)

  function After(calls: seq<Call>): Memory {
    if calls == [] then BLANK
    else
      var m := After(calls[..|calls| - 1]);
      match calls[|calls| - 1]
      case See(keys) => AllSeen(m, keys)
      case Reply(keys, metadata) => Replied(m, keys, metadata)
  }

  lemma {:induction false} MemoryIsKept(calls: seq<Call>)
    ensures Kept(After(calls))
  {
    if calls != [] {
      MemoryIsKept(calls[..|calls| - 1]);
      var m := After(calls[..|calls| - 1]);
      match calls[|calls| - 1]
      case See(keys) => AllSeenKeeps(m, keys);
      case Reply(keys, metadata) => RepliedKeeps(m, keys, metadata);
    }
  }

  /** When no call names an empty key, the message set is its queue after any calls. */
  lemma {:induction false} MemoryIsClean(calls: seq<Call>)
    requires forall call | call in calls :: "" !in call.keys
    ensures Clean(After(calls))
  {
    if calls != [] {
      var before := calls[..|calls| - 1];
      assert calls == before + [calls[|calls| - 1]];
      MemoryIsClean(before);
      var m := After(before);
      match calls[|calls| - 1]
      case See(keys) => AllSeenStaysClean(m, keys);
      case Reply(keys, metadata) =>
        RepliedKeeps(m, keys, metadata);
        if HasReply(metadata) {
          AllFiledKeeps(m, keys, metadata.value);
          AllFiledStores(m, keys, metadata.value, "");
          RepliesEvictedForgets(AllFiled(m, keys, metadata.value));
          RepliesEvictedKeeps(AllFiled(m, keys, metadata.value));
        }
    }
  }

  /** After any calls the reply map holds at most two queues' worth of keys, plus the empty key if
      some call named it. */
  lemma ReplyMapIsBounded(calls: seq<Call>)
    ensures |After(calls).replies| <= 2 * MAX_OBSERVED + 1
    ensures (forall call | call in calls :: "" !in call.keys) ==> |After(calls).replies| <= 2 * MAX_OBSERVED
  {
    MemoryIsKept(calls);
    if forall call | call in calls :: "" !in call.keys {
      MemoryIsClean(calls);
    }
    var m := After(calls);
    var keys := m.replies.Keys;
    var queue := m.replyOrder + m.seen.order;
    forall k | k in keys - {""} ensures k in queue {
      assert k in m.replyOrder || k in m.seen.order;
    }
    Cardinality(keys - {""}, queue);
    if "" !in keys {
      assert keys - {""} == keys;
    }
  }

  // ---------------------------------------------------------------------------
  // What one call changes
  // ---------------------------------------------------------------------------

  /** The key that a new one pushes out of a full queue; the empty one is not taken out. */
  predicate PushedOut(f: Fifo, key: string, k: string) {
    key !in f.members && |f.order| == MAX_OBSERVED && k == f.order[0] && k != ""
  }

  lemma {:induction false} SeenEvictsAtMostOne(m: Memory, key: string)
    requires Almost(m.seen)
    ensures var r := Seen(m, key);
      && r.seen == Remembered(m.seen, key) && r.replyOrder == m.replyOrder
      && forall k :: (k in r.replies <==> k in m.replies && !PushedOut(m.seen, key, k))
                     && (k in r.replies ==> r.replies[k] == m.replies[k])
  {
    EvictsAtMostOne(m.seen, key);
    var full := m.(seen := Added(m.seen, key));
    if key !in m.seen.members && |m.seen.order| == MAX_OBSERVED {
      var first := full.seen.order[0];
      assert first == m.seen.order[0];
      var one := full.(seen := WithoutOldest(full.seen),
                       replies := if first == "" then full.replies else full.replies - {first});
      assert |one.seen.order| == MAX_OBSERVED;
      assert SeenEvicted(one) == one && SeenEvicted(full) == one;
    } else {
      assert SeenEvicted(full) == full;
    }
  }

  /** Remembering a key adds that key and takes out at most one, the oldest of a full queue; every
      other key stays remembered, and exactly its replies stay as they were. */
  lemma RememberingKeepsTheOthers(m: Memory, key: string, k: string)
    requires Kept(m)
    ensures var r := Seen(m, key);
      && (k in r.seen.members <==> k == key || (k in m.seen.members && !PushedOut(m.seen, key, k)))
      && (k in r.replies <==> k in m.replies && !PushedOut(m.seen, key, k))
      && (k in r.replies ==> r.replies[k] == m.replies[k])
      && r.replyOrder == m.replyOrder
  {
    SeenEvictsAtMostOne(m, key);
    EvictsAtMostOne(m.seen, key);
    if key !in m.seen.members && |m.seen.order| == MAX_OBSERVED {
      assert Added(m.seen, key).order[0] == m.seen.order[0];
      assert m.seen.order[0] in m.seen.order;
    }
  }

  lemma {:induction false} SplicedKeepsOrder(s: seq<string>, key: string)
    ensures InOrder(s, Spliced(s, key)) && |Spliced(s, key)| == |s| - if key in s then 1 else 0
  {
    var i := IndexOf(s, key);
    if i < |s| {
      var at := seq(|s| - 1, j requires 0 <= j < |s| - 1 => if j < i then j else j + 1);
      assert PickedAt(s, at, Spliced(s, key));
    } else {
      assert s[..i] == s;
      assert PickedAt(s, seq(|s|, j requires 0 <= j < |s| => j), s);
    }
  }

  /** Consuming a fingerprint takes out that one and leaves the order of the others. */
  lemma ConsumeKeepsOrder(f: Fifo, fingerprint: string)
    requires Exact(f) && fingerprint in f.members && fingerprint != ""
    ensures var r := Consumed(f, Some(fingerprint));
      && InOrder(f.order, r.order) && |r.order| == |f.order| - 1
      && forall k :: k in r.order <==> k in f.order && k != fingerprint
  {
    SplicedKeepsOrder(f.order, fingerprint);
    SplicedElements(f.order, fingerprint);
  }

  /** The reply queue goes on with the keys that had no reply, each once. */
  ghost predicate QueueGrows(m: Memory, keys: seq<string>, queue: seq<string>) {
    && m.replyOrder <= queue && Distinct(queue[|m.replyOrder|..])
    && (forall k :: k in queue[|m.replyOrder|..] <==> k in keys && k !in m.replies)
    && InOrder(keys, queue[|m.replyOrder|..])
  }

  lemma {:induction false} AllFiledGrows(m: Memory, keys: seq<string>, metadata: Metadata)
    ensures QueueGrows(m, keys, AllFiled(m, keys, metadata).replyOrder)
  {
    var n := |m.replyOrder|;
    var queue := AllFiled(m, keys, metadata).replyOrder;
    if keys == [] {
      assert queue[n..] == [];
      NothingInOrder(keys);
    } else {
      var front, last := keys[..|keys| - 1], keys[|keys| - 1];
      AllFiledGrows(m, front, metadata);
      AllFiledStores(m, front, metadata, last);
      var before := AllFiled(m, front, metadata).replyOrder;
      InOrderOfFront(keys, before[n..]);
      assert queue[n..] == if queue == before then before[n..] else before[n..] + [last];
    }
  }

  /** The keys that an overfull reply queue gives up, oldest first. */
  function Surplus(queue: seq<string>): seq<string> {
    queue[..if |queue| <= MAX_OBSERVED then 0 else |queue| - MAX_OBSERVED]
  }

  /** A reply is given up when its key leaves the reply queue, unless its message is remembered or its
      key is empty. */
  predicate GivenUp(m: Memory, k: string) {
    k in Surplus(m.replyOrder) && k !in m.seen.members && k != ""
  }

  lemma SurplusNext(queue: seq<string>, k: string)
    requires |queue| > MAX_OBSERVED
    ensures k in Surplus(queue) <==> k == queue[0] || k in Surplus(queue[1..])
    ensures LastOf(queue[1..], MAX_OBSERVED) == LastOf(queue, MAX_OBSERVED)
  {
    assert Surplus(queue) == [queue[0]] + Surplus(queue[1..]);
  }

  lemma {:induction false} RepliesEvictedExactly(m: Memory, k: string)
    ensures var e := RepliesEvicted(m);
      && e.seen == m.seen && e.replyOrder == LastOf(m.replyOrder, MAX_OBSERVED)
      && (k in e.replies <==> k in m.replies && !GivenUp(m, k))
      && (k in e.replies ==> e.replies[k] == m.replies[k])
    decreases |m.replyOrder|
  {
    if |m.replyOrder| > MAX_OBSERVED {
      var expired := m.replyOrder[0];
      SurplusNext(m.replyOrder, k);
      RepliesEvictedExactly(
        m.(replyOrder := m.replyOrder[1..],
           replies := if expired != "" && expired !in m.seen.members then m.replies - {expired} else m.replies), k);
    }
  }

  /** Filing a reply under keys: each has it, the queue keeps its latest 1024, and exactly the replies
      that the queue gives up are dropped; every other reply stays as it was. */
  lemma FilingKeepsTheOthers(m: Memory, keys: seq<string>, metadata: Metadata, k: string)
    returns (queue: seq<string>)
    requires HasReply(Some(metadata))
    ensures QueueGrows(m, keys, queue)
    ensures var r := Replied(m, keys, Some(metadata));
      && r.seen == m.seen && r.replyOrder == LastOf(queue, MAX_OBSERVED)
      && (k in r.replies <==> (k in m.replies || k in keys) && !GivenUp(m.(replyOrder := queue), k))
      && (k in r.replies ==> r.replies[k] == if k in keys then metadata else m.replies[k])
  {
    var f := AllFiled(m, keys, metadata);
    queue := f.replyOrder;
    AllFiledGrows(m, keys, metadata);
    AllFiledStores(m, keys, metadata, k);
    AllFiledSeen(m, keys, metadata);
    RepliesEvictedExactly(f, k);
  }

  lemma {:induction false} AllFiledSeen(m: Memory, keys: seq<string>, metadata: Metadata)
    ensures AllFiled(m, keys, metadata).seen == m.seen
  {
    if keys != [] {
      AllFiledSeen(m, keys[..|keys| - 1], metadata);
    }
  }

  // ---------------------------------------------------------------------------
  // The closures
  // ---------------------------------------------------------------------------

  /** One fingerprint set as the host keeps it. */
  class FingerprintSet {
    var members: set<string>
    var order: seq<string>

    function State(): Fifo
      reads this
    {
      Fifo(members, order)
    }

    constructor ()
      ensures State() == NOTHING && Exact(State())
    {
      members, order := {}, [];
    }

    method Remember(fingerprint: Option<string>)
      requires Exact(State()) && "" !in members
      modifies this
      ensures State() == RememberedFingerprint(old(State()), fingerprint)
      ensures Exact(State()) && "" !in members
      ensures Usable(fingerprint) ==> fingerprint.value in members
    {
      if !Usable(fingerprint) {
        return;
      }
      assert order != [] ==> order[0] in order;
      RememberStaysExact(State(), fingerprint.value);
      EvictsAtMostOne(State(), fingerprint.value);
      if fingerprint.value !in members {
        members := members + {fingerprint.value};
        order := order + [fingerprint.value];
      }
      while |order| > MAX_OBSERVED
        invariant Evicted(State()) == old(RememberedFingerprint(State(), fingerprint))
        decreases |order|
      {
        var expired := order[0];
        order := order[1..];
        if expired != "" {
          members := members - {expired};
        }
      }
    }

    method Consume(fingerprint: Option<string>) returns (consumed: bool)
      requires Exact(State())
      modifies this
      ensures consumed == (Usable(fingerprint) && fingerprint.value in old(members))
      ensures State() == Consumed(old(State()), fingerprint)
      ensures Exact(State()) && (consumed ==> fingerprint.value !in members)
    {
      ConsumeStaysExact(State(), fingerprint);
      if !Usable(fingerprint) || fingerprint.value !in members {
        return false;
      }
      members := members - {fingerprint.value};
      var index := IndexOf(order, fingerprint.value);
      if index < |order| {
        order := order[..index] + order[index + 1..];
      }
      return true;
    }
  }

  /** The message keys seen and the replies filed under them. */
  class InboundMemory {
    var members: set<string>
    var order: seq<string>
    var replies: map<string, Metadata>
    var replyOrder: seq<string>

    function State(): Memory
      reads this
    {
      Memory(Fifo(members, order), replies, replyOrder)
    }

    constructor ()
      ensures State() == BLANK && Kept(State())
    {
      members, order, replies, replyOrder := {}, [], map[], [];
    }

    method RememberId(key: string)
      requires Kept(State())
      modifies this
      ensures State() == Seen(old(State()), key) && Kept(State())
    {
      SeenKeeps(State(), key);
      if key !in members {
        members := members + {key};
        order := order + [key];
      }
      while |order| > MAX_OBSERVED
        invariant SeenEvicted(State()) == old(Seen(State(), key))
        decreases |order|
      {
        var expired := order[0];
        order := order[1..];
        if expired != "" {
          members := members - {expired};
          replies := replies - {expired};
        }
      }
    }

    method RememberKeys(keys: seq<string>)
      requires Kept(State())
      modifies this
      ensures State() == AllSeen(old(State()), keys) && Kept(State())
    {
      for i := 0 to |keys|
        invariant Kept(State()) && State() == AllSeen(old(State()), keys[..i])
      {
        assert keys[..i + 1][..i] == keys[..i];
        RememberId(keys[i]);
      }
      assert keys[..|keys|] == keys;
    }

    method FileReplies(keys: seq<string>, metadata: Metadata)
      modifies this
      ensures State() == AllFiled(old(State()), keys, metadata)
    {
      for i := 0 to |keys|
        invariant State() == AllFiled(old(State()), keys[..i], metadata)
      {
        assert keys[..i + 1][..i] == keys[..i];
        if keys[i] !in replies {
          replyOrder := replyOrder + [keys[i]];
        }
        replies := replies[keys[i] := metadata];
      }
      assert keys[..|keys|] == keys;
    }

    method RememberReplies(keys: seq<string>, metadata: Option<Metadata>)
      requires Kept(State())
      modifies this
      ensures State() == Replied(old(State()), keys, metadata) && Kept(State())
    {
      RepliedKeeps(State(), keys, metadata);
      if !HasReply(metadata) {
        return;
      }
      FileReplies(keys, metadata.value);
      while |replyOrder| > MAX_OBSERVED
        invariant RepliesEvicted(State()) == old(Replied(State(), keys, metadata))
        decreases |replyOrder|
      {
        var expired := replyOrder[0];
        replyOrder := replyOrder[1..];
        if expired != "" && expired !in members {
          replies := replies - {expired};
        }
      }
    }
  }
}
