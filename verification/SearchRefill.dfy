/** The candidate refill loop of the memory search tool against "filter, then take".

    The backend answers every search with the first candidates of one fixed ranking, and whether a
    candidate is visible does not change while the tool runs. */
module SearchRefill {
  const CANDIDATE_CAP: nat := 25_000

  /** What the caller may pass as `maxResults`. */
  datatype Requested = Missing | NotAnInteger | Whole(n: int)

  function ResultLimit(requested: Requested): (limit: nat)
    ensures 1 <= limit <= 50
    ensures requested.Whole? ==> forall other | 1 <= other <= 50 :: Gap(limit, requested.n) <= Gap(other, requested.n)
  {
    match requested
    case Whole(n) => if n < 1 then 1 else if n > 50 then 50 else n
    case _ => 8
  }

  function Gap(a: int, b: int): nat {
    if a < b then b - a else a - b
  }

  function Take<T>(s: seq<T>, n: nat): seq<T> {
    if |s| <= n then s else s[..n]
  }

  function Visible<T(==)>(s: seq<T>, hidden: set<T>): (v: seq<T>)
    ensures |v| <= |s|
  {
    if s == [] then []
    else
      var rest := Visible(s[..|s| - 1], hidden);
      if s[|s| - 1] in hidden then rest else rest + [s[|s| - 1]]
  }

  /** The simple form: the first visible candidates among the first 25,000. */
  function FilterThenTake<T(==)>(ranking: seq<T>, hidden: set<T>, limit: nat): seq<T> {
    Take(Visible(Take(ranking, CANDIDATE_CAP), hidden), limit)
  }

  lemma {:induction false} VisibleAppend<T>(a: seq<T>, b: seq<T>, hidden: set<T>)
    ensures Visible(a + b, hidden) == Visible(a, hidden) + Visible(b, hidden)
  {
    if b == [] {
      assert a + b == a;
    } else {
      var front := b[..|b| - 1];
      VisibleAppend(a, front, hidden);
      assert (a + b)[..|a + b| - 1] == a + front;
      assert (a + b)[|a + b| - 1] == b[|b| - 1];
    }
  }

  /** Enough visible candidates in a prefix decide the answer. */
  lemma PrefixDecides<T>(ranking: seq<T>, hidden: set<T>, limit: nat, n: nat)
    requires n <= CANDIDATE_CAP
    requires |Visible(Take(ranking, n), hidden)| >= limit || n == CANDIDATE_CAP || |ranking| <= n
    ensures Take(Visible(Take(ranking, n), hidden), limit) == FilterThenTake(ranking, hidden, limit)
  {
    var seen, all := Take(ranking, n), Take(ranking, CANDIDATE_CAP);
    assert all == seen + all[|seen|..];
    VisibleAppend(seen, all[|seen|..], hidden);
  }

  function Pow2(n: nat): nat {
    if n == 0 then 1 else 2 * Pow2(n - 1)
  }

  lemma ElevenDoublings(n: nat)
    requires 17 * Pow2(n) < CANDIDATE_CAP
    ensures n <= 10
  {
    if n >= 11 {
      Pow2Grows(11, n);
    }
  }

  lemma {:induction false} Pow2Grows(a: nat, b: nat)
    requires a <= b
    ensures Pow2(a) <= Pow2(b)
  {
    if a < b {
      Pow2Grows(a, b - 1);
    }
  }

  /** The tool's loop returns what the simple form returns, with at most thirteen backend searches. */
  method Search<T(==)>(ranking: seq<T>, hidden: set<T>, requested: Requested) returns (result: seq<T>, searches: nat)
    ensures result == FilterThenTake(ranking, hidden, ResultLimit(requested))
    ensures searches <= 13
  {
    var resultLimit := ResultLimit(requested);
    var candidateLimit := resultLimit;
    var candidates := Take(ranking, candidateLimit);
    var filtered := Visible(candidates, hidden);
    searches := 1;
    while |filtered| < resultLimit && |candidates| >= candidateLimit && candidateLimit < CANDIDATE_CAP
      invariant resultLimit <= candidateLimit <= CANDIDATE_CAP
      invariant candidates == Take(ranking, candidateLimit) && filtered == Visible(candidates, hidden)
      invariant 1 <= searches <= 13
      invariant searches > 1 && candidateLimit < CANDIDATE_CAP ==> 17 * Pow2(searches - 2) <= candidateLimit
      decreases CANDIDATE_CAP - candidateLimit
    {
      var nextLimit := Larger(candidateLimit + 16, 2 * candidateLimit);
      nextLimit := if nextLimit < CANDIDATE_CAP then nextLimit else CANDIDATE_CAP;
      if nextLimit == candidateLimit {
        break;
      }
      if searches > 1 {
        ElevenDoublings(searches - 2);
      }
      var nextCandidates := Take(ranking, nextLimit);
      searches := searches + 1;
      if |nextCandidates| <= |candidates| {
        break;
      }
      candidateLimit, candidates := nextLimit, nextCandidates;
      filtered := Visible(candidates, hidden);
    }
    PrefixDecides(ranking, hidden, resultLimit, candidateLimit);
    result := Take(filtered, resultLimit);
  }

  function Larger(a: nat, b: nat): nat {
    if a < b then b else a
  }

  /** The cap changes the answer only when visible candidates lie beyond it and too few before it. */
  lemma CapIsHarmless<T>(ranking: seq<T>, hidden: set<T>, limit: nat)
    ensures FilterThenTake(ranking, hidden, limit) == Take(Visible(ranking, hidden), limit)
      <==> (|Visible(Take(ranking, CANDIDATE_CAP), hidden)| >= limit
            || (forall i | CANDIDATE_CAP <= i < |ranking| :: ranking[i] in hidden))
  {
    var near := Take(ranking, CANDIDATE_CAP);
    var far := ranking[|near|..];
    assert ranking == near + far;
    VisibleAppend(near, far, hidden);
    NothingVisible(far, hidden);
    if |Visible(near, hidden)| < limit {
      assert FilterThenTake(ranking, hidden, limit) == Visible(near, hidden);
      if Visible(far, hidden) == [] {
        forall i | CANDIDATE_CAP <= i < |ranking| ensures ranking[i] in hidden {
          assert ranking[i] == far[i - |near|];
        }
      } else {
        assert |Take(Visible(ranking, hidden), limit)| > |Visible(near, hidden)|;
        var j :| 0 <= j < |far| && far[j] !in hidden;
        assert ranking[|near| + j] !in hidden;
      }
    }
  }

  lemma {:induction false} NothingVisible<T>(s: seq<T>, hidden: set<T>)
    ensures Visible(s, hidden) == [] <==> forall i | 0 <= i < |s| :: s[i] in hidden
  {
    if s != [] {
      NothingVisible(s[..|s| - 1], hidden);
    }
  }
}
