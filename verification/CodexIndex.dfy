/** Which Codex thread and which extraction buffer a session is bound to, and the reverse index. */
module CodexIndex {
  import opened Options

  const CODEX_THREAD_KEY_PREFIX := "codex-thread:"

  /** The settings a plugin instance runs with; `principals` resolves sessions that are listed. */
  datatype Config = Config(namespacesEnabled: bool, threadIdBufferKeying: bool, principals: map<string, string>)
  {
    function Principal(session: string): string {
      if session in principals then principals[session] else "default"
    }
  }

  datatype Bindings = Bindings(
    threadBySession: map<string, string>,
    bufferKeyBySession: map<string, string>,
    sessionsByBufferKey: map<string, set<string>>,
    messageCountByBufferKey: map<string, int>)

  const EMPTY := Bindings(map[], map[], map[], map[])

  /** A stored string counts only if it is not empty. */
  function Stored(m: map<string, string>, key: string): Option<string> {
    if key in m && m[key] != "" then Some(m[key]) else None
  }

  function NonEmpty(s: Option<string>): Option<string> {
    if s.Some? && s.value == "" then None else s
  }

  function ExtractionBufferKey(cfg: Config, session: string, logicalSession: string): string {
    if !cfg.namespacesEnabled || !(CODEX_THREAD_KEY_PREFIX <= logicalSession) then logicalSession
    else logicalSession + "::principal:" + cfg.Principal(session)
  }

  function ThreadBufferKey(cfg: Config, session: string, thread: string): string {
    ExtractionBufferKey(cfg, session, if cfg.threadIdBufferKeying then CODEX_THREAD_KEY_PREFIX + thread else session)
  }

  /** The thread a call is about: the one it names, else the stored one. */
  function ResolveThread(b: Bindings, session: string, thread: Option<string>): Option<string> {
    if thread.Some? then thread else Stored(b.threadBySession, session)
  }

  function BaselineKey(b: Bindings, cfg: Config, session: string, thread: Option<string>): Option<string> {
    match NonEmpty(ResolveThread(b, session, thread))
    case None => None
    case Some(t) => NonEmpty(Some(ThreadBufferKey(cfg, session, t)))
  }

  // ---------------------------------------------------------------------------
  // The reverse index
  // ---------------------------------------------------------------------------

  function SessionsOf(index: map<string, set<string>>, key: string): set<string> {
    if key in index then index[key] else {}
  }

  function AddSession(index: map<string, set<string>>, key: string, session: string): map<string, set<string>> {
    index[key := SessionsOf(index, key) + {session}]
  }

  function RemoveSession(index: map<string, set<string>>, key: string, session: string): map<string, set<string>> {
    var rest := SessionsOf(index, key) - {session};
    if rest == {} then index - {key} else index[key := rest]
  }

  /** Removing the session leaves nobody under the key. */
  predicate Empties(index: map<string, set<string>>, key: string, session: string) {
    SessionsOf(index, key) - {session} == {}
  }

  /** Take a session off a key; the key's message count goes with its last session. */
  function Unbind(b: Bindings, key: Option<string>, session: string): Bindings {
    match key
    case None => b
    case Some(k) =>
      b.(sessionsByBufferKey := RemoveSession(b.sessionsByBufferKey, k, session),
         messageCountByBufferKey :=
           if Empties(b.sessionsByBufferKey, k, session) then b.messageCountByBufferKey - {k}
               else b.messageCountByBufferKey)
  }

  // ---------------------------------------------------------------------------
  // Operations
  // ---------------------------------------------------------------------------

  function Remembered(b: Bindings, cfg: Config, session: string, thread: Option<string>): Bindings {
    if NonEmpty(thread).None? then b
    else
      var previousKey := Stored(b.bufferKeyBySession, session);
      var nextKey := BaselineKey(b, cfg, session, thread);
      if Stored(b.threadBySession, session) == thread && previousKey == nextKey then b
      else
        var u := Unbind(b, previousKey, session);
        var bound := u.(threadBySession := u.threadBySession[session := thread.value]);
        match nextKey
        case None => bound
        case Some(k) =>
          bound.(bufferKeyBySession := bound.bufferKeyBySession[session := k],
                 sessionsByBufferKey := AddSession(bound.sessionsByBufferKey, k, session))
  }

  function ResolveBufferKey(b: Bindings, cfg: Config, session: string, thread: Option<string>): Option<string> {
    var stored := Stored(b.bufferKeyBySession, session);
    if stored.Some? then stored else BaselineKey(b, cfg, session, ResolveThread(b, session, thread))
  }

  function Forgotten(b: Bindings, cfg: Config, session: string, thread: Option<string>): Bindings {
    var u := Unbind(b, ResolveBufferKey(b, cfg, session, thread), session);
    u.(threadBySession := u.threadBySession - {session}, bufferKeyBySession := u.bufferKeyBySession - {session})
  }

  function Cleared(b: Bindings, cfg: Config, session: string, thread: Option<string>, keepCount: bool,
      keepBinding: bool): Bindings {
    var key := ResolveBufferKey(b, cfg, session, thread);
    var counts :=
      if key.Some? && !keepCount && !keepBinding && Empties(b.sessionsByBufferKey, key.value, session)
      then b.messageCountByBufferKey - {key.value} else b.messageCountByBufferKey;
    if keepBinding then b.(messageCountByBufferKey := counts)
    else
      b.(threadBySession := b.threadBySession - {session},
         bufferKeyBySession := b.bufferKeyBySession - {session},
         sessionsByBufferKey :=
           if key.Some? then RemoveSession(b.sessionsByBufferKey, key.value, session) else b.sessionsByBufferKey,
         messageCountByBufferKey := counts)
  }

  /** A message count is recorded for the baseline key of a bound thread. */
  function Counted(b: Bindings, key: string, count: int): Bindings {
    b.(messageCountByBufferKey := b.messageCountByBufferKey[key := count])
  }

  // ---------------------------------------------------------------------------
  // Coherence
  // ---------------------------------------------------------------------------

  /** The two maps are exact inverses of each other and no key has an empty set of sessions. */
  predicate Inverse(b: Bindings) {
    && (forall s | s in b.bufferKeyBySession :: s in SessionsOf(b.sessionsByBufferKey, b.bufferKeyBySession[s]))
    && (forall k | k in b.sessionsByBufferKey ::
          b.sessionsByBufferKey[k] != {} &&
          forall s | s in b.sessionsByBufferKey[k] :: s in b.bufferKeyBySession && b.bufferKeyBySession[s] == k)
  }

  /** Stored keys are never empty, and without thread keying they are what the session alone gives. */
  predicate KeysOk(b: Bindings, cfg: Config) {
    forall s | s in b.bufferKeyBySession ::
      && b.bufferKeyBySession[s] != ""
      && (!cfg.threadIdBufferKeying ==> b.bufferKeyBySession[s] == ThreadBufferKey(cfg, s, ""))
  }

  predicate Coherent(b: Bindings, cfg: Config) {
    Inverse(b) && KeysOk(b, cfg)
  }

  lemma RemoveOwn(b: Bindings, session: string)
    requires Inverse(b) && session in b.bufferKeyBySession
    ensures Inverse(b.(
              bufferKeyBySession := b.bufferKeyBySession - {session},
              sessionsByBufferKey := RemoveSession(b.sessionsByBufferKey, b.bufferKeyBySession[session], session)))
  {
  }

  lemma RemoveStranger(b: Bindings, key: string, session: string)
    requires Inverse(b) && session !in b.bufferKeyBySession
    ensures RemoveSession(b.sessionsByBufferKey, key, session) == b.sessionsByBufferKey
  {
    if key in b.sessionsByBufferKey {
      assert b.sessionsByBufferKey[key] - {session} == b.sessionsByBufferKey[key];
    }
  }

  lemma AddFresh(b: Bindings, key: string, session: string)
    requires Inverse(b) && session !in b.bufferKeyBySession
    ensures Inverse(b.(
              bufferKeyBySession := b.bufferKeyBySession[session := key],
              sessionsByBufferKey := AddSession(b.sessionsByBufferKey, key, session)))
  {
  }

  /** Only a session whose key is empty whatever the thread can fail to get a new key. */
  lemma NextKeyExists(b: Bindings, cfg: Config, session: string, thread: Option<string>)
    requires KeysOk(b, cfg) && NonEmpty(thread).Some? && session in b.bufferKeyBySession
    ensures BaselineKey(b, cfg, session, thread).Some?
  {
    assert CODEX_THREAD_KEY_PREFIX <= CODEX_THREAD_KEY_PREFIX + thread.value;
    assert |CODEX_THREAD_KEY_PREFIX| == 13;
  }

  function IndexWithout(b: Bindings, session: string): map<string, set<string>> {
    if session in b.bufferKeyBySession
    then RemoveSession(b.sessionsByBufferKey, b.bufferKeyBySession[session], session) else b.sessionsByBufferKey
  }

  lemma Rebind(b: Bindings, session: string, key: string)
    requires Inverse(b)
    ensures Inverse(b.(
              bufferKeyBySession := b.bufferKeyBySession[session := key],
              sessionsByBufferKey := AddSession(IndexWithout(b, session), key, session)))
  {
    var without := b.(bufferKeyBySession := b.bufferKeyBySession - {session},
        sessionsByBufferKey := IndexWithout(b, session));
    if session in b.bufferKeyBySession {
      RemoveOwn(b, session);
    } else {
      assert without.bufferKeyBySession == b.bufferKeyBySession;
    }
    AddFresh(without, key, session);
    assert without.bufferKeyBySession[session := key] == b.bufferKeyBySession[session := key];
  }

  /** What a call that does something leaves in the two maps. */
  lemma RememberedMaps(b: Bindings, cfg: Config, session: string, thread: Option<string>)
    requires KeysOk(b, cfg) && Remembered(b, cfg, session, thread) != b
    ensures NonEmpty(thread).Some?
    ensures
      var r, nextKey := Remembered(b, cfg, session, thread), BaselineKey(b, cfg, session, thread);
      if nextKey.Some? then
        && r.bufferKeyBySession == b.bufferKeyBySession[session := nextKey.value]
        && r.sessionsByBufferKey == AddSession(IndexWithout(b, session), nextKey.value, session)
      else r.bufferKeyBySession == b.bufferKeyBySession && r.sessionsByBufferKey == b.sessionsByBufferKey
  {
    if session in b.bufferKeyBySession {
      NextKeyExists(b, cfg, session, thread);
      assert Stored(b.bufferKeyBySession, session) == Some(b.bufferKeyBySession[session]);
    }
  }

  lemma NextKeyOk(b: Bindings, cfg: Config, session: string, thread: Option<string>)
    requires BaselineKey(b, cfg, session, thread).Some?
    ensures
      var key := BaselineKey(b, cfg, session, thread).value;
      key != "" && (!cfg.threadIdBufferKeying ==> key == ThreadBufferKey(cfg, session, ""))
  {
  }

  lemma RememberKeeps(b: Bindings, cfg: Config, session: string, thread: Option<string>)
    requires Coherent(b, cfg)
    ensures Coherent(Remembered(b, cfg, session, thread), cfg)
  {
    var r := Remembered(b, cfg, session, thread);
    if r != b {
      RememberedMaps(b, cfg, session, thread);
      var nextKey := BaselineKey(b, cfg, session, thread);
      if nextKey.Some? {
        Rebind(b, session, nextKey.value);
        NextKeyOk(b, cfg, session, thread);
        SameMaps(b.(bufferKeyBySession := r.bufferKeyBySession, sessionsByBufferKey := r.sessionsByBufferKey), r);
      } else {
        SameMaps(b, r);
      }
    }
  }

  lemma SameMaps(a: Bindings, b: Bindings)
    requires Inverse(a) && a.bufferKeyBySession == b.bufferKeyBySession
        && a.sessionsByBufferKey == b.sessionsByBufferKey
    ensures Inverse(b)
  {
  }

  lemma UnboundIsInverse(b: Bindings, cfg: Config, session: string, thread: Option<string>)
    requires Coherent(b, cfg)
    ensures
      var key := ResolveBufferKey(b, cfg, session, thread);
      Inverse(b.(
        bufferKeyBySession := b.bufferKeyBySession - {session},
        sessionsByBufferKey := if key.Some? then RemoveSession(b.sessionsByBufferKey, key.value, session)
            else b.sessionsByBufferKey))
  {
    var key := ResolveBufferKey(b, cfg, session, thread);
    if session in b.bufferKeyBySession {
      RemoveOwn(b, session);
    } else {
      assert b.bufferKeyBySession - {session} == b.bufferKeyBySession;
      if key.Some? {
        RemoveStranger(b, key.value, session);
      }
    }
  }

  lemma ForgetKeeps(b: Bindings, cfg: Config, session: string, thread: Option<string>)
    requires Coherent(b, cfg)
    ensures Coherent(Forgotten(b, cfg, session, thread), cfg)
    ensures session !in Forgotten(b, cfg, session, thread).bufferKeyBySession
  {
    UnboundIsInverse(b, cfg, session, thread);
  }

  lemma ClearKeeps(b: Bindings, cfg: Config, session: string, thread: Option<string>, keepCount: bool,
      keepBinding: bool)
    requires Coherent(b, cfg)
    ensures Coherent(Cleared(b, cfg, session, thread, keepCount, keepBinding), cfg)
  {
    UnboundIsInverse(b, cfg, session, thread);
  }

  // ---------------------------------------------------------------------------
  // Whole runs
  // ---------------------------------------------------------------------------

  datatype Operation =
    | Remember(session: string, thread: Option<string>)
    | Forget(session: string, thread: Option<string>)
    | Clear(session: string, thread: Option<string>, keepCount: bool, keepBinding: bool)
    | Count(key: string, count: int)

  function Perform(b: Bindings, cfg: Config, op: Operation): Bindings {
    match op
    case Remember(s, t) => Remembered(b, cfg, s, t)
    case Forget(s, t) => Forgotten(b, cfg, s, t)
    case Clear(s, t, c, k) => Cleared(b, cfg, s, t, c, k)
    case Count(k, n) => Counted(b, k, n)
  }

  function PerformAll(cfg: Config, ops: seq<Operation>): Bindings {
    if ops == [] then EMPTY else Perform(PerformAll(cfg, ops[..|ops| - 1]), cfg, ops[|ops| - 1])
  }

  lemma PerformKeeps(b: Bindings, cfg: Config, op: Operation)
    requires Coherent(b, cfg)
    ensures Coherent(Perform(b, cfg, op), cfg)
  {
    match op
    case Remember(s, t) => RememberKeeps(b, cfg, s, t);
    case Forget(s, t) => ForgetKeeps(b, cfg, s, t);
    case Clear(s, t, c, k) => ClearKeeps(b, cfg, s, t, c, k);
    case Count(k, n) =>
  }

  /** After any operations with any thread arguments, a session is filed under a key exactly when the
      key is the session's, and no key is filed without sessions. */
  lemma {:induction false} IndexIsInverse(cfg: Config, ops: seq<Operation>)
    ensures Coherent(PerformAll(cfg, ops), cfg)
    ensures
      var b := PerformAll(cfg, ops);
      && (forall s, k ::
            s in SessionsOf(b.sessionsByBufferKey, k) <==> s in b.bufferKeyBySession && b.bufferKeyBySession[s] == k)
      && (forall k | k in b.sessionsByBufferKey :: b.sessionsByBufferKey[k] != {})
  {
    if ops != [] {
      IndexIsInverse(cfg, ops[..|ops| - 1]);
      PerformKeeps(PerformAll(cfg, ops[..|ops| - 1]), cfg, ops[|ops| - 1]);
    }
  }

  // ---------------------------------------------------------------------------
  // What one call changes
  // ---------------------------------------------------------------------------

  const PRINCIPAL_SEPARATOR := "::principal:"

  /** The buffer key of a session bound to a thread: the thread, or the session if threads do not key
      buffers, and with namespaces the principal, unless the key is not that of a thread. */
  function KeyFor(cfg: Config, session: string, thread: string): string {
    if cfg.threadIdBufferKeying then
      "codex-thread:" + thread + if cfg.namespacesEnabled then PRINCIPAL_SEPARATOR + cfg.Principal(session) else ""
    else
      session + if cfg.namespacesEnabled && "codex-thread:" <= session then PRINCIPAL_SEPARATOR + cfg.Principal(session)
                else ""
  }

  lemma KeyForIsBufferKey(cfg: Config, session: string, thread: string)
    ensures KeyFor(cfg, session, thread) == ThreadBufferKey(cfg, session, thread)
  {
    var key := "codex-thread:" + thread;
    assert "codex-thread:" <= key && key + "" == key && session + "" == session;
  }

  /** Nothing changes for any session but this one. */
  ghost predicate OthersStay(a: Bindings, b: Bindings, session: string) {
    && (forall s | s != session ::
          (s in a.bufferKeyBySession <==> s in b.bufferKeyBySession)
          && (s in a.threadBySession <==> s in b.threadBySession))
    && (forall s | s != session && s in a.bufferKeyBySession && s in b.bufferKeyBySession ::
          a.bufferKeyBySession[s] == b.bufferKeyBySession[s])
    && (forall s | s != session && s in a.threadBySession && s in b.threadBySession ::
          a.threadBySession[s] == b.threadBySession[s])
  }

  /** The session is bound to no key but this one, and nobody else is. */
  predicate SoleUser(b: Bindings, session: string, key: string) {
    session in b.bufferKeyBySession && b.bufferKeyBySession[session] == key
    && forall s | s in b.bufferKeyBySession && b.bufferKeyBySession[s] == key :: s == session
  }

  lemma SoleUserEmpties(b: Bindings, cfg: Config, session: string)
    requires Coherent(b, cfg) && session in b.bufferKeyBySession
    ensures var key := b.bufferKeyBySession[session];
      Empties(b.sessionsByBufferKey, key, session) <==> SoleUser(b, session, key)
  {
    var key := b.bufferKeyBySession[session];
    var sessions := SessionsOf(b.sessionsByBufferKey, key);
    assert session in sessions;
    if Empties(b.sessionsByBufferKey, key, session) {
      assert forall s | s in sessions :: s == session by {
        assert forall s | s in sessions && s != session :: s in sessions - {session};
      }
    }
  }

  lemma UnbindKeepsMaps(b: Bindings, key: Option<string>, session: string)
    ensures var u := Unbind(b, key, session);
      u.bufferKeyBySession == b.bufferKeyBySession && u.threadBySession == b.threadBySession
  {
  }

  lemma OthersStayIf(a: Bindings, b: Bindings, session: string)
    requires a.bufferKeyBySession - {session} == b.bufferKeyBySession - {session}
    requires a.threadBySession - {session} == b.threadBySession - {session}
    ensures OthersStay(a, b, session)
  {
    forall s | s != session
      ensures s in a.bufferKeyBySession <==> s in b.bufferKeyBySession
      ensures s in a.threadBySession <==> s in b.threadBySession
      ensures s in a.bufferKeyBySession ==> a.bufferKeyBySession[s] == b.bufferKeyBySession[s]
      ensures s in a.threadBySession ==> a.threadBySession[s] == b.threadBySession[s]
    {
      assert s in a.bufferKeyBySession <==> s in a.bufferKeyBySession - {session};
      assert s in a.threadBySession <==> s in a.threadBySession - {session};
    }
  }

  lemma RememberLeavesOthers(b: Bindings, cfg: Config, session: string, thread: Option<string>, r: Bindings)
    requires r == Remembered(b, cfg, session, thread)
    ensures OthersStay(b, r, session)
  {
    UnbindKeepsMaps(b, Stored(b.bufferKeyBySession, session), session);
    assert b.bufferKeyBySession - {session} == r.bufferKeyBySession - {session};
    assert b.threadBySession - {session} == r.threadBySession - {session};
    OthersStayIf(b, r, session);
  }

  lemma BaselineIsKeyFor(b: Bindings, cfg: Config, session: string, thread: string)
    requires thread != ""
    ensures var key := KeyFor(cfg, session, thread);
      BaselineKey(b, cfg, session, Some(thread)) == if key == "" then None else Some(key)
  {
    KeyForIsBufferKey(cfg, session, thread);
  }

  lemma RememberedBinding(b: Bindings, cfg: Config, session: string, thread: string, next: Option<string>, r: Bindings)
    requires thread != "" && next == BaselineKey(b, cfg, session, Some(thread))
    requires r == Remembered(b, cfg, session, Some(thread))
    ensures Stored(r.threadBySession, session) == Some(thread)
    ensures next.Some? ==> Stored(r.bufferKeyBySession, session) == next
    ensures next.None? ==> (session in r.bufferKeyBySession <==> session in b.bufferKeyBySession)
  {
    UnbindKeepsMaps(b, Stored(b.bufferKeyBySession, session), session);
  }

  /** Binding a session to a thread: afterwards it has that thread and the thread's key, unless that is
      empty, and no other session has changed. */
  lemma RememberBinds(b: Bindings, cfg: Config, session: string, thread: string)
    requires Coherent(b, cfg) && thread != ""
    ensures var r := Remembered(b, cfg, session, Some(thread));
      && session in r.threadBySession && r.threadBySession[session] == thread
      && (if KeyFor(cfg, session, thread) == "" then session !in r.bufferKeyBySession
          else session in r.bufferKeyBySession && r.bufferKeyBySession[session] == KeyFor(cfg, session, thread))
      && OthersStay(b, r, session)
  {
    var r := Remembered(b, cfg, session, Some(thread));
    BaselineIsKeyFor(b, cfg, session, thread);
    RememberLeavesOthers(b, cfg, session, Some(thread), r);
    RememberedBinding(b, cfg, session, thread, BaselineKey(b, cfg, session, Some(thread)), r);
    if session in b.bufferKeyBySession {
      NextKeyExists(b, cfg, session, Some(thread));
    }
  }

  /** The old key's message count goes exactly when the binding changes and nobody else used that key. */
  lemma RememberCounts(b: Bindings, cfg: Config, session: string, thread: string, key: string)
    requires Coherent(b, cfg) && thread != ""
    ensures var r := Remembered(b, cfg, session, Some(thread));
      && (key in r.messageCountByBufferKey <==>
            key in b.messageCountByBufferKey && !(r != b && SoleUser(b, session, key)))
      && (key in r.messageCountByBufferKey ==> r.messageCountByBufferKey[key] == b.messageCountByBufferKey[key])
  {
    var r := Remembered(b, cfg, session, Some(thread));
    if session in b.bufferKeyBySession {
      SoleUserEmpties(b, cfg, session);
      assert Stored(b.bufferKeyBySession, session) == Some(b.bufferKeyBySession[session]);
    }
    if r == b && session in b.bufferKeyBySession {
      NextKeyExists(b, cfg, session, Some(thread));
    }
  }

  /** Forgetting a session: it has neither thread nor key, and no other session has changed. The count of
      the key goes exactly when nobody else uses that key. */
  lemma ForgetUnbinds(b: Bindings, cfg: Config, session: string, thread: Option<string>)
    requires Coherent(b, cfg)
    ensures var r := Forgotten(b, cfg, session, thread);
      && session !in r.threadBySession && session !in r.bufferKeyBySession && OthersStay(b, r, session)
      && (session in b.bufferKeyBySession ==> forall key ::
            key in r.messageCountByBufferKey <==> key in b.messageCountByBufferKey && !SoleUser(b, session, key))
      && (forall key | key in r.messageCountByBufferKey ::
            key in b.messageCountByBufferKey && r.messageCountByBufferKey[key] == b.messageCountByBufferKey[key])
  {
    if session in b.bufferKeyBySession {
      SoleUserEmpties(b, cfg, session);
      assert Stored(b.bufferKeyBySession, session) == Some(b.bufferKeyBySession[session]);
    }
  }

  /** Clearing a session's caches: the binding goes unless it is to be kept, and the count of its key
      goes exactly when neither is to be kept and nobody else uses the key. */
  lemma ClearUnbinds(b: Bindings, cfg: Config, session: string, thread: Option<string>, keepCount: bool,
      keepBinding: bool)
    requires Coherent(b, cfg)
    ensures var r := Cleared(b, cfg, session, thread, keepCount, keepBinding);
      && OthersStay(b, r, session)
      && (if keepBinding then
            r.threadBySession == b.threadBySession && r.bufferKeyBySession == b.bufferKeyBySession
            && r.sessionsByBufferKey == b.sessionsByBufferKey
          else session !in r.threadBySession && session !in r.bufferKeyBySession)
      && (session in b.bufferKeyBySession ==> forall key ::
            key in r.messageCountByBufferKey <==>
            key in b.messageCountByBufferKey && !(!keepCount && !keepBinding && SoleUser(b, session, key)))
  {
    if session in b.bufferKeyBySession {
      SoleUserEmpties(b, cfg, session);
      assert Stored(b.bufferKeyBySession, session) == Some(b.bufferKeyBySession[session]);
    }
  }

  // ---------------------------------------------------------------------------
  // The maps as the closures update them
  // ---------------------------------------------------------------------------

  class CodexBindings {
    const cfg: Config
    var threadBySession: map<string, string>
    var bufferKeyBySession: map<string, string>
    var sessionsByBufferKey: map<string, set<string>>
    var messageCountByBufferKey: map<string, int>

    function State(): Bindings
      reads this
    {
      Bindings(threadBySession, bufferKeyBySession, sessionsByBufferKey, messageCountByBufferKey)
    }

    constructor (config: Config)
      ensures cfg == config && State() == EMPTY && Coherent(State(), cfg)
    {
      cfg := config;
      threadBySession, bufferKeyBySession, sessionsByBufferKey, messageCountByBufferKey := map[], map[], map[], map[];
    }

    method RemoveSessionFromIndex(key: string, session: string) returns (emptied: bool)
      modifies this`sessionsByBufferKey
      ensures sessionsByBufferKey == RemoveSession(old(sessionsByBufferKey), key, session)
      ensures emptied == Empties(old(sessionsByBufferKey), key, session)
    {
      if key !in sessionsByBufferKey {
        assert sessionsByBufferKey - {key} == sessionsByBufferKey;
        return true;
      }
      var sessions := sessionsByBufferKey[key] - {session};
      emptied := sessions == {};
      if emptied {
        sessionsByBufferKey := sessionsByBufferKey - {key};
      } else {
        sessionsByBufferKey := sessionsByBufferKey[key := sessions];
      }
    }

    method UnbindKey(key: Option<string>, session: string)
      modifies this`sessionsByBufferKey, this`messageCountByBufferKey
      ensures State() == Unbind(old(State()), key, session)
    {
      if key.Some? {
        var emptied := RemoveSessionFromIndex(key.value, session);
        if emptied {
          messageCountByBufferKey := messageCountByBufferKey - {key.value};
        }
      }
    }

    method RememberThread(session: string, thread: Option<string>)
      requires Coherent(State(), cfg)
      modifies this
      ensures State() == Remembered(old(State()), cfg, session, thread) && Coherent(State(), cfg)
    {
      RememberKeeps(State(), cfg, session, thread);
      if NonEmpty(thread).None? {
        return;
      }
      var previousKey := Stored(bufferKeyBySession, session);
      var nextKey := BaselineKey(State(), cfg, session, thread);
      if Stored(threadBySession, session) == thread && previousKey == nextKey {
        return;
      }
      UnbindKey(previousKey, session);
      threadBySession := threadBySession[session := thread.value];
      if nextKey.Some? {
        bufferKeyBySession := bufferKeyBySession[session := nextKey.value];
        sessionsByBufferKey := AddSession(sessionsByBufferKey, nextKey.value, session);
      }
    }

    method ForgetThread(session: string, thread: Option<string>)
      requires Coherent(State(), cfg)
      modifies this
      ensures State() == Forgotten(old(State()), cfg, session, thread) && Coherent(State(), cfg)
    {
      ForgetKeeps(State(), cfg, session, thread);
      UnbindKey(ResolveBufferKey(State(), cfg, session, thread), session);
      threadBySession := threadBySession - {session};
      bufferKeyBySession := bufferKeyBySession - {session};
    }

    method ClearCaches(session: string, thread: Option<string>, keepCount: bool, keepBinding: bool)
      requires Coherent(State(), cfg)
      modifies this
      ensures State() == Cleared(old(State()), cfg, session, thread, keepCount, keepBinding) && Coherent(State(), cfg)
    {
      ClearKeeps(State(), cfg, session, thread, keepCount, keepBinding);
      var key := ResolveBufferKey(State(), cfg, session, thread);
      if key.Some? && !keepCount && !keepBinding && SessionsOf(sessionsByBufferKey, key.value) - {session} == {} {
        messageCountByBufferKey := messageCountByBufferKey - {key.value};
      }
      if !keepBinding {
        if key.Some? {
          var _ := RemoveSessionFromIndex(key.value, session);
        }
        threadBySession := threadBySession - {session};
        bufferKeyBySession := bufferKeyBySession - {session};
      }
    }
  }
}
