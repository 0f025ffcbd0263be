/** The client's pending-response protocol: threads that send tasks and wait for their
    responses, the thread that receives responses, and resending after a server restart.

    Everything is keyed by the task's address, its net key.  A step is one critical
    section or one access to a completion flag, so a sequence of steps is one
    interleaving of all client threads with the network. */
module ClientProtocol {
  type Key = nat    // a task's address; reused after the task is freed
  type Call = nat   // one sent task with its FutureShm; never reused

  datatype Option<+T> = None | Some(value: T)

  /** Where the thread that owns the call is. */
  datatype Phase =
    | Shm          // sent through shared memory, no response expected over the network
    | Registered   // in the pending map, not sent yet
    | Waiting      // in the wait loop of Recv
    | GaveUp       // Recv timed out and returned false
    | Erased       // ResendTask: old entries erased
    | Cleared      // ResendTask: completion flag cleared
    | Seen         // the wait loop saw FUTURE_COMPLETE
    | Done(archive: Option<Call>)   // Recv returned true, having decoded this response
    | Freed

  datatype Record = Record(key: Key, phase: Phase, complete: bool)

  /** `pending` and `archives` are the two maps under pending_futures_mutex_; an archive is
      the response to the call stored.  `asked` are calls a server may still answer, any
      number of times; `net` are the answers under way. */
  datatype State = State(
    calls: map<Call, Record>,
    pending: map<Key, Call>,
    archives: map<Key, Call>,
    asked: set<Call>,
    net: multiset<Call>)

  const Start := State(map[], map[], map[], {}, multiset{})

  datatype Action =
    | Send(c: Call, k: Key)         // SendZmq up to the registration
    | SendShm(c: Call, k: Key)
    | Post(c: Call)                 // the request goes out
    | Answer(c: Call)               // a server answers, possibly again
    | Forget(c: Call)               // no server will answer any more
    | Lose(c: Call)                 // an answer is lost
    | Receive(c: Call)              // RecvZmqClientThread takes an answer
    | GiveUp(c: Call)
    | WaitAgain(c: Call)
    | Erase(c: Call)                // ResendTask, in three parts
    | Clear(c: Call)
    | Register(c: Call)
    | See(c: Call)                  // the wait loop ends
    | Decode(c: Call)
    | Cleanup(c: Call)              // CleanupResponseArchive, then the free

  predicate In(s: State, c: Call, phase: Phase) { c in s.calls && s.calls[c].phase == phase }

  predicate Live(s: State, c: Call) { c in s.calls && !s.calls[c].phase.Freed? }

  predicate Enabled(s: State, a: Action) {
    match a
    case Send(c, k) => c !in s.calls && forall d :: d in s.calls && Live(s, d) ==> s.calls[d].key != k
    case SendShm(c, k) => c !in s.calls && forall d :: d in s.calls && Live(s, d) ==> s.calls[d].key != k
    case Post(c) => In(s, c, Registered)
    case Answer(c) => c in s.asked
    case Forget(c) => c in s.asked
    case Lose(c) => c in s.net
    case Receive(c) => c in s.net && c in s.calls
    case GiveUp(c) => In(s, c, Waiting)
    case WaitAgain(c) => In(s, c, GaveUp)
    case Erase(c) => In(s, c, Waiting) || In(s, c, Shm)
    case Clear(c) => In(s, c, Erased)
    case Register(c) => In(s, c, Cleared)
    case See(c) => In(s, c, Waiting) && s.calls[c].complete
    case Decode(c) => In(s, c, Seen)
    case Cleanup(c) => c in s.calls && s.calls[c].phase.Done?
  }

  /** An address is reused only when no answer to its last task can still arrive. */
  ghost predicate KeyIsQuiet(s: State, a: Action) {
    (a.Send? || a.SendShm?) ==>
      forall d :: d in s.calls && s.calls[d].key == a.k ==> d !in s.asked && d !in s.net
  }

  function Move(s: State, c: Call, phase: Phase): State
    requires c in s.calls
  {
    s.(calls := s.calls[c := s.calls[c].(phase := phase)])
  }

  function Next(s: State, a: Action): State
    requires Enabled(s, a)
  {
    match a
    case Send(c, k) => s.(calls := s.calls[c := Record(k, Registered, false)], pending := s.pending[k := c])
    case SendShm(c, k) => s.(calls := s.calls[c := Record(k, Shm, false)])
    case Post(c) => Move(s, c, Waiting).(asked := s.asked + {c})
    case Answer(c) => s.(net := s.net + multiset{c})
    case Forget(c) => s.(asked := s.asked - {c})
    case Lose(c) => s.(net := s.net - multiset{c})
    case Receive(c) => Deliver(s.(net := s.net - multiset{c}), c)
    case GiveUp(c) => Move(s, c, GaveUp)
    case WaitAgain(c) => Move(s, c, Waiting)
    case Erase(c) =>
      var k := s.calls[c].key;
      Move(s, c, Erased).(pending := s.pending - {k}, archives := s.archives - {k})
    case Clear(c) => s.(calls := s.calls[c := s.calls[c].(phase := Cleared, complete := false)])
    case Register(c) => Move(s, c, Registered).(pending := s.pending[s.calls[c].key := c])
    case See(c) => Move(s, c, Seen)
    case Decode(c) =>
      var k := s.calls[c].key;
      Move(s, c, Done(if k in s.archives then Some(s.archives[k]) else None))
    case Cleanup(c) => Move(s, c, Freed).(archives := s.archives - {s.calls[c].key})
  }

  /** The receive thread looks the answer's key up among the pending calls. */
  function Deliver(s: State, c: Call): State
    requires c in s.calls
  {
    var k := s.calls[c].key;
    if k !in s.pending || s.pending[k] !in s.calls then s
    else
      var f := s.pending[k];
      s.(archives := s.archives[k := c], calls := s.calls[f := s.calls[f].(complete := true)], pending := s.pending - {k})
  }

  // ----- the shared maps as the code updates them -----

  class Client {
    var calls: map<Call, Record>
    var pending: map<Key, Call>
    var archives: map<Key, Call>
    ghost var asked: set<Call>
    ghost var net: multiset<Call>

    ghost function Value(): State
      reads this
    {
      State(calls, pending, archives, asked, net)
    }

    constructor ()
      ensures Value() == Start
    {
      calls, pending, archives, asked, net := map[], map[], map[], {}, multiset{};
    }

    method SendZmq(c: Call, k: Key)
      requires Enabled(Value(), Send(c, k))
      modifies this
      ensures Value() == Next(old(Value()), Send(c, k))
    {
      calls := calls[c := Record(k, Registered, false)];
      pending := pending[k := c];
    }

    method OnResponse(c: Call)
      requires Enabled(Value(), Receive(c))
      modifies this
      ensures Value() == Next(old(Value()), Receive(c))
    {
      net := net - multiset{c};
      var k := calls[c].key;
      if k !in pending || pending[k] !in calls {
        return;
      }
      var f := pending[k];
      archives := archives[k := c];
      calls := calls[f := calls[f].(complete := true)];
      pending := pending - {k};
    }

    method EraseForResend(c: Call)
      requires Enabled(Value(), Erase(c))
      modifies this
      ensures Value() == Next(old(Value()), Erase(c))
    {
      var k := calls[c].key;
      pending := pending - {k};
      archives := if k in archives then archives - {k} else archives;
      calls := calls[c := calls[c].(phase := Erased)];
    }

    method ClearFlag(c: Call)
      requires Enabled(Value(), Clear(c))
      modifies this
      ensures Value() == Next(old(Value()), Clear(c))
    {
      calls := calls[c := calls[c].(phase := Cleared, complete := false)];
    }

    method RegisterAgain(c: Call)
      requires Enabled(Value(), Register(c))
      modifies this
      ensures Value() == Next(old(Value()), Register(c))
    {
      pending := pending[calls[c].key := c];
      calls := calls[c := calls[c].(phase := Registered)];
    }

    method DecodeResponse(c: Call)
      requires Enabled(Value(), Decode(c))
      modifies this
      ensures Value() == Next(old(Value()), Decode(c))
    {
      var k := calls[c].key;
      var archive := None;
      if k in archives {
        archive := Some(archives[k]);
      }
      calls := calls[c := calls[c].(phase := Done(archive))];
    }

    method CleanupResponseArchive(c: Call)
      requires Enabled(Value(), Cleanup(c))
      modifies this
      ensures Value() == Next(old(Value()), Cleanup(c))
    {
      var k := calls[c].key;
      if k in archives {
        archives := archives - {k};
      }
      calls := calls[c := calls[c].(phase := Freed)];
    }
  }

  // ----- the invariant -----

  /** A call in these phases is either in the pending map or complete with an archive. */
  predicate Expecting(p: Phase) { p.Registered? || p.Waiting? || p.GaveUp? }

  predicate HasArchive(s: State, c: Call)
    requires c in s.calls
  {
    var r := s.calls[c];
    (r.complete && (Expecting(r.phase) || r.phase.Seen?)) || r.phase.Done?
  }

  /** Two users of one key are the same call. */
  predicate Apart(s: State, c: Call, d: Call) {
    c in s.calls && d in s.calls && s.calls[c].key == s.calls[d].key ==> c == d
  }

  predicate MayAnswer(s: State, c: Call) { c in s.asked || c in s.net }

  ghost predicate KeysOk(s: State) {
    && (forall c, d {:trigger Apart(s, c, d)} :: Live(s, c) && Live(s, d) ==> Apart(s, c, d))
    && (forall c, d {:trigger Apart(s, c, d)} :: MayAnswer(s, c) && Live(s, d) ==> Apart(s, c, d))
    && (forall c {:trigger MayAnswer(s, c)} :: MayAnswer(s, c) ==> c in s.calls)
  }

  /** What the maps hold for a live call's key is decided by its record. */
  predicate RecordOk(s: State, c: Call)
    requires c in s.calls
  {
    var r := s.calls[c];
    && ((r.key in s.pending && s.pending[r.key] == c) <==> (Expecting(r.phase) && !r.complete))
    && ((r.key in s.archives && s.archives[r.key] == c) <==> HasArchive(s, c))
    && (r.phase.Seen? ==> r.complete)
    && (r.phase.Done? ==> r.phase.archive == Some(c) && r.complete)
    && ((r.phase.Cleared? || r.phase.Shm?) ==> !r.complete)
  }

  ghost predicate RecordsOk(s: State) { forall c {:trigger RecordOk(s, c)} :: c in s.calls ==> RecordOk(s, c) }

  /** Entries are stored by live calls under their own key. */
  predicate StoredOk(s: State, m: map<Key, Call>, k: Key) {
    k in m ==> Live(s, m[k]) && s.calls[m[k]].key == k
  }

  ghost predicate MapsOk(s: State) {
    && (forall k {:trigger StoredOk(s, s.pending, k)} :: StoredOk(s, s.pending, k))
    && (forall k {:trigger StoredOk(s, s.archives, k)} :: StoredOk(s, s.archives, k))
  }

  ghost predicate Inv(s: State) { KeysOk(s) && RecordsOk(s) && MapsOk(s) }

  predicate SameAt(s: State, t: State, k: Key) {
    && (k in t.pending <==> k in s.pending) && (k in s.pending ==> t.pending[k] == s.pending[k])
    && (k in t.archives <==> k in s.archives) && (k in s.archives ==> t.archives[k] == s.archives[k])
  }

  predicate Elsewhere(s: State, d: Call, k: Key) { Live(s, d) ==> s.calls[d].key != k }

  /** Between `s` and `t` only call `c` and what is stored under its key may differ, and
      nobody else uses that key. */
  ghost predicate OnlyChanges(s: State, t: State, c: Call) {
    && c in t.calls && t.calls == s.calls[c := t.calls[c]]
    && (c in s.calls ==> t.calls[c].key == s.calls[c].key)
    && (forall k {:trigger SameAt(s, t, k)} :: k != t.calls[c].key ==> SameAt(s, t, k))
    && (forall d {:trigger Elsewhere(s, d, t.calls[c].key)} :: d != c ==> Elsewhere(s, d, t.calls[c].key))
  }

  /** Under the key there is only what belongs to `c`. */
  predicate KeyOk(t: State, c: Call)
    requires c in t.calls
  {
    && RecordOk(t, c)
    && var k := t.calls[c].key;
    && (k in t.pending ==> t.pending[k] == c && Live(t, c))
    && (k in t.archives ==> t.archives[k] == c && Live(t, c))
  }

  lemma ChangeRecords(s: State, t: State, c: Call)
    requires RecordsOk(s) && OnlyChanges(s, t, c) && KeyOk(t, c)
    ensures RecordsOk(t)
  {
    forall d | d in t.calls ensures RecordOk(t, d) {
      if d != c {
        assert RecordOk(s, d);
        assert Elsewhere(s, d, t.calls[c].key);
        assert s.calls[d].key != t.calls[c].key ==> SameAt(s, t, s.calls[d].key);
      }
    }
  }

  lemma ChangeMaps(s: State, t: State, c: Call)
    requires MapsOk(s) && OnlyChanges(s, t, c) && KeyOk(t, c)
    ensures MapsOk(t)
  {
    hide RecordOk;
    forall k ensures StoredOk(t, t.pending, k) && StoredOk(t, t.archives, k) {
      if k != t.calls[c].key {
        assert StoredOk(s, s.pending, k) && StoredOk(s, s.archives, k) && SameAt(s, t, k);
      }
    }
  }

  /** `c` is new and quiet, or a live call of `s`. */
  ghost predicate MayUse(s: State, c: Call, k: Key) {
    if c in s.calls then Live(s, c)
    else forall d {:trigger MayAnswer(s, d)} :: MayAnswer(s, d) && d in s.calls ==> s.calls[d].key != k
  }

  lemma ChangeKeys(s: State, t: State, c: Call)
    requires KeysOk(s) && OnlyChanges(s, t, c) && MayUse(s, c, t.calls[c].key)
    requires t.asked <= s.asked + {c} && forall d :: d in t.net ==> d in s.net
    requires c !in s.calls ==> !MayAnswer(t, c)
    ensures KeysOk(t)
  {
    hide RecordOk;
    forall d, e | (Live(t, d) || MayAnswer(t, d)) && Live(t, e) ensures Apart(t, d, e) {
      assert MayAnswer(t, d) && d != c ==> MayAnswer(s, d);
      assert Elsewhere(s, d, t.calls[c].key) || d == c;
      assert Elsewhere(s, e, t.calls[c].key) || e == c;
      if d != c && e != c { assert Apart(s, d, e); }
      if d != c && e == c && c in s.calls { assert Apart(s, d, c); }
    }
    forall d | MayAnswer(t, d) ensures d in t.calls {
      assert d != c ==> MayAnswer(s, d);
    }
  }

  /** Answers come and go without touching the calls. */
  lemma NetworkKeeps(s: State, t: State)
    requires Inv(s) && t.calls == s.calls && t.pending == s.pending && t.archives == s.archives
    requires forall c :: MayAnswer(t, c) ==> MayAnswer(s, c)
    ensures Inv(t)
  {
    forall c | c in t.calls ensures RecordOk(t, c) { assert RecordOk(s, c); }
    forall k ensures StoredOk(t, t.pending, k) && StoredOk(t, t.archives, k) {
      assert StoredOk(s, s.pending, k) && StoredOk(s, s.archives, k);
    }
    forall c, d | (Live(t, c) || MayAnswer(t, c)) && Live(t, d) ensures Apart(t, c, d) {
      assert Apart(s, c, d);
    }
  }

  lemma ReceiveStep(s: State, c: Call)
    requires Inv(s) && Enabled(s, Receive(c))
    ensures Inv(Next(s, Receive(c)))
  {
    hide KeysOk, RecordsOk, MapsOk;
    var t := Next(s, Receive(c));
    var k := s.calls[c].key;
    if k in s.pending {
      AnswersItsCall(s, c);
      RecordHolds(s, c);
      OwnKey(s, c);
      assert OnlyChanges(s, t, c) && KeyOk(t, c);
      ChangeRecords(s, t, c);
      ChangeMaps(s, t, c);
      ChangeKeys(s, t, c);
    } else {
      NetworkKeeps(s, t);
    }
  }

  lemma OwnKey(s: State, c: Call)
    requires KeysOk(s) && MapsOk(s) && Live(s, c)
    ensures var k := s.calls[c].key;
            && (forall d {:trigger Elsewhere(s, d, k)} :: d != c ==> Elsewhere(s, d, k))
            && (k in s.pending ==> s.pending[k] == c) && (k in s.archives ==> s.archives[k] == c)
  {
    var k := s.calls[c].key;
    forall d | d != c ensures Elsewhere(s, d, k) { assert Live(s, d) ==> Apart(s, d, c); }
    assert StoredOk(s, s.pending, k) && StoredOk(s, s.archives, k);
    assert k in s.pending ==> Apart(s, s.pending[k], c);
    assert k in s.archives ==> Apart(s, s.archives[k], c);
  }

  lemma RecordHolds(s: State, c: Call)
    requires RecordsOk(s) && c in s.calls
    ensures RecordOk(s, c)
  {}

  /** The pending call found under an answer's key is the one it answers. */
  lemma AnswersItsCall(s: State, c: Call)
    requires KeysOk(s) && MapsOk(s) && c in s.net && c in s.calls && s.calls[c].key in s.pending
    ensures s.pending[s.calls[c].key] == c && Live(s, c)
  {
    var k := s.calls[c].key;
    assert StoredOk(s, s.pending, k);
    assert MayAnswer(s, c) && Apart(s, c, s.pending[k]);
  }

  predicate Starts(a: Action) { a.Send? || a.SendShm? }

  lemma FreshKey(s: State, k: Key)
    requires MapsOk(s) && forall d :: d in s.calls && Live(s, d) ==> s.calls[d].key != k
    ensures k !in s.pending && k !in s.archives
  {
    assert StoredOk(s, s.pending, k) && StoredOk(s, s.archives, k);
  }

  lemma NewCall(s: State, c: Call)
    requires KeysOk(s) && c !in s.calls
    ensures !MayAnswer(s, c)
  {}

  lemma StartStep(s: State, a: Action)
    requires Inv(s) && Enabled(s, a) && KeyIsQuiet(s, a) && Starts(a)
    ensures Inv(Next(s, a))
  {
    hide KeysOk, RecordsOk, MapsOk;
    var t := Next(s, a);
    FreshKey(s, a.k);
    NewCall(s, a.c);
    assert OnlyChanges(s, t, a.c) && KeyOk(t, a.c);
    ChangeRecords(s, t, a.c);
    ChangeMaps(s, t, a.c);
    ChangeKeys(s, t, a.c);
  }

  predicate Network(a: Action) { a.Answer? || a.Forget? || a.Lose? || a.Receive? }

  lemma OwnerStep(s: State, a: Action)
    requires Inv(s) && Enabled(s, a) && !Starts(a) && !Network(a)
    ensures Inv(Next(s, a))
  {
    hide KeysOk, RecordsOk, MapsOk;
    var t := Next(s, a);
    RecordHolds(s, a.c);
    OwnKey(s, a.c);
    assert OnlyChanges(s, t, a.c) && KeyOk(t, a.c);
    ChangeRecords(s, t, a.c);
    ChangeMaps(s, t, a.c);
    ChangeKeys(s, t, a.c);
  }

  lemma StepInv(s: State, a: Action)
    requires Inv(s) && Enabled(s, a) && KeyIsQuiet(s, a)
    ensures Inv(Next(s, a))
  {
    hide Inv, KeyIsQuiet, Deliver;
    if a.Receive? {
      ReceiveStep(s, a.c);
    } else if Network(a) {
      NetworkKeeps(s, Next(s, a));
    } else if Starts(a) {
      StartStep(s, a);
    } else {
      OwnerStep(s, a);
    }
  }

  ghost predicate IsRun(s: State, run: seq<Action>)
    decreases |run|
  {
    run == [] || (Enabled(s, run[0]) && KeyIsQuiet(s, run[0]) && IsRun(Next(s, run[0]), run[1..]))
  }

  ghost function After(s: State, run: seq<Action>): State
    requires IsRun(s, run)
    decreases |run|
  {
    if run == [] then s else After(Next(s, run[0]), run[1..])
  }

  lemma StartInv()
    ensures Inv(Start)
  {}

  lemma {:induction false} RunInv(s: State, run: seq<Action>)
    requires Inv(s) && IsRun(s, run)
    ensures Inv(After(s, run))
    decreases |run|
  {
    hide Inv, Enabled, Next, KeyIsQuiet;
    if run != [] {
      StepInv(s, run[0]);
      RunInv(Next(s, run[0]), run[1..]);
    }
  }

  /** On every run: no key is both pending and answered, a pending call is not complete
      and not freed, and a Recv that returned true decoded the answer to that very call,
      however often it was sent. */
  lemma ClientSafety(run: seq<Action>)
    requires IsRun(Start, run)
    ensures var s := After(Start, run);
            && s.pending.Keys !! s.archives.Keys
            && (forall k :: k in s.pending ==> Live(s, s.pending[k]) && !s.calls[s.pending[k]].complete)
            && (forall c :: c in s.calls && s.calls[c].phase.Done? ==> s.calls[c].phase.archive == Some(c))
            && (forall c :: In(s, c, Seen) ==> s.calls[c].key in s.archives && s.archives[s.calls[c].key] == c)
  {
    RunInv(Start, run);
    var s := After(Start, run);
    StateSafety(s);
  }

  lemma StateSafety(s: State)
    requires Inv(s)
    ensures s.pending.Keys !! s.archives.Keys
    ensures forall k :: k in s.pending ==> Live(s, s.pending[k]) && !s.calls[s.pending[k]].complete
    ensures forall c :: c in s.calls && s.calls[c].phase.Done? ==> s.calls[c].phase.archive == Some(c)
    ensures forall c :: In(s, c, Seen) ==> s.calls[c].key in s.archives && s.archives[s.calls[c].key] == c
  {
    forall k | k in s.pending ensures k !in s.archives && Live(s, s.pending[k]) && !s.calls[s.pending[k]].complete {
      assert StoredOk(s, s.pending, k) && StoredOk(s, s.archives, k);
      assert RecordOk(s, s.pending[k]);
      OwnKey(s, s.pending[k]);
    }
    forall c | c in s.calls ensures RecordOk(s, c) {}
  }

  /** An answer that arrives on any run completes the call it answers if that call is
      still pending, and otherwise changes nothing but the network. */
  lemma LateAnswersTouchNothing(run: seq<Action>, c: Call)
    requires IsRun(Start, run) && Enabled(After(Start, run), Receive(c))
    ensures var s := After(Start, run);
            var t := Next(s, Receive(c));
            var k := s.calls[c].key;
            if k in s.pending then
              && s.pending[k] == c && Live(s, c) && !s.calls[c].complete
              && t.calls == s.calls[c := s.calls[c].(complete := true)] && t.archives == s.archives[k := c]
            else t == s.(net := s.net - multiset{c})
  {
    RunInv(Start, run);
    var s := After(Start, run);
    var k := s.calls[c].key;
    if k in s.pending {
      AnswersItsCall(s, c);
      assert RecordOk(s, c);
    }
  }

  // ----- no call is stuck -----

  /** How far an unfinished call is from its end, if its thread and a server go on. */
  function Rank(s: State, c: Call): nat
    requires c in s.calls
  {
    match s.calls[c].phase
    case Seen => 0
    case Waiting => if s.calls[c].complete then 1 else if c in s.asked then 2 else 6
    case Registered => 3
    case Cleared => 4
    case Erased => 5
    case Shm => 6
    case _ => 7
  }

  ghost predicate Finishes(s: State, c: Call, run: seq<Action>) {
    IsRun(s, run) && In(After(s, run), c, Done(Some(c)))
  }

  /** The next action on the way. */
  function NextOnTheWay(s: State, c: Call): Action
    requires c in s.calls
  {
    match s.calls[c].phase
    case Seen => Decode(c)
    case Waiting => if s.calls[c].complete then See(c) else Erase(c)
    case Registered => Post(c)
    case Cleared => Register(c)
    case Erased => Clear(c)
    case Shm => Erase(c)
    case _ => WaitAgain(c)
  }

  /** A server answers a call that waits, and the answer arrives. */
  lemma IsAnswered(s: State, c: Call)
    requires Inv(s) && In(s, c, Waiting) && !s.calls[c].complete && c in s.asked
    ensures Enabled(s, Answer(c)) && Enabled(Next(s, Answer(c)), Receive(c))
    ensures var t := Next(Next(s, Answer(c)), Receive(c)); In(t, c, Waiting) && t.calls[c].complete
  {
    assert RecordOk(s, c);
  }

  lemma GoesOn(s: State, c: Call)
    requires Inv(s) && Live(s, c) && !s.calls[c].phase.Done? && Rank(s, c) != 2
    ensures var a := NextOnTheWay(s, c);
            && Enabled(s, a) && KeyIsQuiet(s, a) && c in Next(s, a).calls
            && if s.calls[c].phase.Seen? then Next(s, a).calls[c].phase == Done(Some(c))
               else Live(Next(s, a), c) && !Next(s, a).calls[c].phase.Done? && Rank(Next(s, a), c) < Rank(s, c)
  {
    assert RecordOk(s, c);
  }

  lemma {:induction false} CanFinish(s: State, c: Call) returns (run: seq<Action>)
    requires Inv(s) && Live(s, c) && !s.calls[c].phase.Done?
    ensures Finishes(s, c, run)
    decreases Rank(s, c)
  {
    hide Inv, Enabled, Next, KeyIsQuiet;
    if Rank(s, c) == 2 {
      IsAnswered(s, c);
      var s1 := Next(s, Answer(c));
      StartsNone(s, Answer(c));
      StartsNone(s1, Receive(c));
      StepInv(s, Answer(c));
      StepInv(s1, Receive(c));
      run := CanFinish(Next(s1, Receive(c)), c);
      run := Prepend(s1, Receive(c), run);
      run := Prepend(s, Answer(c), run);
    } else {
      var a := NextOnTheWay(s, c);
      GoesOn(s, c);
      run := [];
      if !s.calls[c].phase.Seen? {
        StepInv(s, a);
        run := CanFinish(Next(s, a), c);
      }
      run := Prepend(s, a, run);
    }
  }

  lemma StartsNone(s: State, a: Action)
    requires !a.Send? && !a.SendShm?
    ensures KeyIsQuiet(s, a)
  {}

  /** Whatever has been lost, answered late or given up on any run: a call that is not finished
      can still be, with the answer to itself, waiting on or being resent. */
  lemma NoCallIsStuck(run: seq<Action>, c: Call) returns (more: seq<Action>)
    requires IsRun(Start, run) && Live(After(Start, run), c) && !After(Start, run).calls[c].phase.Done?
    ensures IsRun(After(Start, run), more) && In(After(After(Start, run), more), c, Done(Some(c)))
  {
    hide Inv, IsRun, After;
    StartInv();
    RunInv(Start, run);
    more := CanFinish(After(Start, run), c);
  }

  // ----- reusing an address -----

  /** Every Recv that returned true decoded the answer to its own call. */
  ghost predicate OwnAnswers(s: State) {
    forall c :: c in s.calls && s.calls[c].phase.Done? ==> s.calls[c].phase.archive == Some(c)
  }

  lemma Prepend(s: State, a: Action, run: seq<Action>) returns (longer: seq<Action>)
    requires Enabled(s, a) && KeyIsQuiet(s, a) && IsRun(Next(s, a), run)
    ensures IsRun(s, longer) && After(s, longer) == After(Next(s, a), run)
  {
    hide Enabled, KeyIsQuiet, Next;
    longer := [a] + run;
    assert longer[0] == a && longer[1..] == run;
  }

  /** `d` is pending under a key for which an earlier call `e` may still be answered. */
  predicate Endangered(s: State, d: Call, e: Call) {
    && In(s, d, Registered) && s.calls[d].key in s.pending && s.pending[s.calls[d].key] == d
    && e in s.calls && e != d && s.calls[e].key == s.calls[d].key && MayAnswer(s, e)
  }

  /** The late answer completes `d`, whose Recv then decodes it. */
  lemma DecodesStranger(s: State, d: Call, e: Call) returns (run: seq<Action>)
    requires Endangered(s, d, e)
    ensures IsRun(s, run) && !OwnAnswers(After(s, run))
  {
    var s1 := Next(s, Post(d));
    if e in s1.net {
      run := ReceivesStranger(s1, d, e);
    } else {
      run := ReceivesStranger(Next(s1, Answer(e)), d, e);
      run := Prepend(s1, Answer(e), run);
    }
    run := Prepend(s, Post(d), run);
  }

  lemma ReceivesStranger(s: State, d: Call, e: Call) returns (run: seq<Action>)
    requires In(s, d, Waiting) && s.calls[d].key in s.pending && s.pending[s.calls[d].key] == d
    requires e in s.calls && e != d && s.calls[e].key == s.calls[d].key && e in s.net
    ensures IsRun(s, run) && !OwnAnswers(After(s, run))
  {
    var s1 := Next(s, Receive(e));
    var s2 := Next(s1, See(d));
    var s3 := Next(s2, Decode(d));
    assert s3.calls[d].phase == Done(Some(e));
    run := Prepend(s2, Decode(d), []);
    run := Prepend(s1, See(d), run);
    run := Prepend(s, Receive(e), run);
  }

  /** A call sent through shared memory is registered when it is resent. */
  lemma ResentDecodesStranger(s: State, d: Call, e: Call) returns (run: seq<Action>)
    requires In(s, d, Shm) && e in s.calls && e != d && s.calls[e].key == s.calls[d].key && MayAnswer(s, e)
    ensures IsRun(s, run) && !OwnAnswers(After(s, run))
  {
    var s1 := Next(s, Erase(d));
    var s2 := Next(s1, Clear(d));
    var s3 := Next(s2, Register(d));
    run := DecodesStranger(s3, d, e);
    run := Prepend(s2, Register(d), run);
    run := Prepend(s1, Clear(d), run);
    run := Prepend(s, Erase(d), run);
  }

  lemma AlwaysOwn(s: State)
    requires Inv(s)
    ensures forall run :: IsRun(s, run) ==> OwnAnswers(After(s, run))
  {
    forall run | IsRun(s, run) ensures OwnAnswers(After(s, run)) {
      RunInv(s, run);
      StateSafety(After(s, run));
    }
  }

  /** In any reachable state, letting a new call use a task's address as its key: however
      the protocol goes on, every Recv that returns true has decoded the answer to its own
      call, if and only if no server may still answer an earlier call with that key and no
      such answer is under way. */
  lemma ReuseIsSafeIff(run: seq<Action>, a: Action)
    requires IsRun(Start, run) && Starts(a) && Enabled(After(Start, run), a)
    ensures var s := After(Start, run);
            (forall more :: IsRun(Next(s, a), more) ==> OwnAnswers(After(Next(s, a), more))) <==> KeyIsQuiet(s, a)
  {
    hide Inv, IsRun, After, OwnAnswers, KeyIsQuiet;
    StartInv();
    RunInv(Start, run);
    var s := After(Start, run);
    if KeyIsQuiet(s, a) {
      StepInv(s, a);
      AlwaysOwn(Next(s, a));
    } else {
      var e := Loud(s, a);
      NewCallApart(s, a, e);
      var more: seq<Action>;
      if a.Send? {
        more := DecodesStranger(Next(s, a), a.c, e);
      } else {
        more := ResentDecodesStranger(Next(s, a), a.c, e);
      }
    }
  }

  lemma Loud(s: State, a: Action) returns (e: Call)
    requires Starts(a) && !KeyIsQuiet(s, a)
    ensures e in s.calls && s.calls[e].key == a.k && MayAnswer(s, e)
  {
    e :| e in s.calls && s.calls[e].key == a.k && (e in s.asked || e in s.net);
  }

  lemma NewCallApart(s: State, a: Action, e: Call)
    requires Starts(a) && Enabled(s, a) && e in s.calls && s.calls[e].key == a.k && MayAnswer(s, e)
    ensures var t := Next(s, a);
            if a.Send? then Endangered(t, a.c, e)
            else In(t, a.c, Shm) && e in t.calls && e != a.c && t.calls[e].key == t.calls[a.c].key && MayAnswer(t, e)
  {}
}
