/** The refreshable API client: API calls under the read lock race with credential refreshes
    under the write lock. Every action below is one atomic step of some thread. */
module RefreshableClient {
  import opened Prelude

  type Tid = nat

  /** Number of the refresh that a client, or a set of credentials, came from; 0 is none. */
  type Generation = nat

  datatype PC =
    | Idle
    // an API call; the read lock is held in all of these states
    | Reading(mutating: bool)
    | Started(start: Generation)
    | Finished(start: Generation, wait: Generation)
    // a call that takes the read lock again for its wait, which the wrappers do not do
    | AskingAgain(start: Generation)
    | HoldingTwice(start: Generation)
    | WaitedTwice(start: Generation, wait: Generation)
    // a refresh
    | Decoding
    | Loaded(gen: Generation)        // client built, no lock requested yet
    | Queued(gen: Generation)        // write lock requested: new readers are held off
    | Writing(gen: Generation)       // write lock held, nothing replaced yet
    | HalfWritten(gen: Generation)   // client replaced, credentials not yet
    | Written(gen: Generation)

  datatype Action =
    | BeginCall(mutating: bool)      // RLock
    | Issue                          // the call; for a mutating call, its start
    | Await                          // the wait inside a mutating call
    | EndCall                        // RUnlock
    | AskAgain                       // a second RLock: the thread blocks until it is granted
    | GrantAgain | AwaitTwice | LeaveInner
    | BeginRefresh | FailRefresh | Load
    | Queue | Acquire | SwapClient | SwapCredentials
    | Release

  datatype State = State(exo: Generation, credentials: Generation, next: Generation,
                         readers: set<Tid>, writer: Option<Tid>, threads: map<Tid, PC>)

  function PcOf(s: State, t: Tid): PC {
    if t in s.threads then s.threads[t] else Idle
  }

  function At(s: State, t: Tid, pc: PC): State {
    s.(threads := s.threads[t := pc])
  }

  /** The state after thread `t` takes the action, if the action is possible there. A read
      lock is granted only while no writer holds or awaits the lock. */
  function Fire(s: State, t: Tid, a: Action): Option<State> {
    var pc := PcOf(s, t);
    match a
    case BeginCall(mutating) =>
      if pc.Idle? && s.writer.None? then Some(At(s, t, Reading(mutating)).(readers := s.readers + {t})) else None
    case Issue =>
      if pc.Reading? then Some(At(s, t, if pc.mutating then Started(s.exo) else Finished(s.exo, s.exo))) else None
    case Await =>
      if pc.Started? then Some(At(s, t, Finished(pc.start, s.exo))) else None
    case EndCall =>
      if pc.Finished? then Some(At(s, t, Idle).(readers := s.readers - {t})) else None
    case AskAgain =>
      if pc.Started? then Some(At(s, t, AskingAgain(pc.start))) else None
    case GrantAgain =>
      if pc.AskingAgain? && s.writer.None? then Some(At(s, t, HoldingTwice(pc.start))) else None
    case AwaitTwice =>
      if pc.HoldingTwice? then Some(At(s, t, WaitedTwice(pc.start, s.exo))) else None
    case LeaveInner =>
      if pc.WaitedTwice? then Some(At(s, t, Finished(pc.start, pc.wait))) else None
    case BeginRefresh =>
      if pc.Idle? then Some(At(s, t, Decoding)) else None
    case FailRefresh =>
      if pc.Decoding? then Some(At(s, t, Idle)) else None
    case Load =>
      if pc.Decoding? then Some(At(s, t, Loaded(s.next)).(next := s.next + 1)) else None
    case Queue =>
      if pc.Loaded? && s.writer.None? then Some(At(s, t, Queued(pc.gen)).(writer := Some(t))) else None
    case Acquire =>
      if pc.Queued? && s.readers == {} then Some(At(s, t, Writing(pc.gen))) else None
    case SwapClient =>
      if pc.Writing? then Some(At(s, t, HalfWritten(pc.gen)).(exo := pc.gen)) else None
    case SwapCredentials =>
      if pc.HalfWritten? then Some(At(s, t, Written(pc.gen)).(credentials := pc.gen)) else None
    case Release =>
      if pc.Written? then Some(At(s, t, Idle).(writer := None)) else None
  }

  predicate HoldsRead(pc: PC) {
    pc.Reading? || pc.Started? || pc.Finished? || UsesAgain(pc)
  }

  /** In the middle of taking the read lock a second time, or holding it twice. */
  predicate UsesAgain(pc: PC) {
    pc.AskingAgain? || pc.HoldingTwice? || pc.WaitedTwice?
  }

  /** The client an operation in flight was started on. */
  predicate InFlight(pc: PC) {
    pc.Started? || pc.AskingAgain? || pc.HoldingTwice?
  }

  predicate HasWaited(pc: PC) {
    pc.Finished? || pc.WaitedTwice?
  }

  predicate HasQueued(pc: PC) {
    pc.Queued? || pc.Writing? || pc.HalfWritten? || pc.Written?
  }

  /** The lock is accounted for, and readers and an active writer exclude each other. */
  ghost predicate LockAccounted(s: State) {
    && (forall t :: t in s.readers <==> HoldsRead(PcOf(s, t)))
    && (forall t: Tid :: s.writer == Some(t) <==> HasQueued(PcOf(s, t)))
    && (s.writer.Some? && !PcOf(s, s.writer.value).Queued? ==> s.readers == {})
  }

  /** Operations in flight run on the current client, and waits on the client that started them. */
  ghost predicate OneClientPerCall(s: State) {
    && (forall t :: InFlight(PcOf(s, t)) ==> PcOf(s, t).start == s.exo)
    && (forall t :: HasWaited(PcOf(s, t)) ==> PcOf(s, t).start == PcOf(s, t).wait)
  }

  /** Client and credentials come from one refresh, except half-way through a write. */
  ghost predicate Paired(s: State) {
    && (if s.writer.Some? && PcOf(s, s.writer.value).HalfWritten?
        then s.exo == PcOf(s, s.writer.value).gen
        else s.exo == s.credentials)
    && (s.writer.Some? && PcOf(s, s.writer.value).Written? ==> s.exo == PcOf(s, s.writer.value).gen)
  }

  ghost predicate Invariant(s: State) {
    LockAccounted(s) && OneClientPerCall(s) && Paired(s)
  }

  /** A client that holds the generation it was built with, every thread idle. */
  predicate Initial(s: State) {
    s.exo == s.credentials && s.readers == {} && s.writer.None? && s.threads == map[] && s.next > s.exo
  }

  lemma OthersStay(s: State, t: Tid, a: Action, u: Tid)
    requires Fire(s, t, a).Some? && u != t
    ensures PcOf(Fire(s, t, a).value, u) == PcOf(s, u)
  {}

  lemma LockKept(s: State, t: Tid, a: Action)
    requires LockAccounted(s) && Fire(s, t, a).Some?
    ensures LockAccounted(Fire(s, t, a).value)
  {
    var s' := Fire(s, t, a).value;
    forall u: Tid ensures u in s'.readers <==> HoldsRead(PcOf(s', u)) {
      if u != t { OthersStay(s, t, a, u); }
    }
    forall u: Tid ensures s'.writer == Some(u) <==> HasQueued(PcOf(s', u)) {
      if u != t { OthersStay(s, t, a, u); }
    }
    assert s'.writer.Some? && !PcOf(s', s'.writer.value).Queued? ==> s'.readers == {} by {
      assert HasQueued(PcOf(s, t)) ==> s.writer == Some(t);
      if s'.writer.Some? && s'.writer.value != t { OthersStay(s, t, a, s'.writer.value); }
    }
  }

  /** The client is replaced only while nobody reads. */
  lemma SwapIsAlone(s: State, t: Tid)
    requires LockAccounted(s) && PcOf(s, t).Writing?
    ensures s.writer == Some(t) && s.readers == {} && forall u :: !HoldsRead(PcOf(s, u))
  {
    assert HasQueued(PcOf(s, t));
    forall u ensures !HoldsRead(PcOf(s, u)) { assert HoldsRead(PcOf(s, u)) ==> u in s.readers; }
  }

  lemma CallsKept(s: State, t: Tid, a: Action)
    requires LockAccounted(s) && OneClientPerCall(s) && Fire(s, t, a).Some?
    ensures OneClientPerCall(Fire(s, t, a).value)
  {
    if a.SwapClient? { SwapIsAlone(s, t); }
    forall u
      ensures var pc, s' := PcOf(Fire(s, t, a).value, u), Fire(s, t, a).value;
              (InFlight(pc) ==> pc.start == s'.exo) && (HasWaited(pc) ==> pc.start == pc.wait)
    {
      if u != t { OthersStay(s, t, a, u); }
    }
  }

  lemma PairKept(s: State, t: Tid, a: Action)
    requires LockAccounted(s) && Paired(s) && Fire(s, t, a).Some?
    ensures Paired(Fire(s, t, a).value)
  {
    assert HasQueued(PcOf(s, t)) ==> s.writer == Some(t);
    if s.writer.Some? && s.writer.value != t { OthersStay(s, t, a, s.writer.value); }
  }

  lemma StepKeepsInvariant(s: State, t: Tid, a: Action)
    requires Invariant(s) && Fire(s, t, a).Some?
    ensures Invariant(Fire(s, t, a).value)
  {
    LockKept(s, t, a);
    CallsKept(s, t, a);
    PairKept(s, t, a);
  }

  datatype Move = Move(thread: Tid, action: Action)

  /** An interleaving that is possible from `s`, step by step. */
  predicate Possible(s: State, moves: seq<Move>)
    decreases |moves|
  {
    moves == []
    || (Fire(s, moves[0].thread, moves[0].action).Some?
        && Possible(Fire(s, moves[0].thread, moves[0].action).value, moves[1..]))
  }

  function Play(s: State, moves: seq<Move>): State
    requires Possible(s, moves)
    decreases |moves|
  {
    if moves == [] then s else Play(Fire(s, moves[0].thread, moves[0].action).value, moves[1..])
  }

  /** The moves of a schedule that are possible when their turn comes. */
  function Feasible(s: State, schedule: seq<Move>): seq<Move>
    decreases |schedule|
  {
    if schedule == [] then []
    else
      var next := Fire(s, schedule[0].thread, schedule[0].action);
      if next.Some? then [schedule[0]] + Feasible(next.value, schedule[1..]) else Feasible(s, schedule[1..])
  }

  /** A possible interleaving is played as it stands. */
  lemma {:induction false} PossibleIsFeasible(s: State, moves: seq<Move>)
    requires Possible(s, moves)
    ensures Feasible(s, moves) == moves
    decreases |moves|
  {
    if moves != [] { PossibleIsFeasible(Fire(s, moves[0].thread, moves[0].action).value, moves[1..]); }
  }

  lemma {:induction false} PlayOneMore(s: State, moves: seq<Move>, m: Move)
    requires Possible(s, moves) && Fire(Play(s, moves), m.thread, m.action).Some?
    ensures Possible(s, moves + [m])
    ensures Play(s, moves + [m]) == Fire(Play(s, moves), m.thread, m.action).value
    decreases |moves|
  {
    if moves == [] {
      assert [] + [m] == [m] && [m][1..] == [];
    } else {
      assert (moves + [m])[1..] == moves[1..] + [m];
      PlayOneMore(Fire(s, moves[0].thread, moves[0].action).value, moves[1..], m);
    }
  }

  lemma {:induction false} AlwaysInvariant(s: State, moves: seq<Move>)
    requires Invariant(s) && Possible(s, moves)
    ensures Invariant(Play(s, moves))
    decreases |moves|
  {
    if moves != [] {
      StepKeepsInvariant(s, moves[0].thread, moves[0].action);
      AlwaysInvariant(Fire(s, moves[0].thread, moves[0].action).value, moves[1..]);
    }
  }

  /** In every interleaving: the wait of a mutating call runs on the client that started the
      operation; whoever holds the read lock finds client and credentials of one refresh, and
      so does anyone while no writer holds the lock; readers and writers never overlap. */
  lemma RefreshProtocol(s: State, moves: seq<Move>)
    requires Initial(s) && Possible(s, moves)
    ensures var r := Play(s, moves);
            && (forall t :: HasWaited(PcOf(r, t)) ==> PcOf(r, t).start == PcOf(r, t).wait)
            && (forall t :: HoldsRead(PcOf(r, t)) ==> r.exo == r.credentials)
            && (r.exo != r.credentials ==> r.writer.Some? && PcOf(r, r.writer.value).HalfWritten? && r.readers == {})
            && (forall t: Tid, u: Tid :: HoldsRead(PcOf(r, t)) ==>
                  !PcOf(r, u).Writing? && !PcOf(r, u).HalfWritten? && !PcOf(r, u).Written?)
  {
    assert Invariant(s);
    AlwaysInvariant(s, moves);
    var r := Play(s, moves);
    forall t: Tid, u: Tid | HoldsRead(PcOf(r, t))
      ensures !PcOf(r, u).Writing? && !PcOf(r, u).HalfWritten? && !PcOf(r, u).Written?
    {
      assert t in r.readers;
      assert HasQueued(PcOf(r, u)) ==> r.writer == Some(u);
    }
  }

  /** A refresh that fails changes neither the client nor the credentials: only a thread that
      holds the write lock ever replaces them, and it replaces both by those it loaded. */
  lemma OnlyWritersReplace(s: State, t: Tid, a: Action)
    requires Invariant(s) && Fire(s, t, a).Some?
    ensures var r := Fire(s, t, a).value;
            && (r.exo != s.exo ==> a == SwapClient && s.writer == Some(t) && s.readers == {} && r.exo == PcOf(s, t).gen)
            && (r.credentials != s.credentials ==>
                  a == SwapCredentials && s.writer == Some(t) && r.credentials == PcOf(s, t).gen == s.exo)
            && (a == FailRefresh ==> r.exo == s.exo && r.credentials == s.credentials && r.writer == s.writer)
  {
    if a.SwapClient? || a.SwapCredentials? { assert HasQueued(PcOf(s, t)); }
  }

  // ----- A refresh takes effect --------------------------------------------------------------

  /** A client has been built and not installed yet. */
  predicate Pending(pc: PC) {
    pc.Loaded? || pc.Queued? || pc.Writing?
  }

  /** The generation that a thread of the refresh, or a call, has to do with. */
  function Mentions(pc: PC): set<Generation> {
    match pc
    case Started(g) => {g}
    case AskingAgain(g) => {g}
    case HoldingTwice(g) => {g}
    case Finished(g, h) => {g, h}
    case WaitedTwice(g, h) => {g, h}
    case Loaded(g) => {g}
    case Queued(g) => {g}
    case Writing(g) => {g}
    case HalfWritten(g) => {g}
    case Written(g) => {g}
    case _ => {}
  }

  /** All generations that were ever installed, up to the end of the interleaving. */
  function Installed(s: State, moves: seq<Move>): set<Generation>
    requires Possible(s, moves)
    decreases |moves|
  {
    {s.exo} + if moves == [] then {} else Installed(Fire(s, moves[0].thread, moves[0].action).value, moves[1..])
  }

  /** Every generation in use is below the next one; the pending ones differ from each other and
      from all that were installed before. */
  ghost predicate Numbered(s: State, past: set<Generation>) {
    && s.exo < s.next && s.credentials < s.next && (forall g | g in past :: g < s.next)
    && (forall t, g | g in Mentions(PcOf(s, t)) :: g < s.next)
    && (forall t | Pending(PcOf(s, t)) :: PcOf(s, t).gen !in past)
    && (forall t: Tid, u: Tid | t != u && Pending(PcOf(s, t)) && Pending(PcOf(s, u)) :: PcOf(s, t).gen != PcOf(s, u).gen)
  }

  lemma OwnMention(pc: PC)
    ensures Pending(pc) ==> pc.gen in Mentions(pc)
  {}

  lemma NumbersGrow(s: State, past: set<Generation>, t: Tid, a: Action, u: Tid)
    requires Numbered(s, past) && Fire(s, t, a).Some?
    ensures var s' := Fire(s, t, a).value;
            && s.next <= s'.next && s'.exo < s'.next && s'.credentials < s'.next
            && forall g | g in Mentions(PcOf(s', u)) :: g < s'.next
  {
    if u != t { OthersStay(s, t, a, u); }
    assert forall g | g in Mentions(PcOf(s, t)) :: g < s.next;
    assert forall g | g in Mentions(PcOf(s, u)) :: g < s.next;
    match PcOf(s, t)
    case Writing(g) => assert g in Mentions(PcOf(s, t));
    case HalfWritten(g) => assert g in Mentions(PcOf(s, t));
    case _ =>
  }

  /** A pending refresh either was pending with the same generation, or has just loaded the next. */
  lemma PendingFrom(s: State, t: Tid, a: Action, u: Tid)
    requires Fire(s, t, a).Some? && Pending(PcOf(Fire(s, t, a).value, u))
    ensures var pc, pc' := PcOf(s, u), PcOf(Fire(s, t, a).value, u);
            if u == t && a == Load then pc'.gen == s.next else Pending(pc) && pc'.gen == pc.gen
  {
    if u != t { OthersStay(s, t, a, u); }
  }

  lemma PendingDiffer(s: State, past: set<Generation>, t: Tid, a: Action, u: Tid, v: Tid)
    requires Numbered(s, past) && Fire(s, t, a).Some? && u != v
    requires Pending(PcOf(Fire(s, t, a).value, u)) && Pending(PcOf(Fire(s, t, a).value, v))
    ensures PcOf(Fire(s, t, a).value, u).gen != PcOf(Fire(s, t, a).value, v).gen
  {
    PendingFrom(s, t, a, u);
    PendingFrom(s, t, a, v);
    OwnMention(PcOf(s, u));
    OwnMention(PcOf(s, v));
  }

  /** A pending generation was not installed so far, and is not what the step installs. */
  lemma PendingNew(s: State, past: set<Generation>, t: Tid, a: Action, u: Tid)
    requires Numbered(s, past) && s.exo in past && Fire(s, t, a).Some? && Pending(PcOf(Fire(s, t, a).value, u))
    ensures PcOf(Fire(s, t, a).value, u).gen !in past + {Fire(s, t, a).value.exo}
  {
    PendingFrom(s, t, a, u);
    if a.SwapClient? {
      assert Pending(PcOf(s, t)) && u != t;
    }
  }

  lemma NumberedKept(s: State, past: set<Generation>, t: Tid, a: Action)
    requires Numbered(s, past) && s.exo in past && Fire(s, t, a).Some?
    ensures Numbered(Fire(s, t, a).value, past + {Fire(s, t, a).value.exo})
  {
    var s' := Fire(s, t, a).value;
    NumbersGrow(s, past, t, a, t);
    forall u: Tid
      ensures forall g | g in Mentions(PcOf(s', u)) :: g < s'.next
      ensures Pending(PcOf(s', u)) ==> PcOf(s', u).gen !in past + {s'.exo}
    {
      NumbersGrow(s, past, t, a, u);
      if Pending(PcOf(s', u)) { PendingNew(s, past, t, a, u); }
    }
    forall u: Tid, v: Tid | u != v && Pending(PcOf(s', u)) && Pending(PcOf(s', v))
      ensures PcOf(s', u).gen != PcOf(s', v).gen
    {
      PendingDiffer(s, past, t, a, u, v);
    }
  }

  lemma {:induction false} AlwaysNumbered(s: State, past: set<Generation>, moves: seq<Move>)
    requires Possible(s, moves) && Numbered(s, past) && s.exo in past
    ensures Play(s, moves).exo in Installed(s, moves)
    ensures Numbered(Play(s, moves), past + Installed(s, moves))
    decreases |moves|
  {
    if moves == [] {
      assert past + Installed(s, moves) == past;
    } else {
      var s' := Fire(s, moves[0].thread, moves[0].action).value;
      NumberedKept(s, past, moves[0].thread, moves[0].action);
      AlwaysNumbered(s', past + {s'.exo}, moves[1..]);
      InstalledStarts(s', moves[1..]);
      assert past + {s'.exo} + Installed(s', moves[1..]) == past + Installed(s, moves);
    }
  }

  lemma InstalledStarts(s: State, moves: seq<Move>)
    requires Possible(s, moves)
    ensures s.exo in Installed(s, moves)
  {}

  lemma NumberedAfter(s: State, moves: seq<Move>)
    requires Initial(s) && Possible(s, moves)
    ensures Numbered(Play(s, moves), Installed(s, moves))
  {
    AlwaysNumbered(s, {s.exo}, moves);
    InstalledStarts(s, moves);
    assert {s.exo} + Installed(s, moves) == Installed(s, moves);
  }

  /** A refresh loads a generation that was never in use: not installed, and known to no thread. */
  lemma LoadIsNew(s: State, moves: seq<Move>, t: Tid)
    requires Initial(s) && Possible(s, moves) && Fire(Play(s, moves), t, Load).Some?
    ensures var r := Play(s, moves);
            && PcOf(Fire(r, t, Load).value, t).Loaded?
            && PcOf(Fire(r, t, Load).value, t).gen !in Installed(s, moves)
            && PcOf(Fire(r, t, Load).value, t).gen !in {r.exo, r.credentials}
            && forall u :: PcOf(Fire(r, t, Load).value, t).gen !in Mentions(PcOf(r, u))
  {
    NumberedAfter(s, moves);
  }

  /** Replacing the client always changes it, to one that was never installed before. */
  lemma SwapInstallsNew(s: State, moves: seq<Move>, t: Tid)
    requires Initial(s) && Possible(s, moves) && Fire(Play(s, moves), t, SwapClient).Some?
    ensures Fire(Play(s, moves), t, SwapClient).value.exo !in Installed(s, moves)
    ensures Fire(Play(s, moves), t, SwapClient).value.exo != Play(s, moves).exo
  {
    NumberedAfter(s, moves);
    AlwaysNumbered(s, {s.exo}, moves);
    assert Pending(PcOf(Play(s, moves), t));
  }

  /** The thread is in the middle of the refresh that loaded `g`. */
  predicate Refreshes(pc: PC, g: Generation) {
    pc == Loaded(g) || pc == Queued(g) || pc == Writing(g) || pc == HalfWritten(g) || pc == Written(g)
  }

  lemma {:induction false} RefreshGoesOn(s: State, moves: seq<Move>, t: Tid, g: Generation)
    requires Possible(s, moves) && Refreshes(PcOf(s, t), g) && Move(t, Release) !in moves
    ensures Refreshes(PcOf(Play(s, moves), t), g)
    decreases |moves|
  {
    if moves != [] {
      var m := moves[0];
      assert m in moves && forall n | n in moves[1..] :: n in moves;
      if m.thread != t { OthersStay(s, m.thread, m.action, t); }
      RefreshGoesOn(Fire(s, m.thread, m.action).value, moves[1..], t, g);
    }
  }

  /** A refresh takes effect: when it releases the lock, client and credentials are those that it
      loaded itself, whatever other refreshes did in the meantime. */
  lemma RefreshTakesEffect(s: State, before: seq<Move>, t: Tid, after: seq<Move>)
    requires Initial(s) && Possible(s, before) && Fire(Play(s, before), t, Load).Some?
    requires Possible(Fire(Play(s, before), t, Load).value, after) && Move(t, Release) !in after
    requires Fire(Play(Fire(Play(s, before), t, Load).value, after), t, Release).Some?
    ensures var loaded := Fire(Play(s, before), t, Load).value;
            var r := Fire(Play(loaded, after), t, Release).value;
            && PcOf(loaded, t).Loaded? && r.exo == r.credentials == PcOf(loaded, t).gen
            && r.exo !in Installed(s, before) && r.writer.None?
  {
    assert Invariant(s);
    AlwaysInvariant(s, before);
    LoadIsNew(s, before, t);
    var loaded := Fire(Play(s, before), t, Load).value;
    StepKeepsInvariant(Play(s, before), t, Load);
    AlwaysInvariant(loaded, after);
    RefreshGoesOn(loaded, after, t, PcOf(loaded, t).gen);
    assert HasQueued(PcOf(Play(loaded, after), t));
  }

  /** A call is issued, and waits, on the client that is installed at that moment. */
  lemma CallsRunOnCurrent(s: State, t: Tid, a: Action)
    requires Fire(s, t, a).Some? && (a == Issue || a == Await || a == AwaitTwice)
    ensures var pc := PcOf(Fire(s, t, a).value, t);
            && (a == Issue && PcOf(s, t).mutating ==> pc == Started(s.exo))
            && (a == Issue && !PcOf(s, t).mutating ==> pc == Finished(s.exo, s.exo))
            && (a != Issue ==> HasWaited(pc) && pc.wait == s.exo && pc.start == PcOf(s, t).start)
  {}

  /** While a writer waits no reader joins, so that those ahead of it only grow fewer. */
  lemma {:induction false} WriterIsServed(s: State, moves: seq<Move>, u: Tid)
    requires Invariant(s) && Possible(s, moves) && PcOf(s, u).Queued? && Move(u, Acquire) !in moves
    ensures PcOf(Play(s, moves), u).Queued? && Play(s, moves).readers <= s.readers
    decreases |moves|
  {
    if moves != [] {
      var m := moves[0];
      assert m in moves && forall n | n in moves[1..] :: n in moves;
      assert HasQueued(PcOf(s, u)) && s.writer == Some(u);
      if m.thread != u { OthersStay(s, m.thread, m.action, u); }
      StepKeepsInvariant(s, m.thread, m.action);
      WriterIsServed(Fire(s, m.thread, m.action).value, moves[1..], u);
    }
  }

  // ----- The read lock must not be taken twice ----------------------------------------------

  /** The discipline of the wrappers: the wait of a call runs under the lock the call holds. */
  predicate LocksOnce(moves: seq<Move>) {
    forall m | m in moves :: !m.action.AskAgain?
  }

  ghost predicate NobodyTwice(s: State) {
    forall t :: !UsesAgain(PcOf(s, t))
  }

  lemma {:induction false} NobodyTwiceAlong(s: State, moves: seq<Move>)
    requires Possible(s, moves) && LocksOnce(moves) && NobodyTwice(s)
    ensures NobodyTwice(Play(s, moves))
    decreases |moves|
  {
    if moves != [] {
      var m, s' := moves[0], Fire(s, moves[0].thread, moves[0].action).value;
      assert m in moves;
      forall t ensures !UsesAgain(PcOf(s', t)) {
        assert !UsesAgain(PcOf(s, m.thread)) && (t == m.thread || PcOf(s', t) == PcOf(s, t));
      }
      NobodyTwiceAlong(s', moves[1..]);
    }
  }

  /** Interleavings of calls that take the read lock once never get stuck: as long as some
      thread is in the middle of something, some such thread can take a step, and without
      taking the read lock twice. */
  lemma NeverStuck(s: State, moves: seq<Move>)
    requires Initial(s) && Possible(s, moves) && LocksOnce(moves)
    requires exists t :: !PcOf(Play(s, moves), t).Idle?
    ensures exists t, a: Action ::
              !PcOf(Play(s, moves), t).Idle? && !a.AskAgain? && Fire(Play(s, moves), t, a).Some?
  {
    assert Invariant(s);
    AlwaysInvariant(s, moves);
    NobodyTwiceAlong(s, moves);
    CanMove(Play(s, moves));
  }

  lemma CanMove(s: State)
    requires Invariant(s) && NobodyTwice(s)
    requires exists t :: !PcOf(s, t).Idle?
    ensures exists t, a: Action :: !PcOf(s, t).Idle? && !a.AskAgain? && Fire(s, t, a).Some?
  {
    if t :| t in s.readers {
      assert HoldsRead(PcOf(s, t)) && !UsesAgain(PcOf(s, t));
      match PcOf(s, t)
      case Reading(_) => assert Fire(s, t, Issue).Some?;
      case Started(_) => assert Fire(s, t, Await).Some?;
      case Finished(_, _) => assert Fire(s, t, EndCall).Some?;
    } else if s.writer.Some? {
      var w := s.writer.value;
      assert HasQueued(PcOf(s, w));
      match PcOf(s, w)
      case Queued(_) => assert Fire(s, w, Acquire).Some?;
      case Writing(_) => assert Fire(s, w, SwapClient).Some?;
      case HalfWritten(_) => assert Fire(s, w, SwapCredentials).Some?;
      case Written(_) => assert Fire(s, w, Release).Some?;
    } else {
      var t :| !PcOf(s, t).Idle?;
      assert !HoldsRead(PcOf(s, t)) && !HasQueued(PcOf(s, t));
      match PcOf(s, t)
      case Decoding => assert Fire(s, t, FailRefresh).Some?;
      case Loaded(_) => assert Fire(s, t, Queue).Some?;
    }
  }

  /** Reader `t` asks for the lock it holds while writer `u` waits for it. */
  ghost predicate Deadlocked(s: State, t: Tid, u: Tid) {
    PcOf(s, t).AskingAgain? && PcOf(s, u).Queued?
  }

  ghost predicate CannotMove(s: State, t: Tid) {
    forall a: Action :: Fire(s, t, a).None?
  }

  lemma DeadlockKept(s: State, t: Tid, u: Tid, v: Tid, a: Action)
    requires Invariant(s) && Deadlocked(s, t, u)
    ensures CannotMove(s, t) && CannotMove(s, u)
    ensures Fire(s, v, a).Some? ==> Deadlocked(Fire(s, v, a).value, t, u)
  {
    assert HoldsRead(PcOf(s, t)) && HasQueued(PcOf(s, u));
    assert t in s.readers && s.writer == Some(u);
  }

  /** A thread that asks for the read lock again while a writer is queued stands still for
      ever, and so does the writer: in every continuation neither can take any step. */
  lemma {:induction false} AskingTwiceDeadlocks(s: State, moves: seq<Move>, t: Tid, u: Tid)
    requires Invariant(s) && Possible(s, moves) && Deadlocked(s, t, u)
    ensures var r := Play(s, moves); Deadlocked(r, t, u) && CannotMove(r, t) && CannotMove(r, u)
    decreases |moves|
  {
    if moves == [] {
      DeadlockKept(s, t, u, t, AskAgain);
    } else {
      var m := moves[0];
      DeadlockKept(s, t, u, m.thread, m.action);
      StepKeepsInvariant(s, m.thread, m.action);
      AskingTwiceDeadlocks(Fire(s, m.thread, m.action).value, moves[1..], t, u);
    }
  }

  lemma Prepended(s: State, m: Move, rest: seq<Move>)
    requires Fire(s, m.thread, m.action).Some? && Possible(Fire(s, m.thread, m.action).value, rest)
    ensures Possible(s, [m] + rest)
    ensures Play(s, [m] + rest) == Play(Fire(s, m.thread, m.action).value, rest)
  {
    assert ([m] + rest)[1..] == rest;
  }

  /** Such a state is reached from every initial one: a mutating call starts, a refresh asks for the
      lock, and the call asks again. */
  lemma DeadlockReachable(s: State) returns (moves: seq<Move>)
    requires Initial(s)
    ensures Possible(s, moves) && Deadlocked(Play(s, moves), 0, 1)
  {
    var s1 := Fire(s, 0, BeginCall(true)).value;
    var s2 := Fire(s1, 0, Issue).value;
    var s3 := Fire(s2, 1, BeginRefresh).value;
    var s4 := Fire(s3, 1, Load).value;
    var s5 := Fire(s4, 1, Queue).value;
    var s6 := Fire(s5, 0, AskAgain).value;
    assert Play(s6, []) == s6 && Deadlocked(s6, 0, 1);
    moves := [Move(0, AskAgain)] + [];
    Prepended(s5, Move(0, AskAgain), []);
    Prepended(s4, Move(1, Queue), moves);
    moves := [Move(1, Queue)] + moves;
    Prepended(s3, Move(1, Load), moves);
    moves := [Move(1, Load)] + moves;
    Prepended(s2, Move(1, BeginRefresh), moves);
    moves := [Move(1, BeginRefresh)] + moves;
    Prepended(s1, Move(0, Issue), moves);
    moves := [Move(0, Issue)] + moves;
    Prepended(s, Move(0, BeginCall(true)), moves);
    moves := [Move(0, BeginCall(true))] + moves;
  }

  /** The client object: two fields, the lock, and where its threads stand. */
  class Client {
    var exo: Generation
    var credentials: Generation
    var next: Generation
    var readers: set<Tid>
    var writer: Option<Tid>
    var threads: map<Tid, PC>

    function Value(): State
      reads this
    {
      State(exo, credentials, next, readers, writer, threads)
    }

    constructor ()
      ensures Initial(Value())
    {
      exo, credentials, next := 0, 0, 1;
      readers, writer, threads := {}, None, map[];
    }

    method SetPc(t: Tid, pc: PC)
      modifies this`threads
      ensures Value() == At(old(Value()), t, pc)
    {
      threads := threads[t := pc];
    }

    /** One atomic step of one thread, if it is possible. */
    method Step(t: Tid, a: Action) returns (taken: bool)
      modifies this
      ensures taken <==> Fire(old(Value()), t, a).Some?
      ensures Value() == if taken then Fire(old(Value()), t, a).value else old(Value())
    {
      var pc := PcOf(Value(), t);
      taken := true;
      match a {
        case BeginCall(mutating) =>
          if !pc.Idle? || writer.Some? { return false; }
          readers := readers + {t};
          SetPc(t, Reading(mutating));
        case Issue =>
          if !pc.Reading? { return false; }
          SetPc(t, if pc.mutating then Started(exo) else Finished(exo, exo));
        case Await =>
          if !pc.Started? { return false; }
          SetPc(t, Finished(pc.start, exo));
        case EndCall =>
          if !pc.Finished? { return false; }
          readers := readers - {t};
          SetPc(t, Idle);
        case AskAgain =>
          if !pc.Started? { return false; }
          SetPc(t, AskingAgain(pc.start));
        case GrantAgain =>
          if !pc.AskingAgain? || writer.Some? { return false; }
          SetPc(t, HoldingTwice(pc.start));
        case AwaitTwice =>
          if !pc.HoldingTwice? { return false; }
          SetPc(t, WaitedTwice(pc.start, exo));
        case LeaveInner =>
          if !pc.WaitedTwice? { return false; }
          SetPc(t, Finished(pc.start, pc.wait));
        case BeginRefresh =>
          if !pc.Idle? { return false; }
          SetPc(t, Decoding);
        case FailRefresh =>
          if !pc.Decoding? { return false; }
          SetPc(t, Idle);
        case Load =>
          if !pc.Decoding? { return false; }
          SetPc(t, Loaded(next));
          next := next + 1;
        case Queue =>
          if !pc.Loaded? || writer.Some? { return false; }
          writer := Some(t);
          SetPc(t, Queued(pc.gen));
        case Acquire =>
          if !pc.Queued? || readers != {} { return false; }
          SetPc(t, Writing(pc.gen));
        case SwapClient =>
          if !pc.Writing? { return false; }
          exo := pc.gen;
          SetPc(t, HalfWritten(pc.gen));
        case SwapCredentials =>
          if !pc.HalfWritten? { return false; }
          credentials := pc.gen;
          SetPc(t, Written(pc.gen));
        case Release =>
          if !pc.Written? { return false; }
          writer := None;
          SetPc(t, Idle);
      }
    }

    /** Runs any schedule, skipping the moves that are not possible when their turn comes, and
        only those. What the object goes through is an interleaving of the protocol. */
    method Run(schedule: seq<Move>) returns (ghost taken: seq<Move>)
      modifies this
      ensures Possible(old(Value()), taken) && Value() == Play(old(Value()), taken)
      ensures taken == Feasible(old(Value()), schedule)
    {
      taken := [];
      for i := 0 to |schedule|
        invariant Possible(old(Value()), taken) && Value() == Play(old(Value()), taken)
        invariant taken + Feasible(Value(), schedule[i..]) == Feasible(old(Value()), schedule)
      {
        assert schedule[i..][0] == schedule[i] && schedule[i..][1..] == schedule[i + 1..];
        var stepped := Step(schedule[i].thread, schedule[i].action);
        if stepped {
          PlayOneMore(old(Value()), taken, schedule[i]);
          ConcatAssociative(taken, [schedule[i]], Feasible(Value(), schedule[i + 1..]));
          taken := taken + [schedule[i]];
        }
      }
      assert schedule[|schedule|..] == [];
    }
  }
}
