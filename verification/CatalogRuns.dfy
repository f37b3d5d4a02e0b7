/**
 Concurrent edits of the catalog files, with an exception or a crash of the process possible at every point.
 Whatever happens, each file is the replay of exactly the edits whose rename happened, in lock order.
 */
module CatalogRuns {
  import opened Common
  import opened Catalog

  type CallId = nat
  type Lock = nat

  /** Where a call of `add_item`, `update_item` or `delete_item` stands; `ticket` counts lock acquisitions. */
  datatype Pc =
    | Arrived
    | Waiting(lock: Lock)
    | Holding(lock: Lock, ticket: nat)
    | Loaded(lock: Lock, ticket: nat, doc: Doc)
    | Changed(lock: Lock, ticket: nat, doc: Doc)
    | Writing(lock: Lock, ticket: nat, doc: Doc, tmp: Name)
    | Written(lock: Lock, ticket: nat, doc: Doc, tmp: Name)
    | Readable(lock: Lock, ticket: nat, doc: Doc, tmp: Name)
    | Leaving(lock: Lock, ticket: nat, ok: bool)
    | Finished(ticket: nat, ok: bool)

  datatype Call = Call(path: Name, op: Op, pc: Pc)

  datatype Commit = Commit(path: Name, ticket: nat, op: Op)

  /** `log`, the edits whose rename happened, and `ticket` are bookkeeping. */
  datatype State = State(
    up: bool, files: map<Name, File>,
    locks: map<Name, Lock>, owner: map<Lock, CallId>, calls: map<CallId, Call>,
    log: seq<Commit>, ticket: nat)

  datatype Step =
    | Begin(c: CallId, path: Name, op: Op)
    | Fetch(c: CallId, newLock: Lock)
    | Acquire(c: CallId)
    | Read(c: CallId)
    | Change(c: CallId)
    | Create(c: CallId, rand: string)
    | Fill(c: CallId)
    | Chmod(c: CallId)
    | Rename(c: CallId)
    | Fail(c: CallId, unlinked: bool)
    | Release(c: CallId)
    | Crash
    | Restart(refused: set<Name>)

  ghost predicate Init(s: State) {
    && s.up && s.locks == map[] && s.owner == map[] && s.calls == map[] && s.log == []
    && forall path :: path in Targets() && path in s.files ==> s.files[path].content.Whole? && s.files[path].readable
  }

  predicate At(s: State, c: CallId) { s.up && c in s.calls }

  predicate HasTemp(pc: Pc) { pc.Writing? || pc.Written? || pc.Readable? }

  predicate Inside(pc: Pc) { pc.Holding? || pc.Loaded? || pc.Changed? || HasTemp(pc) || pc.Leaving? }

  predicate Fresh(s: State, lock: Lock) {
    (forall path :: path in s.locks ==> s.locks[path] != lock) && lock !in s.owner
  }

  predicate Enabled(s: State, step: Step) {
    match step
    case Begin(c, path, _) => s.up && c !in s.calls && path in Targets()
    case Fetch(c, newLock) => At(s, c) && s.calls[c].pc.Arrived? && Fresh(s, newLock)
    case Acquire(c) => At(s, c) && s.calls[c].pc.Waiting? && s.calls[c].pc.lock !in s.owner
    case Read(c) => At(s, c) && s.calls[c].pc.Holding?
    case Change(c) => At(s, c) && s.calls[c].pc.Loaded?
    case Create(c, rand) => At(s, c) && s.calls[c].pc.Changed? && TempName(s.calls[c].path, rand) !in s.files
    case Fill(c) => At(s, c) && s.calls[c].pc.Writing? && s.calls[c].pc.tmp in s.files
    case Chmod(c) => At(s, c) && s.calls[c].pc.Written? && s.calls[c].pc.tmp in s.files
    case Rename(c) => At(s, c) && s.calls[c].pc.Readable? && s.calls[c].pc.tmp in s.files
    case Fail(c, _) => At(s, c) && Inside(s.calls[c].pc) && !s.calls[c].pc.Leaving?
    case Release(c) => At(s, c) && s.calls[c].pc.Leaving?
    case Crash => s.up
    case Restart(_) => !s.up
  }

  function Moved(s: State, c: CallId, pc: Pc): State
    requires c in s.calls
  {
    s.(calls := s.calls[c := s.calls[c].(pc := pc)])
  }

  function Given(s: State, c: CallId): State
    requires c in s.calls && s.calls[c].pc.Loaded?
  {
    var pc := s.calls[c].pc;
    match Apply(s.calls[c].op, pc.doc)
    case None => Moved(s, c, Leaving(pc.lock, pc.ticket, false))
    case Some(doc) => Moved(s, c, Changed(pc.lock, pc.ticket, doc))
  }

  function ReadIn(s: State, c: CallId): State
    requires c in s.calls && s.calls[c].pc.Holding?
  {
    var pc, path := s.calls[c].pc, s.calls[c].path;
    if path in s.files && s.files[path].content.Whole?
    then Moved(s, c, Loaded(pc.lock, pc.ticket, s.files[path].content.doc))
    else Moved(s, c, Leaving(pc.lock, pc.ticket, false))
  }

  function Renamed(s: State, c: CallId): State
    requires c in s.calls && s.calls[c].pc.Readable? && s.calls[c].pc.tmp in s.files
  {
    var pc, path := s.calls[c].pc, s.calls[c].path;
    Moved(s, c, Leaving(pc.lock, pc.ticket, true)).(
      files := s.files[path := s.files[pc.tmp]] - {pc.tmp},
      log := s.log + [Commit(path, pc.ticket, s.calls[c].op)])
  }

  /** An exception anywhere in the locked block; the handler unlinks the temporary file, if that works. */
  function Failed(s: State, c: CallId, unlinked: bool): State
    requires c in s.calls && Inside(s.calls[c].pc)
  {
    var pc := s.calls[c].pc;
    Moved(s, c, Leaving(pc.lock, pc.ticket, false)).(
      files := if HasTemp(pc) && unlinked then s.files - {pc.tmp} else s.files)
  }

  function Next(s: State, step: Step): State
    requires Enabled(s, step)
  {
    match step
    case Begin(c, path, op) => s.(calls := s.calls[c := Call(path, op, Arrived)])
    case Fetch(c, newLock) =>
      var path := s.calls[c].path;
      if path in s.locks then Moved(s, c, Waiting(s.locks[path]))
      else Moved(s, c, Waiting(newLock)).(locks := s.locks[path := newLock])
    case Acquire(c) =>
      var lock := s.calls[c].pc.lock;
      Moved(s, c, Holding(lock, s.ticket)).(owner := s.owner[lock := c], ticket := s.ticket + 1)
    case Read(c) => ReadIn(s, c)
    case Change(c) => Given(s, c)
    case Create(c, rand) =>
      var pc, tmp := s.calls[c].pc, TempName(s.calls[c].path, rand);
      Moved(s, c, Writing(pc.lock, pc.ticket, pc.doc, tmp)).(files := s.files[tmp := File(Partial, false)])
    case Fill(c) =>
      var pc := s.calls[c].pc;
      Moved(s, c, Written(pc.lock, pc.ticket, pc.doc, pc.tmp)).(
        files := s.files[pc.tmp := File(Whole(pc.doc), s.files[pc.tmp].readable)])
    case Chmod(c) =>
      var pc := s.calls[c].pc;
      Moved(s, c, Readable(pc.lock, pc.ticket, pc.doc, pc.tmp)).(
        files := s.files[pc.tmp := s.files[pc.tmp].(readable := true)])
    case Rename(c) => Renamed(s, c)
    case Fail(c, unlinked) => Failed(s, c, unlinked)
    case Release(c) =>
      var pc := s.calls[c].pc;
      Moved(s, c, Finished(pc.ticket, pc.ok)).(owner := s.owner - {pc.lock})
    case Crash => s.(up := false, calls := map[], locks := map[], owner := map[])
    case Restart(refused) => s.(up := true, files := Swept(s.files, refused))
  }

  ghost predicate IsRun(ss: seq<State>, steps: seq<Step>) {
    && |ss| == |steps| + 1 && Init(ss[0])
    && forall i :: 0 <= i < |steps| ==> Enabled(ss[i], steps[i]) && ss[i + 1] == Next(ss[i], steps[i])
  }

  // ---------- the invariant ----------

  /** The edits of one file, in the order of their renames. */
  function OpsOn(log: seq<Commit>, path: Name): seq<Op>
    decreases |log|
  {
    if log == [] then []
    else OpsOn(log[..|log| - 1], path) + if log[|log| - 1].path == path then [log[|log| - 1].op] else []
  }

  /** Each target is complete, readable and the replay of its committed edits. */
  ghost predicate TargetsOk(first: map<Name, File>, s: State) {
    forall path :: path in Targets() ==>
      && (path in s.files <==> path in first)
      && (path in first ==>
            && first[path].content.Whole? && s.files[path].content.Whole? && s.files[path].readable
            && Replay(first[path].content.doc, OpsOn(s.log, path)) == Some(s.files[path].content.doc))
  }

  /** Nothing else comes, goes or changes but names that look stale. */
  ghost predicate OthersOk(first: map<Name, File>, s: State) {
    forall n :: n !in Targets() && !IsStale(n) ==>
      (n in s.files <==> n in first) && (n in first ==> s.files[n] == first[n])
  }

  ghost predicate FilesOk(first: map<Name, File>, s: State) { TargetsOk(first, s) && OthersOk(first, s) }

  /** A lock object is owned by the one call that is inside it. */
  ghost predicate OwnersOk(s: State) {
    && (forall c :: c in s.calls && Inside(s.calls[c].pc) ==>
          s.calls[c].pc.lock in s.owner && s.owner[s.calls[c].pc.lock] == c)
    && (forall l :: l in s.owner ==>
          s.owner[l] in s.calls && Inside(s.calls[s.owner[l]].pc) && s.calls[s.owner[l]].pc.lock == l)
  }

  ghost predicate LocksOk(s: State) {
    && OwnersOk(s)
    && (forall p, q :: p in s.locks && q in s.locks && s.locks[p] == s.locks[q] ==> p == q)
    && (forall c :: c in s.calls && (s.calls[c].pc.Waiting? || Inside(s.calls[c].pc)) ==>
          s.calls[c].path in s.locks && s.calls[c].pc.lock == s.locks[s.calls[c].path])
  }

  /** What a call inside the lock has in memory and on disk fits the file as it stands. */
  ghost predicate CallOk(s: State, c: CallId)
    requires c in s.calls
  {
    var path, op, pc := s.calls[c].path, s.calls[c].op, s.calls[c].pc;
    && path in Targets()
    && (pc.Loaded? || pc.Changed? || HasTemp(pc) ==> path in s.files && s.files[path].content.Whole?)
    && (pc.Loaded? ==> pc.doc == s.files[path].content.doc)
    && (pc.Changed? || HasTemp(pc) ==> Apply(op, s.files[path].content.doc) == Some(pc.doc))
    && (HasTemp(pc) ==> pc.tmp in s.files && IsStale(pc.tmp) && pc.tmp !in Targets())
    && (pc.Written? || pc.Readable? ==> s.files[pc.tmp].content == Whole(pc.doc))
    && (pc.Readable? ==> s.files[pc.tmp].readable)
  }

  ghost predicate CallsOk(s: State) {
    && (forall c :: c in s.calls ==> CallOk(s, c))
    && (forall c, d :: c in s.calls && d in s.calls && HasTemp(s.calls[c].pc) && HasTemp(s.calls[d].pc) && c != d ==>
          s.calls[c].pc.tmp != s.calls[d].pc.tmp)
  }

  predicate HasTicket(pc: Pc) { Inside(pc) || pc.Finished? }

  predicate Committed(pc: Pc) { (pc.Leaving? || pc.Finished?) && pc.ok }

  /** On each file tickets order the renames, and no ticket is used twice. */
  ghost predicate LogOk(s: State) {
    && (forall i :: 0 <= i < |s.log| ==> s.log[i].ticket < s.ticket)
    && (forall i, j :: 0 <= i < j < |s.log| && s.log[i].path == s.log[j].path ==> s.log[i].ticket < s.log[j].ticket)
    && (forall i, j :: 0 <= i < j < |s.log| ==> s.log[i].ticket != s.log[j].ticket)
  }

  /** A call's ticket tells whether it has renamed, and is newer than those of its file. */
  ghost predicate TicketOk(s: State, c: CallId)
    requires c in s.calls
  {
    var path, op, pc := s.calls[c].path, s.calls[c].op, s.calls[c].pc;
    HasTicket(pc) ==>
      && pc.ticket < s.ticket
      && (if Committed(pc) then Commit(path, pc.ticket, op) in s.log
          else forall m :: m in s.log ==> m.ticket != pc.ticket)
      && (Inside(pc) ==> forall m :: m in s.log && m.path == path ==> m.ticket <= pc.ticket)
  }

  ghost predicate TicketsOk(s: State) {
    && (forall c :: c in s.calls ==> TicketOk(s, c))
    && (forall c, d ::
          c in s.calls && d in s.calls && c != d && HasTicket(s.calls[c].pc) && HasTicket(s.calls[d].pc) ==>
            s.calls[c].pc.ticket != s.calls[d].pc.ticket)
  }

  ghost predicate Inv(first: map<Name, File>, s: State) {
    && FilesOk(first, s) && LocksOk(s) && CallsOk(s) && LogOk(s) && TicketsOk(s)
    && (!s.up ==> s.calls == map[])
  }

  /** Two calls inside the lock of one file are the same call. */
  lemma OneInside(s: State, c: CallId, d: CallId)
    requires LocksOk(s) && c in s.calls && d in s.calls && s.calls[c].path == s.calls[d].path
    requires Inside(s.calls[c].pc) && Inside(s.calls[d].pc)
    ensures c == d
  {}

  lemma OpsOnAppend(log: seq<Commit>, m: Commit, path: Name)
    ensures OpsOn(log + [m], path) == OpsOn(log, path) + if m.path == path then [m.op] else []
  {
    assert (log + [m])[..|log|] == log;
  }

  lemma ReplayAppend(d: Doc, ops: seq<Op>, op: Op)
    requires Replay(d, ops).Some?
    ensures Replay(d, ops + [op]) == Apply(op, Replay(d, ops).value)
  {
    assert (ops + [op])[..|ops|] == ops;
  }

  // ---------- what each step keeps ----------

  /** The steps of the locked block: the caller keeps its lock and its ticket. */
  predicate IsInner(step: Step) {
    step.Read? || step.Change? || step.Create? || step.Fill? || step.Chmod? || step.Rename? || step.Fail?
  }

  predicate SameHold(a: Pc, b: Pc) { Inside(a) && Inside(b) && !a.Leaving? && b.lock == a.lock && b.ticket == a.ticket }

  /** The state differs in where call c stands inside the lock, and in files. */
  ghost predicate InnerMove(s: State, t: State, c: CallId) {
    && c in s.calls && c in t.calls && SameHold(s.calls[c].pc, t.calls[c].pc)
    && t.calls == s.calls[c := s.calls[c].(pc := t.calls[c].pc)]
    && t.locks == s.locks && t.owner == s.owner && t.ticket == s.ticket && t.up == s.up
  }

  lemma InnerMoves(s: State, step: Step)
    requires Enabled(s, step) && IsInner(step)
    ensures InnerMove(s, Next(s, step), step.c)
    ensures !step.Rename? ==> Next(s, step).log == s.log && !Committed(Next(s, step).calls[step.c].pc)
  {}

  lemma InnerKeepsLocks(s: State, t: State, c: CallId)
    requires LocksOk(s) && InnerMove(s, t, c)
    ensures LocksOk(t)
  {}

  lemma BeginKeepsLocks(s: State, c: CallId, path: Name, op: Op)
    requires LocksOk(s) && Enabled(s, Begin(c, path, op))
    ensures LocksOk(Next(s, Begin(c, path, op)))
  {}

  /** A call that gets a lock object without taking it disturbs nobody. */
  lemma WaitingKeepsLocks(s: State, t: State, c: CallId)
    requires LocksOk(s) && t.owner == s.owner && c in s.calls && s.calls[c].pc.Arrived?
    requires c in t.calls && t.calls == s.calls[c := t.calls[c]]
    requires t.calls[c].path == s.calls[c].path && t.calls[c].pc.Waiting?
    requires forall p :: p in s.locks ==> p in t.locks && t.locks[p] == s.locks[p]
    requires forall p, q :: p in t.locks && q in t.locks && t.locks[p] == t.locks[q] ==> p == q
    requires t.calls[c].path in t.locks && t.calls[c].pc.lock == t.locks[t.calls[c].path]
    ensures LocksOk(t)
  {}

  lemma FetchKeepsLocks(s: State, c: CallId, newLock: Lock)
    requires LocksOk(s) && Enabled(s, Fetch(c, newLock))
    ensures LocksOk(Next(s, Fetch(c, newLock)))
  {
    WaitingKeepsLocks(s, Next(s, Fetch(c, newLock)), c);
  }

  lemma AcquireKeepsLocks(s: State, c: CallId)
    requires LocksOk(s) && Enabled(s, Acquire(c))
    ensures LocksOk(Next(s, Acquire(c)))
  {}

  lemma ReleasedOwners(s: State, t: State, c: CallId)
    requires OwnersOk(s) && c in s.calls && Inside(s.calls[c].pc)
    requires c in t.calls && t.calls == s.calls[c := t.calls[c]] && t.calls[c].pc.Finished?
    requires t.owner == s.owner - {s.calls[c].pc.lock}
    ensures OwnersOk(t)
  {}

  lemma ReleaseKeepsLocks(s: State, c: CallId)
    requires LocksOk(s) && Enabled(s, Release(c))
    ensures LocksOk(Next(s, Release(c)))
  {
    ReleasedOwners(s, Next(s, Release(c)), c);
  }

  lemma LocksStay(s: State, step: Step)
    requires LocksOk(s) && Enabled(s, step)
    ensures LocksOk(Next(s, step))
  {
    match step {
      case Begin(c, path, op) => BeginKeepsLocks(s, c, path, op);
      case Fetch(c, newLock) => FetchKeepsLocks(s, c, newLock);
      case Acquire(c) => AcquireKeepsLocks(s, c);
      case Release(c) => ReleaseKeepsLocks(s, c);
      case Crash =>
      case Restart(_) =>
      case _ => InnerMoves(s, step); InnerKeepsLocks(s, Next(s, step), step.c);
    }
  }

  lemma InnerKeepsTickets(s: State, t: State, c: CallId)
    requires TicketsOk(s) && InnerMove(s, t, c) && t.log == s.log && !Committed(t.calls[c].pc)
    ensures TicketsOk(t)
  {
    assert TicketOk(s, c);
    forall d | d in t.calls ensures TicketOk(t, d) {
      assert TicketOk(s, d);
    }
  }

  lemma RenameKeepsLog(s: State, t: State, c: CallId)
    requires LogOk(s) && c in s.calls && TicketOk(s, c) && Inside(s.calls[c].pc) && !s.calls[c].pc.Leaving?
    requires t.log == s.log + [Commit(s.calls[c].path, s.calls[c].pc.ticket, s.calls[c].op)] && t.ticket == s.ticket
    ensures LogOk(t)
  {
    var n := |s.log|;
    assert t.log[n] == Commit(s.calls[c].path, s.calls[c].pc.ticket, s.calls[c].op);
    forall i | 0 <= i < n
      ensures t.log[i] == s.log[i] && s.log[i].ticket != t.log[n].ticket
      ensures s.log[i].path == t.log[n].path ==> s.log[i].ticket < t.log[n].ticket
    {
      assert s.log[i] in s.log;
    }
  }

  lemma RenameKeepsTicket(s: State, t: State, c: CallId, d: CallId)
    requires TicketsOk(s) && LocksOk(s) && InnerMove(s, t, c) && Committed(t.calls[c].pc) && d in t.calls
    requires t.log == s.log + [Commit(s.calls[c].path, s.calls[c].pc.ticket, s.calls[c].op)]
    ensures TicketOk(t, d)
  {
    assert TicketOk(s, c) && TicketOk(s, d);
    assert t.log[|s.log|].ticket == s.calls[c].pc.ticket;
    if d != c && Inside(s.calls[d].pc) && s.calls[d].path == s.calls[c].path {
      OneInside(s, c, d);
    }
  }

  lemma RenameKeepsTickets(s: State, t: State, c: CallId)
    requires TicketsOk(s) && LocksOk(s) && InnerMove(s, t, c) && Committed(t.calls[c].pc)
    requires t.log == s.log + [Commit(s.calls[c].path, s.calls[c].pc.ticket, s.calls[c].op)]
    ensures TicketsOk(t)
  {
    forall d | d in t.calls ensures TicketOk(t, d) {
      RenameKeepsTicket(s, t, c, d);
    }
  }

  lemma AcquireKeepsTickets(s: State, c: CallId)
    requires LogOk(s) && TicketsOk(s) && Enabled(s, Acquire(c))
    ensures TicketsOk(Next(s, Acquire(c)))
  {
    var t := Next(s, Acquire(c));
    forall d | d in t.calls ensures TicketOk(t, d) {
      assert TicketOk(s, d);
    }
  }

  /** The other steps give no tickets, and take none but with the calls themselves. */
  ghost predicate OuterMove(s: State, t: State) {
    && t.log == s.log && t.ticket == s.ticket
    && forall d :: d in t.calls ==>
         || (d in s.calls && t.calls[d] == s.calls[d])
         || t.calls[d].pc.Arrived? || t.calls[d].pc.Waiting?
         || (d in s.calls && s.calls[d].pc.Leaving?
             && t.calls[d] == s.calls[d].(pc := Finished(s.calls[d].pc.ticket, s.calls[d].pc.ok)))
  }

  lemma OuterMoves(s: State, step: Step)
    requires Enabled(s, step) && !IsInner(step) && !step.Acquire?
    ensures OuterMove(s, Next(s, step))
    ensures step.Begin? ==> step.path in Targets()
    ensures !step.Restart? ==> Next(s, step).files == s.files
  {}

  lemma OuterKeepsTicket(s: State, t: State, d: CallId)
    requires OuterMove(s, t) && d in t.calls && (d in s.calls ==> TicketOk(s, d))
    ensures TicketOk(t, d)
  {}

  lemma OuterKeepsTickets(s: State, t: State)
    requires TicketsOk(s) && OuterMove(s, t)
    ensures TicketsOk(t)
  {
    forall d | d in t.calls ensures TicketOk(t, d) {
      OuterKeepsTicket(s, t, d);
    }
  }

  lemma TicketsStay(s: State, step: Step)
    requires LogOk(s) && TicketsOk(s) && LocksOk(s) && Enabled(s, step)
    ensures LogOk(Next(s, step)) && TicketsOk(Next(s, step))
  {
    if IsInner(step) {
      InnerMoves(s, step);
      if step.Rename? {
        assert TicketOk(s, step.c);
        RenameKeepsLog(s, Next(s, step), step.c);
        RenameKeepsTickets(s, Next(s, step), step.c);
      } else {
        InnerKeepsTickets(s, Next(s, step), step.c);
      }
    } else if step.Acquire? {
      AcquireKeepsTickets(s, step.c);
    } else {
      OuterMoves(s, step);
      OuterKeepsTickets(s, Next(s, step));
    }
  }

  /** A call that a step leaves alone is fine as long as its file and its temporary file are. */
  lemma CallFrame(s: State, t: State, d: CallId)
    requires d in s.calls && d in t.calls && t.calls[d] == s.calls[d] && CallOk(s, d)
    requires Inside(s.calls[d].pc) && s.calls[d].path in s.files ==>
               s.calls[d].path in t.files && t.files[s.calls[d].path] == s.files[s.calls[d].path]
    requires HasTemp(s.calls[d].pc) && s.calls[d].pc.tmp in s.files ==>
               s.calls[d].pc.tmp in t.files && t.files[s.calls[d].pc.tmp] == s.files[s.calls[d].pc.tmp]
    ensures CallOk(t, d)
  {}

  lemma OwnStepKeepsCall(s: State, step: Step)
    requires Enabled(s, step) && IsInner(step) && CallOk(s, step.c)
    ensures CallOk(Next(s, step), step.c)
  {
    if step.Create? { PatternTellsTempsFromTargets(s.calls[step.c].path, step.rand); }
  }

  /** A step inside the lock changes no file but its own temporary one and, if it renames, its target. */
  lemma InnerTouches(s: State, step: Step, n: Name)
    requires Enabled(s, step) && IsInner(step)
    requires step.Rename? ==> n != s.calls[step.c].path
    requires HasTemp(s.calls[step.c].pc) ==> n != s.calls[step.c].pc.tmp
    requires step.Create? ==> n != TempName(s.calls[step.c].path, step.rand)
    ensures n in s.files <==> n in Next(s, step).files
    ensures n in s.files ==> Next(s, step).files[n] == s.files[n]
  {}

  lemma OwnTemp(s: State, step: Step)
    requires Enabled(s, step) && IsInner(step)
    ensures var pc := Next(s, step).calls[step.c].pc;
            HasTemp(pc) ==> pc.tmp !in s.files || (HasTemp(s.calls[step.c].pc) && s.calls[step.c].pc.tmp == pc.tmp)
  {}

  lemma InnerKeepsOther(s: State, step: Step, d: CallId)
    requires LocksOk(s) && CallsOk(s) && Enabled(s, step) && IsInner(step) && InnerMove(s, Next(s, step), step.c)
    requires d in s.calls && d != step.c
    ensures CallOk(Next(s, step), d)
  {
    var c, path, pc := step.c, s.calls[d].path, s.calls[d].pc;
    assert CallOk(s, d) && CallOk(s, c);
    if step.Create? { PatternTellsTempsFromTargets(s.calls[c].path, step.rand); }
    if Inside(pc) {
      if path == s.calls[c].path { OneInside(s, c, d); }
      InnerTouches(s, step, path);
    }
    if HasTemp(pc) { InnerTouches(s, step, pc.tmp); }
    CallFrame(s, Next(s, step), d);
  }

  lemma TempsDiffer(s: State, step: Step, d: CallId)
    requires CallsOk(s) && Enabled(s, step) && IsInner(step) && d in s.calls && d != step.c && HasTemp(s.calls[d].pc)
    ensures var pc := Next(s, step).calls[step.c].pc; HasTemp(pc) ==> s.calls[d].pc.tmp != pc.tmp
  {
    OwnTemp(s, step);
    assert CallOk(s, d);
  }

  lemma OneCallMoves(s: State, t: State, c: CallId)
    requires CallsOk(s) && c in s.calls && c in t.calls && t.calls == s.calls[c := t.calls[c]]
    requires forall d :: d in t.calls ==> CallOk(t, d)
    requires forall d :: d in s.calls && d != c && HasTemp(s.calls[d].pc) && HasTemp(t.calls[c].pc) ==>
               s.calls[d].pc.tmp != t.calls[c].pc.tmp
    ensures CallsOk(t)
  {}

  lemma InnerKeepsCalls(s: State, step: Step)
    requires LocksOk(s) && CallsOk(s) && Enabled(s, step) && IsInner(step)
    ensures CallsOk(Next(s, step))
  {
    var t, c := Next(s, step), step.c;
    InnerMoves(s, step);
    assert CallOk(t, c) by { assert CallOk(s, c); OwnStepKeepsCall(s, step); }
    forall d | d in t.calls && d != c ensures CallOk(t, d) {
      InnerKeepsOther(s, step, d);
    }
    forall d | d in s.calls && d != c && HasTemp(s.calls[d].pc) && HasTemp(t.calls[c].pc)
      ensures s.calls[d].pc.tmp != t.calls[c].pc.tmp
    {
      TempsDiffer(s, step, d);
    }
    OneCallMoves(s, t, c);
  }

  lemma AcquireKeepsCalls(s: State, c: CallId)
    requires CallsOk(s) && Enabled(s, Acquire(c))
    ensures CallsOk(Next(s, Acquire(c)))
  {
    var t := Next(s, Acquire(c));
    forall d | d in t.calls ensures CallOk(t, d) {
      assert CallOk(s, d);
    }
  }

  lemma OuterKeepsCalls(s: State, t: State)
    requires CallsOk(s) && OuterMove(s, t) && (t.files == s.files || t.calls == map[])
    requires forall d :: d in t.calls && d !in s.calls ==> t.calls[d].path in Targets()
    requires forall d :: d in t.calls && d in s.calls ==> t.calls[d].path == s.calls[d].path
    ensures CallsOk(t)
  {
    forall d | d in t.calls ensures CallOk(t, d) {
      if d in s.calls { assert CallOk(s, d); }
    }
  }

  lemma CallsStay(s: State, step: Step)
    requires LocksOk(s) && CallsOk(s) && Enabled(s, step) && (!s.up ==> s.calls == map[])
    ensures CallsOk(Next(s, step))
  {
    if IsInner(step) {
      InnerKeepsCalls(s, step);
    } else if step.Acquire? {
      AcquireKeepsCalls(s, step.c);
    } else {
      OuterMoves(s, step);
      OuterKeepsCalls(s, Next(s, step));
    }
  }

  lemma RenameReplays(first: Doc, s: State, t: State, c: CallId, p: Name)
    requires c in s.calls && CallOk(s, c) && HasTemp(s.calls[c].pc) && p in s.files && s.files[p].content.Whole?
    requires t.log == s.log + [Commit(s.calls[c].path, s.calls[c].pc.ticket, s.calls[c].op)]
    requires p in t.files
    requires t.files[p].content == if p == s.calls[c].path then Whole(s.calls[c].pc.doc) else s.files[p].content
    requires Replay(first, OpsOn(s.log, p)) == Some(s.files[p].content.doc)
    ensures Replay(first, OpsOn(t.log, p)) == Some(t.files[p].content.doc)
  {
    var path, op := s.calls[c].path, s.calls[c].op;
    OpsOnAppend(s.log, Commit(path, s.calls[c].pc.ticket, op), p);
    if p == path {
      ReplayAppend(first, OpsOn(s.log, p), op);
    } else {
      assert OpsOn(t.log, p) == OpsOn(s.log, p);
    }
  }

  lemma RenameKeepsTargets(first: map<Name, File>, s: State, c: CallId)
    requires TargetsOk(first, s) && Enabled(s, Rename(c)) && CallOk(s, c)
    ensures TargetsOk(first, Next(s, Rename(c)))
  {
    var t := Next(s, Rename(c));
    forall p | p in Targets()
      ensures p in t.files <==> p in first
      ensures p in first ==> t.files[p].content.Whole? && t.files[p].readable
      ensures p in first ==> Replay(first[p].content.doc, OpsOn(t.log, p)) == Some(t.files[p].content.doc)
    {
      if p in first { RenameReplays(first[p].content.doc, s, t, c, p); }
    }
  }

  lemma InnerKeepsFiles(first: map<Name, File>, s: State, step: Step)
    requires FilesOk(first, s) && Enabled(s, step) && IsInner(step) && CallOk(s, step.c)
    ensures FilesOk(first, Next(s, step))
  {
    var c := step.c;
    if step.Create? { PatternTellsTempsFromTargets(s.calls[c].path, step.rand); }
    if step.Rename? {
      RenameKeepsTargets(first, s, c);
    } else {
      InnerMoves(s, step);
      forall p | p in Targets()
        ensures p in s.files <==> p in Next(s, step).files
        ensures p in s.files ==> Next(s, step).files[p] == s.files[p]
      {
        InnerTouches(s, step, p);
      }
    }
    forall n | n !in Targets() && !IsStale(n)
      ensures n in s.files <==> n in Next(s, step).files
      ensures n in s.files ==> Next(s, step).files[n] == s.files[n]
    {
      InnerTouches(s, step, n);
    }
  }

  lemma RestartKeepsFiles(first: map<Name, File>, s: State, refused: set<Name>)
    requires FilesOk(first, s) && Enabled(s, Restart(refused))
    ensures FilesOk(first, Next(s, Restart(refused)))
  {
    TargetsAreNotStale();
  }

  lemma FilesStay(first: map<Name, File>, s: State, step: Step)
    requires FilesOk(first, s) && CallsOk(s) && Enabled(s, step)
    ensures FilesOk(first, Next(s, step))
  {
    if IsInner(step) {
      assert CallOk(s, step.c);
      InnerKeepsFiles(first, s, step);
    } else if step.Restart? {
      RestartKeepsFiles(first, s, step.refused);
    } else if !step.Acquire? {
      OuterMoves(s, step);
    }
  }

  lemma StepKeeps(first: map<Name, File>, s: State, step: Step)
    requires Inv(first, s) && Enabled(s, step)
    ensures Inv(first, Next(s, step))
  {
    LocksStay(s, step);
    TicketsStay(s, step);
    CallsStay(s, step);
    FilesStay(first, s, step);
    assert step.Restart? || step.Crash? || Next(s, step).up == s.up;
  }

  lemma {:induction false} RunKeeps(ss: seq<State>, steps: seq<Step>, i: nat)
    requires IsRun(ss, steps) && i < |ss|
    ensures Inv(ss[0].files, ss[i])
  {
    if i > 0 {
      RunKeeps(ss, steps, i - 1);
      StepKeeps(ss[0].files, ss[i - 1], steps[i - 1]);
    }
  }

  // ---------- the theorems ----------

  /** The tickets of the edits of one file, in the order of their renames. */
  function TicketsOn(log: seq<Commit>, path: Name): seq<nat>
    decreases |log|
  {
    if log == [] then []
    else TicketsOn(log[..|log| - 1], path) + if log[|log| - 1].path == path then [log[|log| - 1].ticket] else []
  }

  lemma {:induction false} TicketsOnMembers(log: seq<Commit>, path: Name)
    ensures |TicketsOn(log, path)| == |OpsOn(log, path)|
    ensures forall n :: n in TicketsOn(log, path) ==>
              exists i :: 0 <= i < |log| && log[i].path == path && log[i].ticket == n
    decreases |log|
  {
    if log != [] {
      TicketsOnMembers(log[..|log| - 1], path);
      forall n | n in TicketsOn(log, path)
        ensures exists i :: 0 <= i < |log| && log[i].path == path && log[i].ticket == n
      {
        if n in TicketsOn(log[..|log| - 1], path) {
          var i :| 0 <= i < |log| - 1 && log[..|log| - 1][i].path == path && log[..|log| - 1][i].ticket == n;
          assert log[i].path == path;
        } else {
          assert log[|log| - 1].path == path;
        }
      }
    }
  }

  predicate Increasing(ns: seq<nat>) { forall i, j :: 0 <= i < j < |ns| ==> ns[i] < ns[j] }

  lemma {:induction false} TicketsIncrease(log: seq<Commit>, path: Name)
    requires forall i, j :: 0 <= i < j < |log| && log[i].path == log[j].path ==> log[i].ticket < log[j].ticket
    ensures Increasing(TicketsOn(log, path))
    decreases |log|
  {
    if log != [] {
      var before, last := log[..|log| - 1], log[|log| - 1];
      forall i, j | 0 <= i < j < |before| && before[i].path == before[j].path
        ensures before[i].ticket < before[j].ticket
      {
        assert log[i].ticket < log[j].ticket;
      }
      TicketsIncrease(before, path);
      TicketsOnMembers(before, path);
      var ns := TicketsOn(before, path);
      forall n | n in ns && last.path == path ensures n < last.ticket {
        var i :| 0 <= i < |before| && before[i].path == path && before[i].ticket == n;
        assert log[i].ticket < log[|log| - 1].ticket;
      }
      forall i, j | 0 <= i < j < |TicketsOn(log, path)| ensures TicketsOn(log, path)[i] < TicketsOn(log, path)[j] {
        if j == |ns| { assert ns[i] in ns; }
      }
    }
  }

  /**
   At every moment of every run, whatever failed or crashed: each file is complete, readable, and the replay on its
   first contents of exactly the edits whose rename happened, in the order in which they took the file's lock.
   */
  lemma FilesAreReplays(ss: seq<State>, steps: seq<Step>, i: nat, path: Name)
    requires IsRun(ss, steps) && i < |ss| && path in Targets() && path in ss[0].files
    ensures path in ss[i].files && ss[i].files[path].content.Whole? && ss[i].files[path].readable
    ensures Replay(ss[0].files[path].content.doc, OpsOn(ss[i].log, path)) == Some(ss[i].files[path].content.doc)
    ensures Increasing(TicketsOn(ss[i].log, path)) && |TicketsOn(ss[i].log, path)| == |OpsOn(ss[i].log, path)|
  {
    RunKeeps(ss, steps, i);
    TicketsOnMembers(ss[i].log, path);
    assert LogOk(ss[i]);
    TicketsIncrease(ss[i].log, path);
  }

  /** A call that reports success is in the replay, and one that reports failure is not. */
  lemma SuccessIsCommitted(ss: seq<State>, steps: seq<Step>, i: nat, c: CallId)
    requires IsRun(ss, steps) && i < |ss| && c in ss[i].calls && ss[i].calls[c].pc.Finished?
    ensures var call := ss[i].calls[c];
            if call.pc.ok then Commit(call.path, call.pc.ticket, call.op) in ss[i].log
            else forall m :: m in ss[i].log ==> m.ticket != call.pc.ticket
  {
    RunKeeps(ss, steps, i);
    assert TicketOk(ss[i], c);
  }

  predicate Uses(s: State, c: CallId, tmp: Name) {
    c in s.calls && HasTemp(s.calls[c].pc) && s.calls[c].pc.tmp == tmp
  }

  /** Every file that looks stale belongs to a write that is under way. */
  ghost predicate Tidy(s: State) { forall n :: n in s.files && IsStale(n) ==> exists c :: Uses(s, c, n) }

  /** The two ways to leave a temporary file behind. */
  predicate Litters(step: Step) { step.Crash? || (step.Fail? && !step.unlinked) }

  /** A call's own temporary file is its own, until it is renamed or removed. */
  lemma OwnTempIsUsed(s: State, step: Step, n: Name)
    requires Enabled(s, step) && IsInner(step) && !Litters(step) && n in Next(s, step).files
    requires step.Rename? ==> s.calls[step.c].path != s.calls[step.c].pc.tmp
    requires Uses(s, step.c, n) || (step.Create? && n == TempName(s.calls[step.c].path, step.rand))
    ensures Uses(Next(s, step), step.c, n)
  {}

  lemma OthersTempIsUsed(s: State, step: Step, d: CallId, n: Name)
    requires Enabled(s, step) && IsInner(step) && d != step.c && Uses(s, d, n)
    ensures Uses(Next(s, step), d, n)
  {
    InnerMoves(s, step);
  }

  lemma InnerTidy(s: State, step: Step, n: Name)
    requires CallsOk(s) && Enabled(s, step) && IsInner(step) && !Litters(step)
    requires n in Next(s, step).files && IsStale(n) && (n in s.files ==> exists c :: Uses(s, c, n))
    ensures exists c :: Uses(Next(s, step), c, n)
  {
    var c := step.c;
    assert CallOk(s, c);
    TargetsAreNotStale();
    if Uses(s, c, n) || (step.Create? && n == TempName(s.calls[c].path, step.rand)) {
      OwnTempIsUsed(s, step, n);
    } else {
      InnerTouches(s, step, n);
      var d :| Uses(s, d, n);
      OthersTempIsUsed(s, step, d, n);
    }
  }

  lemma TidyStep(s: State, step: Step)
    requires CallsOk(s) && Tidy(s) && Enabled(s, step) && !Litters(step)
    ensures Tidy(Next(s, step))
  {
    var t := Next(s, step);
    forall n | n in t.files && IsStale(n) ensures exists c :: Uses(t, c, n) {
      if IsInner(step) {
        InnerTidy(s, step, n);
      } else {
        var c :| Uses(s, c, n);
        assert Uses(t, c, n);
      }
    }
  }

  /** From a moment without stale files on, only a crash or a refused unlink leaves a temporary file behind. */
  lemma {:induction false} OnlyCrashesLitter(ss: seq<State>, steps: seq<Step>, k: nat, i: nat)
    requires IsRun(ss, steps) && k <= i < |ss| && (forall n :: n in ss[k].files ==> !IsStale(n))
    requires forall j :: k <= j < i ==> !Litters(steps[j])
    ensures Tidy(ss[i])
  {
    if k < i {
      OnlyCrashesLitter(ss, steps, k, i - 1);
      RunKeeps(ss, steps, i - 1);
      TidyStep(ss[i - 1], steps[i - 1]);
    }
  }

  /**
   A restart whose removals are not refused ends with exactly the files that were there at the start of the run and
   do not look stale: no temporary file of any earlier crash remains, and no target or other file has gone.
   */
  lemma RestartLeavesNoTemps(ss: seq<State>, steps: seq<Step>, i: nat)
    requires IsRun(ss, steps) && i < |steps| && steps[i] == Restart({})
    ensures forall n :: n in ss[i + 1].files <==> n in ss[0].files && !IsStale(n)
    ensures forall n :: n in ss[i + 1].files ==> ss[i].files[n] == ss[i + 1].files[n]
    ensures forall n :: n in ss[i + 1].files && n !in Targets() ==> ss[i + 1].files[n] == ss[0].files[n]
  {
    RunKeeps(ss, steps, i);
    TargetsAreNotStale();
    assert ss[i + 1] == Next(ss[i], Restart({}));
  }
}
