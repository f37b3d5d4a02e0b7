/** An edit that is left to itself comes to the end that the catalog's own methods promise, from any reachable state. */
module CatalogEdits {
  import opened Common
  import opened Playing
  import opened Catalog
  import opened CatalogRuns

  ghost function Moves(): (State, Step) -> Option<State> {
    (s: State, step: Step) => if Enabled(s, step) then Some(Next(s, step)) else None
  }

  /** What an edit finds in the file, if the file is there. */
  function Found(s: State, path: Name): Option<Doc> {
    if path in s.files && s.files[path].content.Whole? then Some(s.files[path].content.doc) else None
  }

  predicate Succeeds(s: State, path: Name, op: Op) { Found(s, path).Some? && Apply(op, Found(s, path).value).Some? }

  /** The steps of one call, from its beginning to its return. */
  function Alone(s: State, c: CallId, path: Name, op: Op, lock: Lock, rand: string): seq<Step> {
    [Begin(c, path, op)] + ([Fetch(c, lock)] + ([Acquire(c)] + ([Read(c)] + Rest(s, c, path, op, rand))))
  }

  function Rest(s: State, c: CallId, path: Name, op: Op, rand: string): seq<Step> {
    if Found(s, path).None? then [Release(c)] + []
    else if !Succeeds(s, path, op) then [Change(c)] + ([Release(c)] + [])
    else [Change(c)] + ([Create(c, rand)] + ([Fill(c)] + ([Chmod(c)] + ([Rename(c)] + ([Release(c)] + [])))))
  }

  /** The lock is free, or there is none yet and the new one is new; the temporary name is too. */
  predicate Undisputed(s: State, c: CallId, path: Name, lock: Lock, rand: string) {
    && s.up && c !in s.calls && path in Targets() && Fresh(s, lock)
    && (path in s.locks ==> s.locks[path] !in s.owner)
    && TempName(path, rand) !in s.files
  }

  function LockFor(s: State, path: Name, lock: Lock): Lock { if path in s.locks then s.locks[path] else lock }

  /** The call is inside, with nothing read yet. */
  function Entered(s: State, c: CallId, path: Name, op: Op, lock: Lock): State {
    var l := LockFor(s, path, lock);
    s.(calls := s.calls[c := Call(path, op, Holding(l, s.ticket))], locks := s.locks[path := l],
       owner := s.owner[l := c], ticket := s.ticket + 1)
  }

  function Begun(s: State, c: CallId, path: Name, op: Op): State {
    s.(calls := s.calls[c := Call(path, op, Arrived)])
  }

  function Fetched(s: State, c: CallId, path: Name, op: Op, l: Lock): State {
    s.(calls := s.calls[c := Call(path, op, Waiting(l))], locks := s.locks[path := l])
  }

  lemma FetchesLock(s: State, c: CallId, path: Name, op: Op, lock: Lock, rand: string)
    requires Undisputed(s, c, path, lock, rand)
    ensures Enabled(Begun(s, c, path, op), Fetch(c, lock))
    ensures Next(Begun(s, c, path, op), Fetch(c, lock)) == Fetched(s, c, path, op, LockFor(s, path, lock))
  {
    if path in s.locks { assert s.locks[path := s.locks[path]] == s.locks; }
  }

  lemma AcquiresLock(s: State, c: CallId, path: Name, op: Op, lock: Lock, rand: string)
    requires Undisputed(s, c, path, lock, rand)
    ensures var t := Fetched(s, c, path, op, LockFor(s, path, lock));
            Enabled(t, Acquire(c)) && Next(t, Acquire(c)) == Entered(s, c, path, op, lock)
  {}

  lemma EntersAlone(s: State, c: CallId, path: Name, op: Op, lock: Lock, rand: string, rest: seq<Step>)
    requires Undisputed(s, c, path, lock, rand)
    ensures Play(Moves(), s, [Begin(c, path, op)] + ([Fetch(c, lock)] + ([Acquire(c)] + rest)))
         == Play(Moves(), Entered(s, c, path, op, lock), rest)
  {
    FetchesLock(s, c, path, op, lock, rand);
    AcquiresLock(s, c, path, op, lock, rand);
    PlayFirst(Moves(), s, Begin(c, path, op), [Fetch(c, lock)] + ([Acquire(c)] + rest));
    PlayFirst(Moves(), Begun(s, c, path, op), Fetch(c, lock), [Acquire(c)] + rest);
    PlayFirst(Moves(), Fetched(s, c, path, op, LockFor(s, path, lock)), Acquire(c), rest);
  }

  /** The call returns: nobody holds its lock any more, and the files are as they are. */
  ghost predicate Returned(s: State, t: Option<State>, c: CallId, lock: Lock, files: map<Name, File>, ok: bool) {
    && t.Some? && c in t.value.calls && t.value.calls[c].pc == Finished(s.ticket, ok)
    && t.value.files == files && t.value.up && lock !in t.value.owner
  }

  lemma LeavesAlone(s: State, t: State, c: CallId, lock: Lock, ok: bool)
    requires t.up && c in t.calls && t.calls[c].pc == Leaving(lock, s.ticket, ok)
    ensures Returned(s, Play(Moves(), t, [Release(c)] + []), c, lock, t.files, ok)
  {
    PlayFirst(Moves(), t, Release(c), []);
  }

  lemma ReadsNothing(s: State, t: State, c: CallId, lock: Lock)
    requires t.up && c in t.calls && t.calls[c].pc == Holding(lock, s.ticket)
    requires Found(t, t.calls[c].path).None?
    ensures Returned(s, Play(Moves(), t, [Read(c)] + ([Release(c)] + [])), c, lock, t.files, false)
  {
    PlayFirst(Moves(), t, Read(c), [Release(c)] + []);
    LeavesAlone(s, Next(t, Read(c)), c, lock, false);
  }

  lemma FindsNoItem(s: State, t: State, c: CallId, lock: Lock)
    requires t.up && c in t.calls && t.calls[c].pc == Holding(lock, s.ticket)
    requires Found(t, t.calls[c].path).Some? && !Succeeds(t, t.calls[c].path, t.calls[c].op)
    ensures Returned(s, Play(Moves(), t, [Read(c)] + ([Change(c)] + ([Release(c)] + []))), c, lock, t.files, false)
  {
    var t1 := Next(t, Read(c));
    PlayFirst(Moves(), t, Read(c), [Change(c)] + ([Release(c)] + []));
    PlayFirst(Moves(), t1, Change(c), [Release(c)] + []);
    LeavesAlone(s, Next(t1, Change(c)), c, lock, false);
  }

  /** The temporary file is there, and the call stands at this point of writing it. */
  function WithTemp(t: State, c: CallId, pc: Pc, tmp: Name, file: File): State
    requires c in t.calls
  {
    t.(calls := t.calls[c := t.calls[c].(pc := pc)], files := t.files[tmp := file])
  }

  lemma CreatesTemp(t: State, c: CallId, lock: Lock, ticket: nat, doc: Doc, rand: string, rest: seq<Step>)
    requires t.up && c in t.calls && t.calls[c].pc == Changed(lock, ticket, doc)
    requires TempName(t.calls[c].path, rand) !in t.files
    ensures var tmp := TempName(t.calls[c].path, rand);
            Play(Moves(), t, [Create(c, rand)] + rest)
            == Play(Moves(), WithTemp(t, c, Writing(lock, ticket, doc, tmp), tmp, File(Partial, false)), rest)
  {
    PlayFirst(Moves(), t, Create(c, rand), rest);
  }

  lemma FillsTemp(t: State, c: CallId, lock: Lock, ticket: nat, doc: Doc, tmp: Name, rest: seq<Step>)
    requires t.up && c in t.calls
    ensures Play(Moves(), WithTemp(t, c, Writing(lock, ticket, doc, tmp), tmp, File(Partial, false)), [Fill(c)] + rest)
         == Play(Moves(), WithTemp(t, c, Written(lock, ticket, doc, tmp), tmp, File(Whole(doc), false)), rest)
  {
    var t1 := WithTemp(t, c, Writing(lock, ticket, doc, tmp), tmp, File(Partial, false));
    PlayFirst(Moves(), t1, Fill(c), rest);
    assert Next(t1, Fill(c)) == WithTemp(t, c, Written(lock, ticket, doc, tmp), tmp, File(Whole(doc), false));
  }

  lemma OpensTemp(t: State, c: CallId, lock: Lock, ticket: nat, doc: Doc, tmp: Name, rest: seq<Step>)
    requires t.up && c in t.calls
    ensures Play(Moves(), WithTemp(t, c, Written(lock, ticket, doc, tmp), tmp, File(Whole(doc), false)),
                 [Chmod(c)] + rest)
         == Play(Moves(), WithTemp(t, c, Readable(lock, ticket, doc, tmp), tmp, File(Whole(doc), true)), rest)
  {
    var t1 := WithTemp(t, c, Written(lock, ticket, doc, tmp), tmp, File(Whole(doc), false));
    PlayFirst(Moves(), t1, Chmod(c), rest);
    assert Next(t1, Chmod(c)) == WithTemp(t, c, Readable(lock, ticket, doc, tmp), tmp, File(Whole(doc), true));
  }

  lemma RenamesTemp(s: State, t: State, c: CallId, lock: Lock, doc: Doc, tmp: Name)
    requires t.up && c in t.calls && tmp !in t.files && tmp != t.calls[c].path
    ensures Returned(s, Play(Moves(), WithTemp(t, c, Readable(lock, s.ticket, doc, tmp), tmp, File(Whole(doc), true)),
                             [Rename(c)] + ([Release(c)] + [])),
                     c, lock, t.files[t.calls[c].path := File(Whole(doc), true)], true)
  {
    var t1 := WithTemp(t, c, Readable(lock, s.ticket, doc, tmp), tmp, File(Whole(doc), true));
    var t2 := Next(t1, Rename(c));
    PlayFirst(Moves(), t1, Rename(c), [Release(c)] + []);
    assert t2.files == t.files[t.calls[c].path := File(Whole(doc), true)];
    LeavesAlone(s, t2, c, lock, true);
  }

  lemma WritesDoc(s: State, t: State, c: CallId, lock: Lock, doc: Doc, rand: string)
    requires t.up && c in t.calls && t.calls[c].pc == Changed(lock, s.ticket, doc)
    requires TempName(t.calls[c].path, rand) !in t.files
    ensures Returned(s, Play(Moves(), t, [Create(c, rand)] + ([Fill(c)] + ([Chmod(c)] + ([Rename(c)]
                                         + ([Release(c)] + []))))),
                     c, lock, t.files[t.calls[c].path := File(Whole(doc), true)], true)
  {
    var tmp := TempName(t.calls[c].path, rand);
    assert |tmp.base| > |t.calls[c].path.base|;
    CreatesTemp(t, c, lock, s.ticket, doc, rand, [Fill(c)] + ([Chmod(c)] + ([Rename(c)] + ([Release(c)] + []))));
    FillsTemp(t, c, lock, s.ticket, doc, tmp, [Chmod(c)] + ([Rename(c)] + ([Release(c)] + [])));
    OpensTemp(t, c, lock, s.ticket, doc, tmp, [Rename(c)] + ([Release(c)] + []));
    RenamesTemp(s, t, c, lock, doc, tmp);
  }

  lemma EditsDoc(s: State, t: State, c: CallId, lock: Lock, rand: string)
    requires t.up && c in t.calls && t.calls[c].pc == Holding(lock, s.ticket)
    requires Succeeds(t, t.calls[c].path, t.calls[c].op) && TempName(t.calls[c].path, rand) !in t.files
    ensures var path, op := t.calls[c].path, t.calls[c].op;
            Returned(s, Play(Moves(), t, [Read(c)] + ([Change(c)] + ([Create(c, rand)] + ([Fill(c)] + ([Chmod(c)]
                                         + ([Rename(c)] + ([Release(c)] + []))))))),
                     c, lock, t.files[path := File(Whole(Apply(op, Found(t, path).value).value), true)], true)
  {
    var tail := [Create(c, rand)] + ([Fill(c)] + ([Chmod(c)] + ([Rename(c)] + ([Release(c)] + []))));
    var t1 := Next(t, Read(c));
    var t2 := Next(t1, Change(c));
    PlayFirst(Moves(), t, Read(c), [Change(c)] + tail);
    PlayFirst(Moves(), t1, Change(c), tail);
    WritesDoc(s, t2, c, lock, Apply(t.calls[c].op, Found(t, t.calls[c].path).value).value, rand);
  }

  /**
   From any point of any run, whatever failures and crashes came before: a call that finds its lock free and is left to
   itself returns normally if and only if the file is there and the edit applies to it; the file is then the edited
   document, and otherwise nothing has changed.
   */
  lemma EditIsServed(ss: seq<State>, steps: seq<Step>, i: nat, c: CallId, path: Name, op: Op, lock: Lock, rand: string)
    requires IsRun(ss, steps) && i < |ss| && Undisputed(ss[i], c, path, lock, rand)
    ensures path in ss[i].files ==> ss[i].files[path].content.Whole?
    ensures var s, end := ss[i], Play(Moves(), ss[i], Alone(ss[i], c, path, op, lock, rand));
            var ok := path in s.files && Apply(op, s.files[path].content.doc).Some?;
            && end.Some? && c in end.value.calls && end.value.calls[c].pc == Finished(s.ticket, ok)
            && Edited(s.files, end.value.files, path, TempName(path, rand), op, ok)
            && LockFor(s, path, lock) !in end.value.owner
  {
    var s := ss[i];
    assert TargetsOk(ss[0].files, s) by { RunKeeps(ss, steps, i); }
    ServedAlone(s, c, path, op, lock, rand);
  }

  lemma ServedAlone(s: State, c: CallId, path: Name, op: Op, lock: Lock, rand: string)
    requires Undisputed(s, c, path, lock, rand)
    ensures Returned(s, Play(Moves(), s, Alone(s, c, path, op, lock, rand)), c, LockFor(s, path, lock),
                     if Succeeds(s, path, op)
                     then s.files[path := File(Whole(Apply(op, Found(s, path).value).value), true)] else s.files,
                     Succeeds(s, path, op))
  {
    var t, l := Entered(s, c, path, op, lock), LockFor(s, path, lock);
    EntersAlone(s, c, path, op, lock, rand, [Read(c)] + Rest(s, c, path, op, rand));
    if Found(s, path).None? {
      ReadsNothing(s, t, c, l);
    } else if !Succeeds(s, path, op) {
      FindsNoItem(s, t, c, l);
    } else {
      EditsDoc(s, t, c, l, rand);
    }
  }
}
