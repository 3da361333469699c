/** Lost updates: when there are none, and how a cancelled writer causes one. */
module MemoryRuns {
  import opened Basics
  import opened MemoryStore
  import opened MemorySafety
  import opened Sequences

  // ----- nothing lost

  /** A profile or working-memory file always holds the writers of its lineage one by one. That is every effect
      on the file, in order, exactly when no writer wrote back a read on which another effect had fallen. And at
      most one writer per user is between acquiring and leaving. */
  lemma NoLostUpdates(ops: seq<Op>, files: map<FileKey, Content>, events: seq<Event>, end: State, key: FileKey)
    requires IsRun(ops, files, events, end) && !key.EpisodesFile?
    ensures FileOf(end, key) == Replay(LineageOf(end.history, key), ops, InitOf(files, key))
    ensures LineageOf(end.history, key) == EffectsOn(end.history.effects, ops, key) <==> Clean(end.history, ops, key)
    ensures |end.pcs| == |ops| && forall i, j | 0 <= i < |ops| && 0 <= j < |ops| && LockOf(end.pcs[i]).Some?
      && LockOf(end.pcs[j]).Some? && ops[i].user == ops[j].user :: i == j
  {
    RunKeepsInv(ops, files, events, end);
    assert KeyInv(end.history, FileOf(end, key), ops, key, InitOf(files, key));
    forall i, j | 0 <= i < |ops| && 0 <= j < |ops| && LockOf(end.pcs[i]).Some? && LockOf(end.pcs[j]).Some?
                  && ops[i].user == ops[j].user
      ensures i == j
    {
      SameUserSameHolder(end, ops, i, j);
    }
  }

  lemma {:induction false} EffectIsOnFile(effects: seq<nat>, ops: seq<Op>, i: nat)
    requires i in effects && i < |ops|
    ensures i in EffectsOn(effects, ops, KeyOf(ops[i]))
  {
    var n := |effects| - 1;
    if effects[n] != i {
      assert i in effects[..n];
      EffectIsOnFile(effects[..n], ops, i);
    }
  }

  lemma RaisedStep(st: State, ops: seq<Op>, e: Event, i: nat)
    requires Enabled(st, ops, e)
    ensures var next := Step(st, ops, e).history;
      && (i in next.failed ==> i in st.history.failed || e == Fail(i) || e == Abandon(i))
      && (i in next.abandoned ==> i in st.history.abandoned || e == Abandon(i))
  {
  }

  lemma {:induction false} RaisedEvents(ops: seq<Op>, files: map<FileKey, Content>, events: seq<Event>, end: State,
                                        i: nat)
    requires IsRun(ops, files, events, end)
    ensures i in end.history.failed ==> Fail(i) in events || Abandon(i) in events
    ensures i in end.history.abandoned ==> Abandon(i) in events
  {
    if events == [] {
    } else {
      var n := |events| - 1;
      var before := Run(Initial(files, |ops|), ops, events[..n]).value;
      RaisedEvents(ops, files, events[..n], before, i);
      RaisedStep(before, ops, events[n], i);
      assert forall e | e in events[..n] :: e in events;
    }
  }

  /** A writer that returned without raising took effect, and its effect is in its file's lineage if no writer of
      the file wrote back an outdated read. */
  lemma NothingDropped(ops: seq<Op>, files: map<FileKey, Content>, events: seq<Event>, end: State, i: nat)
    requires IsRun(ops, files, events, end) && i < |ops| && i < |end.pcs| && end.pcs[i] == Finished
    ensures Fail(i) !in events && Abandon(i) !in events ==> i in end.history.effects
    ensures i in end.history.effects && Clean(end.history, ops, KeyOf(ops[i]))
            ==> i in LineageOf(end.history, KeyOf(ops[i]))
  {
    RunKeepsInv(ops, files, events, end);
    RaisedEvents(ops, files, events, end, i);
    if i in end.history.effects { EffectIsOnFile(end.history.effects, ops, i); }
    assert KeyInv(end.history, FileOf(end, KeyOf(ops[i])), ops, KeyOf(ops[i]), InitOf(files, KeyOf(ops[i])));
  }

  // ----- waiting for abandoned threads

  /** No abandoned thread, other than i's own, still works on i's file. */
  ghost predicate NoneAtLarge(st: State, ops: seq<Op>, i: nat)
    requires i < |ops| == |st.pcs|
  {
    forall j | 0 <= j < |ops| && j != i && KeyOf(ops[j]) == KeyOf(ops[i]) :: !AtLarge(st.pcs[j])
  }

  /** No writer gets its lock while an abandoned thread still works on the same file. */
  ghost predicate Waited(ops: seq<Op>, files: map<FileKey, Content>, events: seq<Event>)
    requires Run(Initial(files, |ops|), ops, events).Some?
  {
    events != [] ==>
      var n := |events| - 1;
      && Waited(ops, files, events[..n])
      && (events[n].Acquire? ==> NoneAtLarge(Run(Initial(files, |ops|), ops, events[..n]).value, ops, events[n].i))
  }

  /** Nobody who takes the lock later works on i's file. */
  ghost predicate LastOnFile(acquired: seq<nat>, ops: seq<Op>, i: nat)
    requires i < |ops|
  {
    exists p | 0 <= p < |acquired| :: LastOnFileAt(acquired, ops, i, p)
  }

  ghost predicate LastOnFileAt(acquired: seq<nat>, ops: seq<Op>, i: nat, p: nat)
    requires i < |ops| && p < |acquired|
  {
    acquired[p] == i
    && forall q | p < q < |acquired| :: acquired[q] < |ops| ==> KeyOf(ops[acquired[q]]) != KeyOf(ops[i])
  }

  /** The writers of the file that took effect, in lock order. */
  function InLockOrder(acquired: seq<nat>, effects: seq<nat>, ops: seq<Op>, key: FileKey): seq<nat> {
    if acquired == [] then []
    else
      var n := |acquired| - 1;
      var before := InLockOrder(acquired[..n], effects, ops, key);
      if acquired[n] in effects && acquired[n] < |ops| && KeyOf(ops[acquired[n]]) == key
      then before + [acquired[n]] else before
  }

  predicate AtWork(pc: Pc) { LockOf(pc).Some? || AtLarge(pc) }

  /** One writer at a time works on a file. */
  ghost predicate OneAtWork(st: State, ops: seq<Op>) {
    && |st.pcs| == |ops|
    && forall i, j | 0 <= i < |ops| && 0 <= j < |ops| && AtWork(st.pcs[i]) && AtWork(st.pcs[j])
         && KeyOf(ops[i]) == KeyOf(ops[j]) :: i == j
  }

  ghost predicate LastAtWork(st: State, ops: seq<Op>) {
    && |st.pcs| == |ops|
    && forall i | 0 <= i < |ops| && AtWork(st.pcs[i]) :: LastOnFile(st.acquired, ops, i)
  }

  /** Every read is up to date, now and whenever it took effect. */
  ghost predicate UpToDate(st: State, ops: seq<Op>) {
    && |st.pcs| == |ops| && st.history.outdated == {}
    && forall i | 0 <= i < |ops| && HasContent(st.pcs[i]) ::
         ReadingOf(st.history, i).seen == |EffectsOn(st.history.effects, ops, KeyOf(ops[i]))|
  }

  ghost predicate OrderedEffects(st: State, ops: seq<Op>) {
    forall key :: EffectsOn(st.history.effects, ops, key) == InLockOrder(st.acquired, st.history.effects, ops, key)
  }

  lemma KeyHasUser(a: Op, b: Op)
    requires KeyOf(a) == KeyOf(b)
    ensures a.user == b.user
  {
  }

  /** Whoever gets the lock finds nobody at work on its file. */
  lemma AcquirerIsAlone(st: State, ops: seq<Op>, i: nat, j: nat)
    requires LocksAssigned(st, ops) && Exclusive(st, ops) && Enabled(st, ops, Acquire(i)) && NoneAtLarge(st, ops, i)
    requires j < |ops| && j != i && AtWork(st.pcs[j])
    ensures KeyOf(ops[j]) != KeyOf(ops[i])
  {
    if KeyOf(ops[j]) == KeyOf(ops[i]) {
      KeyHasUser(ops[i], ops[j]);
      NoOtherHolder(st, ops, i, j);
    }
  }

  lemma StepKeepsOneAtWork(st: State, ops: seq<Op>, e: Event)
    requires LocksAssigned(st, ops) && Exclusive(st, ops) && OneAtWork(st, ops) && Enabled(st, ops, e)
    requires e.Acquire? ==> NoneAtLarge(st, ops, e.i)
    ensures OneAtWork(Step(st, ops, e), ops)
  {
    var next := Step(st, ops, e);
    assert forall j | 0 <= j < |ops| && j != e.i :: next.pcs[j] == st.pcs[j];
    if e.Acquire? {
      forall j | 0 <= j < |ops| && j != e.i && AtWork(st.pcs[j]) ensures KeyOf(ops[j]) != KeyOf(ops[e.i]) {
        AcquirerIsAlone(st, ops, e.i, j);
      }
    } else {
      assert AtWork(next.pcs[e.i]) ==> AtWork(st.pcs[e.i]);
    }
  }

  lemma AcquireKeepsLastAtWork(st: State, ops: seq<Op>, i: nat)
    requires LocksAssigned(st, ops) && Exclusive(st, ops) && LastAtWork(st, ops)
    requires Enabled(st, ops, Acquire(i)) && NoneAtLarge(st, ops, i)
    ensures LastAtWork(Step(st, ops, Acquire(i)), ops)
  {
    var next := Step(st, ops, Acquire(i));
    forall j | 0 <= j < |ops| && AtWork(next.pcs[j]) ensures LastOnFile(next.acquired, ops, j) {
      if j == i {
        assert LastOnFileAt(next.acquired, ops, j, |st.acquired|);
      } else {
        AcquirerIsAlone(st, ops, i, j);
        var p :| 0 <= p < |st.acquired| && LastOnFileAt(st.acquired, ops, j, p);
        assert LastOnFileAt(next.acquired, ops, j, p);
      }
    }
  }

  lemma StepKeepsLastAtWork(st: State, ops: seq<Op>, e: Event)
    requires LocksAssigned(st, ops) && Exclusive(st, ops) && LastAtWork(st, ops) && Enabled(st, ops, e)
    requires e.Acquire? ==> NoneAtLarge(st, ops, e.i)
    ensures LastAtWork(Step(st, ops, e), ops)
  {
    var next := Step(st, ops, e);
    if e.Acquire? {
      AcquireKeepsLastAtWork(st, ops, e.i);
    } else {
      forall j | 0 <= j < |ops| && AtWork(next.pcs[j]) ensures LastOnFile(next.acquired, ops, j) {
        assert AtWork(st.pcs[j]) && next.acquired == st.acquired;
      }
    }
  }

  lemma EffectKeepsUpToDate(st: State, ops: seq<Op>, i: nat, pc: Pc, init: map<FileKey, Content>)
    requires OneAtWork(st, ops) && UpToDate(st, ops) && ReadsInv(st, ops, init)
    requires i < |ops| && HasContent(st.pcs[i]) && !HasContent(pc)
    ensures UpToDate(TakeEffect(st, ops, i, st.pcs[i].content, pc), ops)
  {
    var loaded := st.pcs[i].content;
    var next := TakeEffect(st, ops, i, loaded, pc);
    assert ReadInv(st.history, loaded, FileOf(st, KeyOf(ops[i])), ops, i, InitOf(init, KeyOf(ops[i])));
    forall j | 0 <= j < |ops| && HasContent(next.pcs[j])
      ensures ReadingOf(next.history, j).seen == |EffectsOn(next.history.effects, ops, KeyOf(ops[j]))|
    {
      assert AtWork(st.pcs[i]) && AtWork(st.pcs[j]);
      EffectElsewhere(st.history, ops, i, loaded, FileOf(st, KeyOf(ops[i])), KeyOf(ops[j]));
    }
  }

  lemma StepKeepsUpToDate(st: State, ops: seq<Op>, e: Event, init: map<FileKey, Content>)
    requires OneAtWork(st, ops) && UpToDate(st, ops) && ReadsInv(st, ops, init) && Enabled(st, ops, e)
    ensures UpToDate(Step(st, ops, e), ops)
  {
    if e.Write? || e.LateWrite? { EffectKeepsUpToDate(st, ops, e.i, Step(st, ops, e).pcs[e.i], init); }
  }

  lemma {:induction false} OrderUnaffected(acquired: seq<nat>, effects: seq<nat>, ops: seq<Op>, key: FileKey, i: nat)
    requires i < |ops| && (i in acquired ==> KeyOf(ops[i]) != key)
    ensures InLockOrder(acquired, effects + [i], ops, key) == InLockOrder(acquired, effects, ops, key)
  {
    if acquired == [] {
    } else {
      OrderUnaffected(acquired[..|acquired| - 1], effects, ops, key, i);
    }
  }

  /** The last writer on its file takes its place at the end. */
  lemma {:induction false} OrderExtended(acquired: seq<nat>, effects: seq<nat>, ops: seq<Op>, i: nat, p: nat)
    requires i < |ops| && i !in effects && Distinct(acquired)
    requires p < |acquired| && LastOnFileAt(acquired, ops, i, p)
    ensures var key := KeyOf(ops[i]);
      InLockOrder(acquired, effects + [i], ops, key) == InLockOrder(acquired, effects, ops, key) + [i]
  {
    var n := |acquired| - 1;
    if p == n {
      assert i !in acquired[..n];
      OrderUnaffected(acquired[..n], effects, ops, KeyOf(ops[i]), i);
    } else {
      assert LastOnFileAt(acquired[..n], ops, i, p);
      OrderExtended(acquired[..n], effects, ops, i, p);
    }
  }

  lemma EffectKeepsOrder(st: State, ops: seq<Op>, i: nat, pc: Pc)
    requires Accounted(st, ops) && OrderedAcquisition(st, ops) && LastAtWork(st, ops) && OrderedEffects(st, ops)
    requires i < |ops| && HasContent(st.pcs[i])
    ensures OrderedEffects(TakeEffect(st, ops, i, st.pcs[i].content, pc), ops)
  {
    var effects := st.history.effects;
    assert AtWork(st.pcs[i]) && i !in effects;
    forall key ensures EffectsOn(effects + [i], ops, key) == InLockOrder(st.acquired, effects + [i], ops, key) {
      EffectsSnoc(effects, ops, key, i);
      if key == KeyOf(ops[i]) {
        var p :| 0 <= p < |st.acquired| && LastOnFileAt(st.acquired, ops, i, p);
        OrderExtended(st.acquired, effects, ops, i, p);
      } else {
        OrderUnaffected(st.acquired, effects, ops, key, i);
      }
    }
  }

  lemma AcquireKeepsEffectOrder(st: State, ops: seq<Op>, i: nat)
    requires Accounted(st, ops) && OrderedEffects(st, ops) && Enabled(st, ops, Acquire(i))
    ensures OrderedEffects(Step(st, ops, Acquire(i)), ops)
  {
    assert i !in st.history.effects;
    assert (st.acquired + [i])[..|st.acquired|] == st.acquired;
    forall key
      ensures EffectsOn(st.history.effects, ops, key) == InLockOrder(st.acquired + [i], st.history.effects, ops, key)
    {
      assert EffectsOn(st.history.effects, ops, key) == InLockOrder(st.acquired, st.history.effects, ops, key);
    }
  }

  lemma SameOrder(st: State, next: State, ops: seq<Op>)
    requires OrderedEffects(st, ops) && next.acquired == st.acquired && next.history.effects == st.history.effects
    ensures OrderedEffects(next, ops)
  {
    forall key
      ensures EffectsOn(next.history.effects, ops, key) == InLockOrder(next.acquired, next.history.effects, ops, key)
    {
      assert EffectsOn(st.history.effects, ops, key) == InLockOrder(st.acquired, st.history.effects, ops, key);
    }
  }

  lemma StepKeepsEffectOrder(st: State, ops: seq<Op>, e: Event)
    requires Accounted(st, ops) && OrderedAcquisition(st, ops) && LastAtWork(st, ops) && OrderedEffects(st, ops)
    requires Enabled(st, ops, e)
    ensures OrderedEffects(Step(st, ops, e), ops)
  {
    var next := Step(st, ops, e);
    if e.Write? || e.LateWrite? {
      EffectKeepsOrder(st, ops, e.i, next.pcs[e.i]);
    } else if e.Acquire? {
      AcquireKeepsEffectOrder(st, ops, e.i);
    } else {
      SameOrder(st, next, ops);
    }
  }

  ghost predicate WaitInv(st: State, ops: seq<Op>) {
    OneAtWork(st, ops) && LastAtWork(st, ops) && UpToDate(st, ops) && OrderedEffects(st, ops)
  }

  lemma {:induction false} WaitedRunKeepsInv(ops: seq<Op>, files: map<FileKey, Content>, events: seq<Event>, end: State)
    requires IsRun(ops, files, events, end) && Waited(ops, files, events)
    ensures WaitInv(end, ops)
  {
    if events == [] {
    } else {
      var n := |events| - 1;
      var before := Run(Initial(files, |ops|), ops, events[..n]).value;
      WaitedRunKeepsInv(ops, files, events[..n], before);
      RunKeepsInv(ops, files, events[..n], before);
      StepKeepsOneAtWork(before, ops, events[n]);
      StepKeepsLastAtWork(before, ops, events[n]);
      StepKeepsUpToDate(before, ops, events[n], files);
      StepKeepsEffectOrder(before, ops, events[n]);
    }
  }

  /** If no writer gets its lock while an abandoned thread still works on the same file, every file - episodes too -
      is its effects applied one by one in lock order. */
  lemma WaitedRunsLoseNothing(ops: seq<Op>, files: map<FileKey, Content>, events: seq<Event>, end: State, key: FileKey)
    requires IsRun(ops, files, events, end) && Waited(ops, files, events)
    ensures Clean(end.history, ops, key)
    ensures FileOf(end, key)
            == Replay(InLockOrder(end.acquired, end.history.effects, ops, key), ops, InitOf(files, key))
  {
    RunKeepsInv(ops, files, events, end);
    WaitedRunKeepsInv(ops, files, events, end);
    assert KeyInv(end.history, FileOf(end, key), ops, key, InitOf(files, key));
  }

  /** In particular when no writer is cancelled with its thread at work. */
  lemma {:induction false} UncancelledRunsWait(ops: seq<Op>, files: map<FileKey, Content>, events: seq<Event>,
                                               end: State)
    requires IsRun(ops, files, events, end) && forall e | e in events :: !e.Abandon?
    ensures Waited(ops, files, events)
  {
    if events == [] {
    } else {
      var n := |events| - 1;
      var before := Run(Initial(files, |ops|), ops, events[..n]).value;
      UncancelledRunsWait(ops, files, events[..n], before);
      RunKeepsInv(ops, files, events[..n], before);
      forall j | 0 <= j < |ops| ensures !AtLarge(before.pcs[j]) {
        RaisedEvents(ops, files, events[..n], before, j);
      }
    }
  }

  // ----- a lost update

  /** The first writer is cancelled with its write in the thread; the second gets the lock, writes and returns;
      then the thread replaces the file. */
  const LOSING_RUN := [Request(0), Acquire(0), Load(0), Abandon(0),
                       Request(1), Acquire(1), Load(1), Write(1), Release(1),
                       LateWrite(0)]

  function LosingState(ops: seq<Op>, files: map<FileKey, Content>, n: nat): Option<State>
    requires n <= |LOSING_RUN|
  {
    if n == 0 then Some(Initial(files, |ops|))
    else
      var before := LosingState(ops, files, n - 1);
      if before.Some? && Enabled(before.value, ops, LOSING_RUN[n - 1])
      then Some(Step(before.value, ops, LOSING_RUN[n - 1])) else None
  }

  lemma {:induction false} LosingStateIsRun(ops: seq<Op>, files: map<FileKey, Content>, n: nat)
    requires n <= |LOSING_RUN|
    ensures Run(Initial(files, |ops|), ops, LOSING_RUN[..n]) == LosingState(ops, files, n)
  {
    if n == 0 {
    } else {
      LosingStateIsRun(ops, files, n - 1);
      assert LOSING_RUN[..n][..n - 1] == LOSING_RUN[..n - 1];
    }
  }

  lemma LosingStep(ops: seq<Op>, n: nat, before: State, e: Event)
    requires n < |LOSING_RUN| && LOSING_RUN[n] == e && LosingState(ops, map[], n) == Some(before)
             && Enabled(before, ops, e)
    ensures LosingState(ops, map[], n + 1) == Some(Step(before, ops, e))
  {
  }

  /** The first writer gets the lock. */
  lemma LosingStart(ops: seq<Op>, user: string) returns (s: State)
    requires |ops| == 2 && ops[0].UpsertProfileItem? && ops[0].user == user && Supported(ops[0])
    ensures LosingState(ops, map[], 2) == Some(s)
    ensures s.pcs == [Holding(0), Idle] && s.files == map[] && s.locks == [Some(0)] && s.registry == map[user := 0]
    ensures s.history == NO_HISTORY
  {
    s := Initial(map[], 2);
    LosingStep(ops, 0, s, Request(0));
    s := Step(s, ops, Request(0));
    assert s.pcs == [Waiting(0), Idle] && s.locks == [None];
    LosingStep(ops, 1, s, Acquire(0));
    s := Step(s, ops, Acquire(0));
  }

  /** It loads and is cancelled. */
  lemma LosingCancel(ops: seq<Op>, user: string, s2: State) returns (s: State)
    requires |ops| == 2 && LosingState(ops, map[], 2) == Some(s2)
    requires s2.pcs == [Holding(0), Idle] && s2.files == map[] && s2.locks == [Some(0)] && s2.registry == map[user := 0]
    requires s2.history == NO_HISTORY
    ensures LosingState(ops, map[], 4) == Some(s)
    ensures s.pcs == [Detached(EMPTY), Idle] && s.files == map[] && s.locks == [None] && s.registry == map[user := 0]
    ensures s.history.effects == [] && s.history.failed == {0}
  {
    LosingStep(ops, 2, s2, Load(0));
    s := Step(s2, ops, Load(0));
    assert s.pcs == [Loaded(0, EMPTY), Idle];
    LosingStep(ops, 3, s, Abandon(0));
    s := Step(s, ops, Abandon(0));
  }

  /** The second writer gets the lock and loads. */
  lemma LosingMiddle(ops: seq<Op>, user: string, s4: State) returns (s: State)
    requires |ops| == 2 && ops[1].UpsertProfileItem? && ops[1].user == user && Supported(ops[1])
    requires LosingState(ops, map[], 4) == Some(s4)
    requires s4.pcs == [Detached(EMPTY), Idle] && s4.files == map[] && s4.locks == [None]
             && s4.registry == map[user := 0]
    ensures LosingState(ops, map[], 7) == Some(s)
    ensures s.pcs == [Detached(EMPTY), Loaded(0, EMPTY)] && s.files == map[] && s.locks == [Some(1)]
    ensures s.history.effects == s4.history.effects && s.history.failed == s4.history.failed
  {
    s := s4;
    LosingStep(ops, 4, s, Request(1));
    s := Step(s, ops, Request(1));
    assert s.pcs == [Detached(EMPTY), Waiting(0)] && s.locks == [None];
    LosingStep(ops, 5, s, Acquire(1));
    s := Step(s, ops, Acquire(1));
    assert s.pcs == [Detached(EMPTY), Holding(0)] && s.locks == [Some(1)];
    LosingStep(ops, 6, s, Load(1));
    s := Step(s, ops, Load(1));
  }

  /** It writes and returns. */
  lemma LosingReturn(ops: seq<Op>, s7: State) returns (s: State)
    requires |ops| == 2 && LosingState(ops, map[], 7) == Some(s7)
    requires s7.pcs == [Detached(EMPTY), Loaded(0, EMPTY)] && s7.locks == [Some(1)]
    requires s7.history.effects == [] && s7.history.failed == {0}
    ensures LosingState(ops, map[], 9) == Some(s)
    ensures s.pcs == [Detached(EMPTY), Finished] && s.history.effects == [1] && s.history.failed == {0}
  {
    LosingStep(ops, 7, s7, Write(1));
    s := Step(s7, ops, Write(1));
    assert s.pcs == [Detached(EMPTY), Written(0)] && s.history.effects == [1];
    LosingStep(ops, 8, s, Release(1));
    s := Step(s, ops, Release(1));
  }

  /** The thread left behind writes. */
  lemma LosingEnd(ops: seq<Op>, user: string, s9: State, a: Item) returns (s: State)
    requires |ops| == 2 && ops[0] == UpsertProfileItem(user, "constraints", a)
    requires LosingState(ops, map[], 9) == Some(s9)
    requires s9.pcs == [Detached(EMPTY), Finished] && s9.history.effects == [1] && s9.history.failed == {0}
    ensures LosingState(ops, map[], 10) == Some(s)
    ensures s.pcs == [Finished, Finished] && 1 in s.history.effects && 1 !in s.history.failed
    ensures FileOf(s, ProfileFile(user)) == Content(map["constraints" := [a]])
  {
    LosingStep(ops, 9, s9, LateWrite(0));
    s := Step(s9, ops, LateWrite(0));
    assert s.history.effects == [1, 0];
    assert Upserted([], a) == [a];
  }

  /** Two upserts of one user: after this run the second writer has returned without raising, took effect, and its
      item is not in the file. */
  lemma CancelledWriteLosesUpdate(user: string, a: Item, b: Item)
    requires a.id != b.id
    ensures var bucket := "constraints";
      var ops := [UpsertProfileItem(user, bucket, a), UpsertProfileItem(user, bucket, b)];
      exists end ::
        && IsRun(ops, map[], LOSING_RUN, end)
        && |end.pcs| == 2 && end.pcs[1] == Finished && 1 in end.history.effects && 1 !in end.history.failed
        && FileOf(end, ProfileFile(user)) == Content(map[bucket := [a]])
  {
    var bucket := "constraints";
    var ops := [UpsertProfileItem(user, bucket, a), UpsertProfileItem(user, bucket, b)];
    var s2 := LosingStart(ops, user);
    var s4 := LosingCancel(ops, user, s2);
    var s7 := LosingMiddle(ops, user, s4);
    var s9 := LosingReturn(ops, s7);
    var s10 := LosingEnd(ops, user, s9, a);
    LosingStateIsRun(ops, map[], 10);
    assert LOSING_RUN[..10] == LOSING_RUN;
    assert IsRun(ops, map[], LOSING_RUN, s10);
  }

  // ----- episodes

  function EpisodesIn(c: Content): seq<Item> { BucketItems(c, ITEMS) }

  /** An episodes file only grows, by the episodes that took effect; ids stay unique exactly when no append was
      decided on an outdated read. */
  ghost predicate EpisodesInv(st: State, ops: seq<Op>, init: map<FileKey, Content>, user: string) {
    var key := EpisodesFile(user);
    var items, first := EpisodesIn(FileOf(st, key)), EpisodesIn(InitOf(init, key));
    && first <= items
    && (forall i | i in st.history.effects && i < |ops| && KeyOf(ops[i]) == key ::
          ops[i].AppendEpisode? && HasId(items, ops[i].item.id))
    && (UniqueIds(first) ==> (Clean(st.history, ops, key) <==> UniqueIds(items)))
  }

  lemma UniqueAppended(items: seq<Item>, item: Item)
    ensures UniqueIds(items + [item]) <==> UniqueIds(items) && !HasId(items, item.id)
  {
    var longer := items + [item];
    HasIdIs(items, item.id);
    assert forall k | 0 <= k < |items| :: longer[k] == items[k];
    assert longer[|items|] == item;
    if HasId(items, item.id) {
      var k :| 0 <= k < |items| && items[k].id == item.id;
      assert longer[k].id == longer[|items|].id;
    }
  }

  lemma AppendKeepsEpisodes(st: State, ops: seq<Op>, i: nat, pc: Pc, init: map<FileKey, Content>)
    requires ReadsInv(st, ops, init) && i < |ops| && HasContent(st.pcs[i]) && ops[i].AppendEpisode?
    requires EpisodesInv(st, ops, init, ops[i].user)
    ensures EpisodesInv(TakeEffect(st, ops, i, st.pcs[i].content, pc), ops, init, ops[i].user)
  {
    var key, loaded, id := KeyOf(ops[i]), st.pcs[i].content, ops[i].item.id;
    var current := FileOf(st, key);
    var next, items := TakeEffect(st, ops, i, loaded, pc), EpisodesIn(current);
    assert ReadInv(st.history, loaded, current, ops, i, InitOf(init, key));
    UniqueAppended(items, ops[i].item);
    forall j | j in next.history.effects && j < |ops| && KeyOf(ops[j]) == key
      ensures ops[j].AppendEpisode? && HasId(EpisodesIn(FileOf(next, key)), ops[j].item.id)
    {
      IdAppended(items, ops[i].item, ops[j].item.id);
    }
    if Outdated(ops[i], ReadingOf(st.history, i), loaded, current, |EffectsOn(st.history.effects, ops, key)|) {
      assert i in next.history.outdated;
    } else {
      assert next.history.outdated == st.history.outdated;
    }
  }

  lemma OtherEffectKeepsEpisodes(st: State, ops: seq<Op>, i: nat, pc: Pc, init: map<FileKey, Content>, user: string)
    requires i < |ops| == |st.pcs| && HasContent(st.pcs[i]) && KeyOf(ops[i]) != EpisodesFile(user)
    requires EpisodesInv(st, ops, init, user)
    ensures EpisodesInv(TakeEffect(st, ops, i, st.pcs[i].content, pc), ops, init, user)
  {
    EffectElsewhere(st.history, ops, i, st.pcs[i].content, FileOf(st, KeyOf(ops[i])), EpisodesFile(user));
  }

  lemma StepKeepsEpisodes(st: State, ops: seq<Op>, e: Event, init: map<FileKey, Content>, user: string)
    requires ReadsInv(st, ops, init) && EpisodesInv(st, ops, init, user) && Enabled(st, ops, e)
    ensures EpisodesInv(Step(st, ops, e), ops, init, user)
  {
    if e.Write? || e.LateWrite? {
      if KeyOf(ops[e.i]) == EpisodesFile(user) {
        AppendKeepsEpisodes(st, ops, e.i, Step(st, ops, e).pcs[e.i], init);
      } else {
        OtherEffectKeepsEpisodes(st, ops, e.i, Step(st, ops, e).pcs[e.i], init, user);
      }
    }
  }

  /** No episode is ever lost, whoever is cancelled; but a thread left behind may append an id a second time. */
  lemma {:induction false} EpisodesNeverLost(ops: seq<Op>, files: map<FileKey, Content>, events: seq<Event>,
                                             end: State, user: string)
    requires IsRun(ops, files, events, end)
    ensures EpisodesInv(end, ops, files, user)
  {
    if events == [] {
    } else {
      var n := |events| - 1;
      var before := Run(Initial(files, |ops|), ops, events[..n]).value;
      EpisodesNeverLost(ops, files, events[..n], before, user);
      RunKeepsInv(ops, files, events[..n], before);
      StepKeepsEpisodes(before, ops, events[n], files, user);
    }
  }

  // ----- ids, other files, saves

  lemma {:induction false} ReplayKeepsUnique(order: seq<nat>, ops: seq<Op>, init: Content)
    requires UniquePerBucket(init) && forall i | 0 <= i < |ops| :: SavesUnique(ops[i])
    ensures UniquePerBucket(Replay(order, ops, init))
  {
    if order == [] {
    } else {
      var n := |order| - 1;
      ReplayKeepsUnique(order[..n], ops, init);
      if order[n] < |ops| { ApplyKeepsUnique(ops[order[n]], Replay(order[..n], ops, init)); }
    }
  }

  /** Item ids stay unique in every bucket of every profile and working-memory file, whoever is cancelled. */
  lemma IdsStayUnique(ops: seq<Op>, files: map<FileKey, Content>, events: seq<Event>, end: State, key: FileKey)
    requires IsRun(ops, files, events, end) && !key.EpisodesFile?
    requires UniquePerBucket(InitOf(files, key)) && forall i | 0 <= i < |ops| :: SavesUnique(ops[i])
    ensures UniquePerBucket(FileOf(end, key))
  {
    NoLostUpdates(ops, files, events, end, key);
    ReplayKeepsUnique(LineageOf(end.history, key), ops, InitOf(files, key));
  }

  lemma {:induction false} NoEffects(effects: seq<nat>, ops: seq<Op>, key: FileKey)
    requires forall i | 0 <= i < |ops| :: KeyOf(ops[i]) != key
    ensures EffectsOn(effects, ops, key) == []
  {
    if effects == [] {
    } else {
      NoEffects(effects[..|effects| - 1], ops, key);
    }
  }

  /** A file no operation is for keeps its content; in particular other users' files do. */
  lemma OtherFilesUntouched(ops: seq<Op>, files: map<FileKey, Content>, events: seq<Event>, end: State, key: FileKey)
    requires IsRun(ops, files, events, end)
    requires forall i | 0 <= i < |ops| :: ops[i].user != key.user || KeyOf(ops[i]) != key
    ensures FileOf(end, key) == InitOf(files, key)
  {
    RunKeepsInv(ops, files, events, end);
    NoEffects(end.history.effects, ops, key);
    assert KeyInv(end.history, FileOf(end, key), ops, key, InitOf(files, key));
    assert Clean(end.history, ops, key);
  }

  /** Saving a whole profile erases what was written before it, whatever profile it was prepared from: the file
      is the saved profile and what comes after. */
  lemma {:induction false} SaveErasesEarlierUpdates(order: seq<nat>, ops: seq<Op>, init: Content, p: nat)
    requires p < |order| && order[p] < |ops| && ops[order[p]].SaveProfile?
    ensures Replay(order, ops, init) == Replay(order[p + 1..], ops, ops[order[p]].profile)
  {
    var n := |order| - 1;
    if p < n {
      SaveErasesEarlierUpdates(order[..n], ops, init, p);
      assert order[p + 1..][..n - p - 1] == order[..n][p + 1..];
    }
  }
}
