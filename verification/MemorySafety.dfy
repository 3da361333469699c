/** What the per-user store keeps over every interleaving of its writers and of the threads that cancelled
    writers leave behind. */
module MemorySafety {
  import opened Basics
  import opened MemoryStore
  import opened Sequences

  // ----- locks

  /** One lock per user, distinct users' locks distinct, and every writer on its user's lock. */
  ghost predicate LocksAssigned(st: State, ops: seq<Op>) {
    && |st.pcs| == |ops|
    && (forall u | u in st.registry :: st.registry[u] < |st.locks|)
    && (forall u, v | u in st.registry && v in st.registry && u != v :: st.registry[u] != st.registry[v])
    && (forall i | 0 <= i < |ops| && st.pcs[i].Waiting? ::
          ops[i].user in st.registry && st.pcs[i].lock == st.registry[ops[i].user])
    && (forall i | 0 <= i < |ops| && LockOf(st.pcs[i]).Some? ::
          ops[i].user in st.registry && LockOf(st.pcs[i]) == Some(st.registry[ops[i].user]))
  }

  /** A writer is past acquiring and before leaving exactly while its lock names it. */
  ghost predicate Exclusive(st: State, ops: seq<Op>) {
    && |st.pcs| == |ops|
    && (forall i | 0 <= i < |ops| && LockOf(st.pcs[i]).Some? ::
          LockOf(st.pcs[i]).value < |st.locks| && st.locks[LockOf(st.pcs[i]).value] == Some(i))
    && (forall l | 0 <= l < |st.locks| && st.locks[l].Some? ::
          st.locks[l].value < |ops| && LockOf(st.pcs[st.locks[l].value]) == Some(l))
  }

  /** A step that leaves registry and locks in place and does not move its writer to another lock. */
  lemma LocksSame(a: State, b: State, ops: seq<Op>, i: nat, pc: Pc)
    requires i < |ops| == |a.pcs| && LocksAssigned(a, ops)
    requires b.registry == a.registry && |b.locks| == |a.locks| && b.pcs == a.pcs[i := pc]
    requires !pc.Waiting?
    requires LockOf(pc).Some? ==>
      LockOf(pc) == LockOf(a.pcs[i]) || (a.pcs[i].Waiting? && LockOf(pc) == Some(a.pcs[i].lock))
    ensures LocksAssigned(b, ops)
  {
  }

  lemma RequestKeepsLocks(st: State, ops: seq<Op>, i: nat)
    requires Enabled(st, ops, Request(i)) && LocksAssigned(st, ops)
    ensures LocksAssigned(Step(st, ops, Request(i)), ops)
  {
  }

  lemma StepKeepsLocks(st: State, ops: seq<Op>, e: Event)
    requires Enabled(st, ops, e) && LocksAssigned(st, ops)
    ensures LocksAssigned(Step(st, ops, e), ops)
  {
    if e.Request? {
      RequestKeepsLocks(st, ops, e.i);
    } else {
      var next := Step(st, ops, e);
      LocksSame(st, next, ops, e.i, next.pcs[e.i]);
    }
  }

  lemma ExclusiveSame(a: State, b: State, ops: seq<Op>, i: nat, pc: Pc)
    requires i < |ops| == |a.pcs| && Exclusive(a, ops)
    requires b.pcs == a.pcs[i := pc] && LockOf(pc) == LockOf(a.pcs[i])
    requires b.locks == a.locks || b.locks == a.locks + [None]
    ensures Exclusive(b, ops)
  {
    assert forall j | 0 <= j < |ops| :: LockOf(b.pcs[j]) == LockOf(a.pcs[j]);
  }

  lemma ExclusiveTake(a: State, b: State, ops: seq<Op>, i: nat, l: nat)
    requires i < |ops| == |a.pcs| && Exclusive(a, ops)
    requires l < |a.locks| && a.locks[l] == None && LockOf(a.pcs[i]) == None
    requires b.pcs == a.pcs[i := Holding(l)] && b.locks == a.locks[l := Some(i)]
    ensures Exclusive(b, ops)
  {
    assert forall j | 0 <= j < |ops| && j != i :: LockOf(b.pcs[j]) == LockOf(a.pcs[j]);
  }

  lemma ExclusiveDrop(a: State, b: State, ops: seq<Op>, i: nat, l: nat, pc: Pc)
    requires i < |ops| == |a.pcs| && Exclusive(a, ops)
    requires l < |a.locks| && LockOf(a.pcs[i]) == Some(l) && LockOf(pc) == None
    requires b.pcs == a.pcs[i := pc] && b.locks == a.locks[l := None]
    ensures Exclusive(b, ops)
  {
    assert forall j | 0 <= j < |ops| && j != i :: LockOf(b.pcs[j]) == LockOf(a.pcs[j]);
    assert a.locks[l] == Some(i);
  }

  predicate Leaves(e: Event) { e.Release? || e.Fail? || e.Abandon? }

  lemma StepKeepsExclusive(st: State, ops: seq<Op>, e: Event)
    requires Enabled(st, ops, e) && Exclusive(st, ops)
    ensures Exclusive(Step(st, ops, e), ops)
  {
    var i, next := e.i, Step(st, ops, e);
    if e.Acquire? {
      ExclusiveTake(st, next, ops, i, st.pcs[i].lock);
    } else if Leaves(e) && LockOf(st.pcs[i]).Some? {
      ExclusiveDrop(st, next, ops, i, LockOf(st.pcs[i]).value, next.pcs[i]);
    } else {
      ExclusiveSame(st, next, ops, i, next.pcs[i]);
    }
  }

  /** Two writers of one user are never both inside their critical sections. */
  lemma SameUserSameHolder(st: State, ops: seq<Op>, i: nat, j: nat)
    requires LocksAssigned(st, ops) && Exclusive(st, ops)
    requires i < |ops| && j < |ops| && LockOf(st.pcs[i]).Some? && LockOf(st.pcs[j]).Some?
    ensures ops[i].user == ops[j].user ==> i == j
  {
  }

  // ----- the order of acquisition

  /** The acquisition order: each writer once, and the holder of a user's lock after all others of that user;
      who wrote, who is done, who was cancelled. */
  ghost predicate OrderedAcquisition(st: State, ops: seq<Op>) {
    && |st.pcs| == |ops|
    && Distinct(st.acquired)
    && (forall n | 0 <= n < |st.acquired| ::
          st.acquired[n] < |ops| && !st.pcs[st.acquired[n]].Idle? && !st.pcs[st.acquired[n]].Waiting?)
    && (forall i | 0 <= i < |ops| && LockOf(st.pcs[i]).Some? :: IsLastOfUser(st.acquired, ops, i))
  }

  ghost predicate Accounted(st: State, ops: seq<Op>) {
    && |st.pcs| == |ops|
    && (forall i | i in st.history.effects :: i < |ops| && (st.pcs[i].Written? || st.pcs[i].Finished?))
    && (forall i | 0 <= i < |ops| && st.pcs[i].Written? :: i in st.history.effects)
    && (forall i | 0 <= i < |ops| && st.pcs[i].Finished? :: i in st.history.effects || i in st.history.failed)
    && (forall i | 0 <= i < |ops| && AtLarge(st.pcs[i]) :: i in st.history.failed && i in st.history.abandoned)
    && (forall i | i in st.history.outdated :: i in st.history.effects)
  }

  /** Cancelled, with the thread still at work. */
  predicate AtLarge(pc: Pc) { pc.Adrift? || pc.Detached? }

  ghost predicate IsLastOfUser(acquired: seq<nat>, ops: seq<Op>, i: nat)
    requires i < |ops|
  {
    exists p | 0 <= p < |acquired| :: LastAt(acquired, ops, i, p)
  }

  ghost predicate LastAt(acquired: seq<nat>, ops: seq<Op>, i: nat, p: nat)
    requires i < |ops| && p < |acquired|
  {
    acquired[p] == i && forall q | p < q < |acquired| :: acquired[q] < |ops| ==> ops[acquired[q]].user != ops[i].user
  }

  /** Nobody else holds the lock of i's user while i takes it. */
  lemma NoOtherHolder(st: State, ops: seq<Op>, i: nat, j: nat)
    requires LocksAssigned(st, ops) && Exclusive(st, ops)
    requires i < |ops| && j < |ops| && Enabled(st, ops, Acquire(i))
    ensures ops[j].user == ops[i].user ==> LockOf(st.pcs[j]) == None
  {
  }

  lemma AcquireKeepsOrder(st: State, ops: seq<Op>, i: nat)
    requires LocksAssigned(st, ops) && Exclusive(st, ops) && OrderedAcquisition(st, ops)
    requires Enabled(st, ops, Acquire(i))
    ensures OrderedAcquisition(Step(st, ops, Acquire(i)), ops)
  {
    var next := Step(st, ops, Acquire(i));
    var n := |st.acquired|;
    assert i !in st.acquired;
    forall j | 0 <= j < |ops| && LockOf(next.pcs[j]).Some? ensures IsLastOfUser(next.acquired, ops, j) {
      if j == i {
        assert LastAt(next.acquired, ops, i, n);
      } else {
        assert LockOf(st.pcs[j]).Some?;
        NoOtherHolder(st, ops, i, j);
        var p :| 0 <= p < n && LastAt(st.acquired, ops, j, p);
        assert LastAt(next.acquired, ops, j, p);
      }
    }
  }

  lemma OtherStepsKeepOrder(st: State, ops: seq<Op>, e: Event)
    requires OrderedAcquisition(st, ops) && Enabled(st, ops, e) && !e.Acquire?
    ensures OrderedAcquisition(Step(st, ops, e), ops)
  {
    var next := Step(st, ops, e);
    forall j | 0 <= j < |ops| && LockOf(next.pcs[j]).Some? ensures IsLastOfUser(next.acquired, ops, j) {
      assert LockOf(st.pcs[j]).Some?;
    }
  }

  lemma EffectKeepsAccounted(st: State, ops: seq<Op>, i: nat, pc: Pc)
    requires Accounted(st, ops) && i < |ops| && HasContent(st.pcs[i]) && (pc.Written? || pc.Finished?)
    ensures Accounted(TakeEffect(st, ops, i, st.pcs[i].content, pc), ops)
  {
  }

  lemma StepKeepsAccounted(st: State, ops: seq<Op>, e: Event)
    requires Accounted(st, ops) && Enabled(st, ops, e)
    ensures Accounted(Step(st, ops, e), ops)
  {
    if e.Write? || e.LateWrite? { EffectKeepsAccounted(st, ops, e.i, Step(st, ops, e).pcs[e.i]); }
  }

  // ----- one by one

  ghost function InitOf(init: map<FileKey, Content>, key: FileKey): Content {
    if key in init then init[key] else EMPTY
  }

  /** The operations of the writers, one by one in the given order. */
  function Replay(order: seq<nat>, ops: seq<Op>, init: Content): Content {
    if order == [] then init
    else
      var n := |order| - 1;
      var before := Replay(order[..n], ops, init);
      if order[n] < |ops| then Apply(ops[order[n]], before) else before
  }

  lemma ReplaySnoc(order: seq<nat>, ops: seq<Op>, init: Content, i: nat)
    requires i < |ops|
    ensures Replay(order + [i], ops, init) == Apply(ops[i], Replay(order, ops, init))
  {
    assert (order + [i])[..|order|] == order;
  }

  lemma EffectsSnoc(effects: seq<nat>, ops: seq<Op>, key: FileKey, i: nat)
    requires i < |ops|
    ensures EffectsOn(effects + [i], ops, key)
         == if KeyOf(ops[i]) == key then EffectsOn(effects, ops, key) + [i] else EffectsOn(effects, ops, key)
  {
    assert (effects + [i])[..|effects|] == effects;
  }

  // ----- what a file holds

  /** No effect on the file was computed from an outdated read. */
  ghost predicate Clean(h: History, ops: seq<Op>, key: FileKey) {
    forall i | i in h.outdated && i < |ops| :: KeyOf(ops[i]) != key
  }

  /** A file holds its lineage; that is all effects on it when no read was outdated, and fewer otherwise. Appended
      episodes are never fewer. */
  ghost predicate KeyInv(h: History, file: Content, ops: seq<Op>, key: FileKey, init: Content) {
    var lineage, effects := LineageOf(h, key), EffectsOn(h.effects, ops, key);
    && |lineage| <= |effects|
    && (Clean(h, ops, key) ==> lineage == effects && file == Replay(effects, ops, init))
    && (if key.EpisodesFile? then lineage == effects
        else file == Replay(lineage, ops, init) && (!Clean(h, ops, key) ==> |lineage| < |effects|))
  }

  /** What a writer read was the file then, and is the file still if no effect fell on it since. */
  ghost predicate ReadInv(h: History, content: Content, file: Content, ops: seq<Op>, i: nat, init: Content)
    requires i < |ops|
  {
    var key, r := KeyOf(ops[i]), ReadingOf(h, i);
    var effects := EffectsOn(h.effects, ops, key);
    && r.seen <= |effects| && |r.base| <= r.seen
    && (r.seen == |effects| ==> r.base == LineageOf(h, key) && content == file)
    && (if key.EpisodesFile? then IdsWithin(content, file) else content == Replay(r.base, ops, init))
  }

  /** Every episode of a is in b. */
  ghost predicate IdsWithin(a: Content, b: Content) {
    forall id | HasId(BucketItems(a, ITEMS), id) :: HasId(BucketItems(b, ITEMS), id)
  }

  ghost predicate KeysInv(st: State, ops: seq<Op>, init: map<FileKey, Content>) {
    forall key :: KeyInv(st.history, FileOf(st, key), ops, key, InitOf(init, key))
  }

  ghost predicate ReadsInv(st: State, ops: seq<Op>, init: map<FileKey, Content>) {
    && |st.pcs| == |ops|
    && forall i | 0 <= i < |ops| && HasContent(st.pcs[i]) ::
         ReadInv(st.history, st.pcs[i].content, FileOf(st, KeyOf(ops[i])), ops, i, InitOf(init, KeyOf(ops[i])))
  }

  ghost predicate FilesInv(st: State, ops: seq<Op>, init: map<FileKey, Content>) {
    KeysInv(st, ops, init) && ReadsInv(st, ops, init)
  }

  lemma HasIdIs(items: seq<Item>, id: string)
    ensures HasId(items, id) <==> exists k | 0 <= k < |items| :: items[k].id == id
  {
    var k := SlotOf(items, id);
    if k < |items| { assert items[k].id == id; }
  }

  lemma IdAppended(items: seq<Item>, item: Item, id: string)
    ensures HasId(items + [item], id) <==> HasId(items, id) || item.id == id
  {
    var longer := items + [item];
    HasIdIs(items, id);
    HasIdIs(longer, id);
    assert longer[|items|] == item;
    if k :| 0 <= k < |items| && items[k].id == id { assert longer[k].id == id; }
  }

  lemma EpisodesGrow(op: Op, loaded: Content, current: Content)
    requires op.AppendEpisode?
    ensures IdsWithin(current, Effect(op, loaded, current))
  {
    forall id | HasId(BucketItems(current, ITEMS), id)
      ensures HasId(BucketItems(Effect(op, loaded, current), ITEMS), id)
    {
      IdAppended(BucketItems(current, ITEMS), op.item, id);
    }
  }

  /** An effect from a read that is not outdated is that of the operation by itself. */
  lemma UpToDateEffect(h: History, ops: seq<Op>, i: nat, loaded: Content, current: Content, init: Content)
    requires i < |ops| && ReadInv(h, loaded, current, ops, i, init)
    requires !Outdated(ops[i], ReadingOf(h, i), loaded, current, |EffectsOn(h.effects, ops, KeyOf(ops[i]))|)
    ensures Effect(ops[i], loaded, current) == Apply(ops[i], current)
    ensures IsUpsert(ops[i]) ==> ReadingOf(h, i).base == LineageOf(h, KeyOf(ops[i]))
  {
  }

  lemma OutdatedEffectKeepsKey(h: History, ops: seq<Op>, i: nat, loaded: Content, current: Content, init: Content)
    requires i < |ops| && ReadInv(h, loaded, current, ops, i, init)
    requires KeyInv(h, current, ops, KeyOf(ops[i]), init)
    requires Outdated(ops[i], ReadingOf(h, i), loaded, current, |EffectsOn(h.effects, ops, KeyOf(ops[i]))|)
    ensures KeyInv(AfterEffect(h, ops, i, loaded, current), Effect(ops[i], loaded, current), ops, KeyOf(ops[i]), init)
  {
    EffectsSnoc(h.effects, ops, KeyOf(ops[i]), i);
    ReplaySnoc(ReadingOf(h, i).base, ops, init, i);
    assert i in AfterEffect(h, ops, i, loaded, current).outdated;
  }

  lemma UpToDateEffectKeepsKey(h: History, ops: seq<Op>, i: nat, loaded: Content, current: Content, init: Content)
    requires i < |ops| && ReadInv(h, loaded, current, ops, i, init)
    requires KeyInv(h, current, ops, KeyOf(ops[i]), init)
    requires !Outdated(ops[i], ReadingOf(h, i), loaded, current, |EffectsOn(h.effects, ops, KeyOf(ops[i]))|)
    ensures KeyInv(AfterEffect(h, ops, i, loaded, current), Effect(ops[i], loaded, current), ops, KeyOf(ops[i]), init)
  {
    var key := KeyOf(ops[i]);
    EffectsSnoc(h.effects, ops, key, i);
    ReplaySnoc(LineageOf(h, key), ops, init, i);
    UpToDateEffect(h, ops, i, loaded, current, init);
    assert AfterEffect(h, ops, i, loaded, current).outdated == h.outdated;
  }

  lemma EffectKeepsKey(h: History, ops: seq<Op>, i: nat, loaded: Content, current: Content, init: Content)
    requires i < |ops| && ReadInv(h, loaded, current, ops, i, init)
    requires KeyInv(h, current, ops, KeyOf(ops[i]), init)
    ensures KeyInv(AfterEffect(h, ops, i, loaded, current), Effect(ops[i], loaded, current), ops, KeyOf(ops[i]), init)
  {
    if Outdated(ops[i], ReadingOf(h, i), loaded, current, |EffectsOn(h.effects, ops, KeyOf(ops[i]))|) {
      OutdatedEffectKeepsKey(h, ops, i, loaded, current, init);
    } else {
      UpToDateEffectKeepsKey(h, ops, i, loaded, current, init);
    }
  }

  /** Other files' histories do not change. */
  lemma EffectElsewhere(h: History, ops: seq<Op>, i: nat, loaded: Content, current: Content, key: FileKey)
    requires i < |ops| && key != KeyOf(ops[i])
    ensures var next := AfterEffect(h, ops, i, loaded, current);
      && LineageOf(next, key) == LineageOf(h, key)
      && EffectsOn(next.effects, ops, key) == EffectsOn(h.effects, ops, key)
      && (Clean(next, ops, key) <==> Clean(h, ops, key))
  {
    EffectsSnoc(h.effects, ops, key, i);
  }

  lemma EffectKeepsRead(h: History, ops: seq<Op>, i: nat, loaded: Content, current: Content,
                        j: nat, content: Content, init: Content)
    requires i < |ops| && j < |ops| && KeyOf(ops[j]) == KeyOf(ops[i])
    requires ReadInv(h, content, current, ops, j, init)
    ensures ReadInv(AfterEffect(h, ops, i, loaded, current), content, Effect(ops[i], loaded, current), ops, j, init)
  {
    EffectsSnoc(h.effects, ops, KeyOf(ops[i]), i);
    if ops[i].AppendEpisode? { EpisodesGrow(ops[i], loaded, current); }
  }

  lemma TakeEffectKeepsKeys(st: State, ops: seq<Op>, i: nat, pc: Pc, init: map<FileKey, Content>)
    requires FilesInv(st, ops, init) && i < |ops| && HasContent(st.pcs[i])
    ensures KeysInv(TakeEffect(st, ops, i, st.pcs[i].content, pc), ops, init)
  {
    var mine, loaded := KeyOf(ops[i]), st.pcs[i].content;
    var next, current := TakeEffect(st, ops, i, loaded, pc), FileOf(st, mine);
    forall key ensures KeyInv(next.history, FileOf(next, key), ops, key, InitOf(init, key)) {
      assert KeyInv(st.history, FileOf(st, key), ops, key, InitOf(init, key));
      if key == mine {
        EffectKeepsKey(st.history, ops, i, loaded, current, InitOf(init, mine));
      } else {
        EffectElsewhere(st.history, ops, i, loaded, current, key);
      }
    }
  }

  lemma TakeEffectKeepsReads(st: State, ops: seq<Op>, i: nat, pc: Pc, init: map<FileKey, Content>)
    requires ReadsInv(st, ops, init) && i < |ops| && HasContent(st.pcs[i]) && !HasContent(pc)
    ensures ReadsInv(TakeEffect(st, ops, i, st.pcs[i].content, pc), ops, init)
  {
    var mine, loaded := KeyOf(ops[i]), st.pcs[i].content;
    var next, current := TakeEffect(st, ops, i, loaded, pc), FileOf(st, mine);
    forall j | 0 <= j < |ops| && HasContent(next.pcs[j])
      ensures ReadInv(next.history, next.pcs[j].content, FileOf(next, KeyOf(ops[j])), ops, j,
                      InitOf(init, KeyOf(ops[j])))
    {
      assert j != i && next.pcs[j] == st.pcs[j];
      if KeyOf(ops[j]) == mine {
        EffectKeepsRead(st.history, ops, i, loaded, current, j, st.pcs[j].content, InitOf(init, mine));
      } else {
        EffectElsewhere(st.history, ops, i, loaded, current, KeyOf(ops[j]));
      }
    }
  }

  /** A read changes nothing but the reader. */
  lemma ReadKeepsKey(h: History, file: Content, ops: seq<Op>, i: nat, key: FileKey, init: Content)
    requires i < |ops| && KeyInv(h, file, ops, key, init)
    ensures KeyInv(AfterRead(h, ops, i), file, ops, key, init)
  {
  }

  lemma FreshRead(h: History, file: Content, ops: seq<Op>, i: nat, init: Content)
    requires i < |ops| && KeyInv(h, file, ops, KeyOf(ops[i]), init)
    ensures ReadInv(AfterRead(h, ops, i), file, file, ops, i, init)
  {
  }

  lemma ReadKeepsRead(h: History, content: Content, file: Content, ops: seq<Op>, i: nat, j: nat, init: Content)
    requires i < |ops| && j < |ops| && j != i && ReadInv(h, content, file, ops, j, init)
    ensures ReadInv(AfterRead(h, ops, i), content, file, ops, j, init)
  {
  }

  lemma ReadKeepsFiles(st: State, ops: seq<Op>, i: nat, pc: Pc, init: map<FileKey, Content>)
    requires FilesInv(st, ops, init) && i < |ops|
    requires HasContent(pc) && pc.content == FileOf(st, KeyOf(ops[i]))
    ensures FilesInv(st.(pcs := st.pcs[i := pc], history := AfterRead(st.history, ops, i)), ops, init)
  {
    var next := st.(pcs := st.pcs[i := pc], history := AfterRead(st.history, ops, i));
    forall key ensures KeyInv(next.history, FileOf(next, key), ops, key, InitOf(init, key)) {
      ReadKeepsKey(st.history, FileOf(st, key), ops, i, key, InitOf(init, key));
    }
    forall j | 0 <= j < |ops| && HasContent(next.pcs[j])
      ensures ReadInv(next.history, next.pcs[j].content, FileOf(next, KeyOf(ops[j])), ops, j,
                      InitOf(init, KeyOf(ops[j])))
    {
      var key := KeyOf(ops[j]);
      if j == i {
        FreshRead(st.history, FileOf(st, key), ops, i, InitOf(init, key));
      } else {
        ReadKeepsRead(st.history, st.pcs[j].content, FileOf(st, key), ops, i, j, InitOf(init, key));
      }
    }
  }

  /** A step that neither reads nor writes a file. */
  lemma IdleKeepsFiles(st: State, next: State, ops: seq<Op>, i: nat, pc: Pc, init: map<FileKey, Content>)
    requires FilesInv(st, ops, init) && i < |ops| && next.files == st.files && next.pcs == st.pcs[i := pc]
    requires HasContent(pc) ==> HasContent(st.pcs[i]) && st.pcs[i].content == pc.content
    requires next.history == st.history.(failed := next.history.failed, abandoned := next.history.abandoned)
    ensures FilesInv(next, ops, init)
  {
    forall key ensures KeyInv(next.history, FileOf(next, key), ops, key, InitOf(init, key)) {
      assert KeyInv(st.history, FileOf(st, key), ops, key, InitOf(init, key));
    }
    forall j | 0 <= j < |ops| && HasContent(next.pcs[j])
      ensures ReadInv(next.history, next.pcs[j].content, FileOf(next, KeyOf(ops[j])), ops, j,
                      InitOf(init, KeyOf(ops[j])))
    {
      assert next.pcs[j].content == st.pcs[j].content;
    }
  }

  lemma StepKeepsFiles(st: State, ops: seq<Op>, e: Event, init: map<FileKey, Content>)
    requires FilesInv(st, ops, init) && Enabled(st, ops, e)
    ensures FilesInv(Step(st, ops, e), ops, init)
  {
    var i, next := e.i, Step(st, ops, e);
    if e.Write? || e.LateWrite? {
      TakeEffectKeepsKeys(st, ops, i, next.pcs[i], init);
      TakeEffectKeepsReads(st, ops, i, next.pcs[i], init);
    } else if e.Load? || e.LateLoad? {
      ReadKeepsFiles(st, ops, i, next.pcs[i], init);
    } else {
      IdleKeepsFiles(st, next, ops, i, next.pcs[i], init);
    }
  }

  // ----- the invariant of all runs

  ghost predicate Inv(st: State, ops: seq<Op>, init: map<FileKey, Content>) {
    && LocksAssigned(st, ops) && Exclusive(st, ops) && OrderedAcquisition(st, ops) && Accounted(st, ops)
    && FilesInv(st, ops, init)
  }

  lemma InitialInv(ops: seq<Op>, files: map<FileKey, Content>)
    ensures Inv(Initial(files, |ops|), ops, files)
  {
    var st := Initial(files, |ops|);
    forall key ensures KeyInv(st.history, FileOf(st, key), ops, key, InitOf(files, key)) {
    }
  }

  lemma StepKeepsInv(st: State, ops: seq<Op>, e: Event, init: map<FileKey, Content>)
    requires Inv(st, ops, init) && Enabled(st, ops, e)
    ensures Inv(Step(st, ops, e), ops, init)
  {
    StepKeepsLocks(st, ops, e);
    StepKeepsExclusive(st, ops, e);
    if e.Acquire? { AcquireKeepsOrder(st, ops, e.i); } else { OtherStepsKeepOrder(st, ops, e); }
    StepKeepsAccounted(st, ops, e);
    StepKeepsFiles(st, ops, e, init);
  }

  ghost predicate IsRun(ops: seq<Op>, files: map<FileKey, Content>, events: seq<Event>, end: State) {
    Run(Initial(files, |ops|), ops, events) == Some(end)
  }

  lemma {:induction false} RunKeepsInv(ops: seq<Op>, files: map<FileKey, Content>, events: seq<Event>, end: State)
    requires IsRun(ops, files, events, end)
    ensures Inv(end, ops, files)
  {
    if events == [] {
      InitialInv(ops, files);
    } else {
      var n := |events| - 1;
      var before := Run(Initial(files, |ops|), ops, events[..n]).value;
      RunKeepsInv(ops, files, events[..n], before);
      StepKeepsInv(before, ops, events[n], files);
    }
  }
}
