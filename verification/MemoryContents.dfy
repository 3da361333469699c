/** What the files contain after whole runs: every update that nothing replaced is there, in its own bucket. */
module MemoryContents {
  import opened Basics
  import opened MemoryStore
  import opened MemorySafety
  import opened MemoryRuns

  /** The later operation takes away what the earlier one put into the file. */
  predicate Replaces(later: Op, earlier: Op) {
    match later
    case SaveProfile(_, _) => true
    case UpsertProfileItem(_, bucket, item) =>
      earlier.UpsertProfileItem? ==> earlier.bucket == bucket && earlier.item.id == item.id
    case UpsertWorkingMemoryItem(_, _, _, item) => earlier.UpsertWorkingMemoryItem? ==> earlier.item.id == item.id
    case AppendEpisode(_, _) => false
  }

  /** The item an upsert carries lies in the bucket the upsert names; working memory has one list. */
  predicate Holds(c: Content, op: Op)
    requires op.UpsertProfileItem? || op.UpsertWorkingMemoryItem?
  {
    var bucket := if op.UpsertProfileItem? then op.bucket else "items";
    bucket in c.buckets && op.item in c.buckets[bucket]
  }

  lemma ApplyHolds(op: Op, c: Content)
    requires op.UpsertProfileItem? || op.UpsertWorkingMemoryItem?
    ensures Holds(Apply(op, c), op)
  {
    EffectLeaves(op, c, c);
    var items := BucketItems(c, BucketOf(op));
    UpsertedIs(items, op.item);
  }

  /** What another id, another bucket or an episode does leaves the item where it is. */
  lemma ApplyKeepsHolding(later: Op, c: Content, op: Op)
    requires op.UpsertProfileItem? || op.UpsertWorkingMemoryItem?
    requires Holds(c, op) && !Replaces(later, op)
    ensures Holds(Apply(later, c), op)
  {
    var bucket := if op.UpsertProfileItem? then op.bucket else "items";
    var k :| 0 <= k < |c.buckets[bucket]| && c.buckets[bucket][k] == op.item;
    if !later.AppendEpisode? {
      UpsertedIs(BucketItems(c, BucketOf(later)), later.item);
      if BucketOf(later) == bucket { assert Apply(later, c).buckets[bucket][k] == op.item; }
    } else if bucket in Apply(later, c).buckets {
      assert k < |Apply(later, c).buckets[bucket]| && Apply(later, c).buckets[bucket][k] == op.item;
    }
  }

  lemma {:induction false} ReplayHolds(order: seq<nat>, ops: seq<Op>, init: Content, p: nat)
    requires p < |order| && order[p] < |ops|
    requires ops[order[p]].UpsertProfileItem? || ops[order[p]].UpsertWorkingMemoryItem?
    requires forall q | p < q < |order| && order[q] < |ops| :: !Replaces(ops[order[q]], ops[order[p]])
    ensures Holds(Replay(order, ops, init), ops[order[p]])
  {
    var n := |order| - 1;
    if p == n {
      ApplyHolds(ops[order[n]], Replay(order[..n], ops, init));
    } else {
      ReplayHolds(order[..n], ops, init, p);
      if order[n] < |ops| { ApplyKeepsHolding(ops[order[n]], Replay(order[..n], ops, init), ops[order[p]]); }
    }
  }

  /** After any run an upsert that is in its file's lineage, with nothing behind it that replaces its item, has its
      item in the bucket it named of its user's file. */
  lemma UpdatesSurvive(ops: seq<Op>, files: map<FileKey, Content>, events: seq<Event>, end: State, key: FileKey, p: nat)
    requires IsRun(ops, files, events, end) && p < |LineageOf(end.history, key)| && !key.EpisodesFile?
    requires var i := LineageOf(end.history, key)[p];
      && i < |ops| && (ops[i].UpsertProfileItem? || ops[i].UpsertWorkingMemoryItem?)
      && forall q | p < q < |LineageOf(end.history, key)| && LineageOf(end.history, key)[q] < |ops| ::
           !Replaces(ops[LineageOf(end.history, key)[q]], ops[i])
    ensures Holds(FileOf(end, key), ops[LineageOf(end.history, key)[p]])
  {
    NoLostUpdates(ops, files, events, end, key);
    ReplayHolds(LineageOf(end.history, key), ops, InitOf(files, key), p);
  }

  lemma {:induction false} LastOccurrence<T>(s: seq<T>, x: T) returns (p: nat)
    requires x in s
    ensures p < |s| && s[p] == x && forall q | p < q < |s| :: s[q] != x
  {
    var n := |s| - 1;
    if s[n] == x {
      p := n;
    } else {
      assert s == s[..n] + [s[n]];
      p := LastOccurrence(s[..n], x);
    }
  }

  lemma {:induction false} EffectsOnAre(effects: seq<nat>, ops: seq<Op>, key: FileKey, j: nat)
    requires j in EffectsOn(effects, ops, key)
    ensures j in effects && j < |ops| && KeyOf(ops[j]) == key
  {
    var n := |effects| - 1;
    if j in EffectsOn(effects[..n], ops, key) { EffectsOnAre(effects[..n], ops, key, j); }
  }

  function UpdatedFile(op: Op): FileKey
    requires op.UpsertProfileItem? || op.UpsertWorkingMemoryItem?
  {
    if op.UpsertProfileItem? then ProfileFile(op.user) else WorkingMemoryFile(op.user, op.session, TripName(op.tripId))
  }

  /** When nobody gets a lock while an abandoned thread works on the same file, an update whose call returned without
      raising is in its file, unless another operation on the file replaces it. */
  lemma ReturnedUpdateIsThere(ops: seq<Op>, files: map<FileKey, Content>, events: seq<Event>, end: State, i: nat)
    requires IsRun(ops, files, events, end) && Waited(ops, files, events)
    requires i < |ops| && (ops[i].UpsertProfileItem? || ops[i].UpsertWorkingMemoryItem?)
    requires i < |end.pcs| && end.pcs[i] == Finished && Fail(i) !in events && Abandon(i) !in events
    requires forall j | 0 <= j < |ops| && j != i && KeyOf(ops[j]) == KeyOf(ops[i]) :: !Replaces(ops[j], ops[i])
    ensures Holds(FileOf(end, UpdatedFile(ops[i])), ops[i])
  {
    var key := KeyOf(ops[i]);
    WaitedRunsLoseNothing(ops, files, events, end, key);
    NothingDropped(ops, files, events, end, i);
    NoLostUpdates(ops, files, events, end, key);
    var lineage := LineageOf(end.history, key);
    var p := LastOccurrence(lineage, i);
    forall q | p < q < |lineage| && lineage[q] < |ops| ensures !Replaces(ops[lineage[q]], ops[i]) {
      assert lineage[q] in lineage;
      EffectsOnAre(end.history.effects, ops, key, lineage[q]);
    }
    UpdatesSurvive(ops, files, events, end, key, p);
  }

  /** A bucket that no update of the lineage names keeps what it held at the start. */
  lemma {:induction false} ReplayElsewhere(order: seq<nat>, ops: seq<Op>, init: Content, bucket: string)
    requires forall q | 0 <= q < |order| && order[q] < |ops| ::
               ops[order[q]].UpsertProfileItem? && ops[order[q]].bucket != bucket
    ensures bucket in Replay(order, ops, init).buckets <==> bucket in init.buckets
    ensures bucket in init.buckets ==> Replay(order, ops, init).buckets[bucket] == init.buckets[bucket]
  {
    if order == [] {
    } else {
      var n := |order| - 1;
      ReplayElsewhere(order[..n], ops, init, bucket);
      if order[n] < |ops| { EffectLeaves(ops[order[n]], Replay(order[..n], ops, init), Replay(order[..n], ops, init)); }
    }
  }

  lemma OtherBucketsKept(ops: seq<Op>, files: map<FileKey, Content>, events: seq<Event>, end: State, user: string,
                         bucket: string)
    requires IsRun(ops, files, events, end)
    requires forall i | i in LineageOf(end.history, ProfileFile(user)) && i < |ops| ::
               ops[i].UpsertProfileItem? && ops[i].bucket != bucket
    ensures var before, after := InitOf(files, ProfileFile(user)).buckets, FileOf(end, ProfileFile(user)).buckets;
      && (bucket in after <==> bucket in before)
      && (bucket in before ==> after[bucket] == before[bucket])
  {
    var key := ProfileFile(user);
    NoLostUpdates(ops, files, events, end, key);
    ReplayElsewhere(LineageOf(end.history, key), ops, InitOf(files, key), bucket);
  }

  // ----- progress

  predicate Done(pc: Pc) { pc.Finished? || pc.Refused? }

  /** The steps of a writer or its thread that are no failure. */
  predicate GoesOn(e: Event) { !e.Fail? && !e.Abandon? }

  lemma HolderGoesOn(st: State, ops: seq<Op>, i: nat)
    requires Exclusive(st, ops) && i < |ops| && LockOf(st.pcs[i]).Some?
    ensures exists e: Event :: GoesOn(e) && e.i == i && Enabled(st, ops, e)
  {
    match st.pcs[i]
    case Holding(_) => assert Enabled(st, ops, Load(i));
    case Loaded(_, _) => assert Enabled(st, ops, Write(i));
    case Written(_) => assert Enabled(st, ops, Release(i));
  }

  /** As long as some writer is neither finished nor refused, some step that is no failure is possible: the store never
      deadlocks, whoever was cancelled. */
  lemma NoDeadlock(st: State, ops: seq<Op>, i: nat)
    requires LocksAssigned(st, ops) && Exclusive(st, ops) && i < |ops| && !Done(st.pcs[i])
    ensures exists e: Event :: GoesOn(e) && Enabled(st, ops, e)
  {
    match st.pcs[i]
    case Idle => assert Enabled(st, ops, Request(i));
    case Waiting(l) =>
      if st.locks[l].Some? {
        HolderGoesOn(st, ops, st.locks[l].value);
      } else {
        assert Enabled(st, ops, Acquire(i));
      }
    case Adrift => assert Enabled(st, ops, LateLoad(i));
    case Detached(_) => assert Enabled(st, ops, LateWrite(i));
    case _ => HolderGoesOn(st, ops, i);
  }

  /** A writer may fail while it waits, before its thread starts or while it runs, and may be cancelled with the thread
      at work; a thread left behind may fail too. */
  lemma FailsAnywhere(st: State, ops: seq<Op>, i: nat)
    requires LocksAssigned(st, ops) && i < |ops|
    ensures st.pcs[i].Waiting? || st.pcs[i].Holding? || st.pcs[i].Loaded? || st.pcs[i].Adrift? || st.pcs[i].Detached?
            <==> Enabled(st, ops, Fail(i))
    ensures st.pcs[i].Loaded? || (st.pcs[i].Holding? && ops[i].AppendEpisode?) <==> Enabled(st, ops, Abandon(i))
  {
  }
}
