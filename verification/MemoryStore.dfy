/** The per-user file store under concurrent writers. A writer takes its user's lock, loads the
    file, changes it in memory, writes it back and releases the lock; other tasks may run at every
    suspension in between. Loading and writing happen in worker threads, which cancelling the writer does
    not stop: its lock is released while the thread goes on. */
module MemoryStore {
  import opened Basics

  datatype Item = Item(id: string, payload: string)

  /** What lies in a file: the buckets of a profile, or a list of items (working memory, episodes). */
  datatype Content = Content(buckets: map<string, seq<Item>>)

  datatype FileKey =
    | ProfileFile(user: string)
    | WorkingMemoryFile(user: string, session: string, trip: string)
    | EpisodesFile(user: string)

  datatype Op =
    | UpsertProfileItem(user: string, bucket: string, item: Item)
    | UpsertWorkingMemoryItem(user: string, session: string, tripId: Option<string>, item: Item)
    | AppendEpisode(user: string, item: Item)
    | SaveProfile(user: string, profile: Content)

  const PROFILE_BUCKETS := {"constraints", "rejections", "stable_preferences", "preference_hypotheses"}

  const ITEMS := "items"

  /** `trip_id or "_none"`. */
  function TripKey(tripId: Option<string>): string {
    if tripId.Some? && tripId.value != "" then tripId.value else "_none"
  }

  function KeyOf(op: Op): (k: FileKey)
    ensures k.user == op.user
  {
    match op
    case UpsertProfileItem(user, _, _) => ProfileFile(user)
    case UpsertWorkingMemoryItem(user, session, tripId, _) => WorkingMemoryFile(user, session, TripKey(tripId))
    case AppendEpisode(user, _) => EpisodesFile(user)
    case SaveProfile(user, _) => ProfileFile(user)
  }

  /** Two operations are for one file exactly when they are for one user and both for the profile, both for the
      episodes, or both for the working memory of one session and one trip, all falsy trips being one. */
  lemma SameFile(a: Op, b: Op)
    ensures KeyOf(a) == KeyOf(b) <==>
      (a.user == b.user &&
       (|| ((a.UpsertProfileItem? || a.SaveProfile?) && (b.UpsertProfileItem? || b.SaveProfile?))
        || (a.AppendEpisode? && b.AppendEpisode?)
        || (a.UpsertWorkingMemoryItem? && b.UpsertWorkingMemoryItem? && a.session == b.session
            && TripName(a.tripId) == TripName(b.tripId))))
  {
  }

  /** A trip without an id, or with an empty one, goes by the name of none. */
  function TripName(tripId: Option<string>): (name: string)
    ensures name == "_none" <==> tripId == None || tripId == Some("") || tripId == Some("_none")
    ensures name != "_none" ==> tripId == Some(name)
  {
    TripKey(tripId)
  }

  /** The operations that write back what they loaded, changed. */
  predicate IsUpsert(op: Op) { op.UpsertProfileItem? || op.UpsertWorkingMemoryItem? }

  function BucketOf(op: Op): string {
    if op.UpsertProfileItem? then op.bucket else ITEMS
  }

  /** An unsupported bucket is refused before the lock is asked for. */
  predicate Supported(op: Op) { op.UpsertProfileItem? ==> op.bucket in PROFILE_BUCKETS }

  /** Only a profile item for another than the four buckets is refused. */
  lemma SupportedAre(op: Op)
    ensures Supported(op) <==>
      (op.UpsertProfileItem? ==>
         || op.bucket == "constraints" || op.bucket == "rejections" || op.bucket == "stable_preferences"
         || op.bucket == "preference_hypotheses")
  {
  }

  // ----- one list

  /** The position of the first item with the id, or the length. */
  function SlotOf(items: seq<Item>, id: string): (k: nat)
    ensures k <= |items|
    ensures k < |items| ==> items[k].id == id
    ensures forall i | 0 <= i < k :: items[i].id != id
  {
    if items == [] || items[0].id == id then 0 else 1 + SlotOf(items[1..], id)
  }

  predicate HasId(items: seq<Item>, id: string) { SlotOf(items, id) < |items| }

  function Upserted(items: seq<Item>, item: Item): seq<Item> {
    var k := SlotOf(items, item.id);
    if k < |items| then items[k := item] else items + [item]
  }

  method UpsertInList(items: seq<Item>, item: Item) returns (r: seq<Item>)
    ensures r == Upserted(items, item)
  {
    r := items;
    var replaced := false;
    for index := 0 to |items|
      invariant r == items && !replaced
      invariant forall i | 0 <= i < index :: items[i].id != item.id
    {
      if items[index].id == item.id {
        r := r[index := item];
        replaced := true;
        break;
      }
    }
    if !replaced {
      r := r + [item];
    }
  }

  ghost predicate UniqueIds(items: seq<Item>) {
    forall i, j | 0 <= i < j < |items| :: items[i].id != items[j].id
  }

  /** An upsert puts the item in its predecessor's place or at the end, and touches no other slot. */
  lemma UpsertedIs(items: seq<Item>, item: Item)
    ensures var r, k := Upserted(items, item), SlotOf(items, item.id);
            && |r| == |items| + (if HasId(items, item.id) then 0 else 1)
            && r[k] == item
            && (forall i | 0 <= i < |items| && i != k :: r[i] == items[i])
            && (UniqueIds(items) ==> UniqueIds(r))
  {
  }

  // ----- one file

  const EMPTY := Content(map[])

  function BucketItems(c: Content, bucket: string): seq<Item> {
    if bucket in c.buckets then c.buckets[bucket] else []
  }

  /** What the operation leaves in the file: an upsert writes back what it loaded, changed; an episode is appended
      to what is there, unless its id was there when the file was read; a save replaces everything. */
  function Effect(op: Op, loaded: Content, current: Content): Content {
    match op
    case AppendEpisode(_, item) =>
      if HasId(BucketItems(loaded, ITEMS), item.id) then current
      else Content(current.buckets[ITEMS := BucketItems(current, ITEMS) + [item]])
    case SaveProfile(_, profile) => profile
    case _ => Content(loaded.buckets[BucketOf(op) := Upserted(BucketItems(loaded, BucketOf(op)), op.item)])
  }

  /** The item takes the place of the first one with its id in the bucket, or the last place, and no other item and no
      other bucket changes. */
  ghost predicate Lands(after: Content, before: Content, bucket: string, item: Item) {
    var was := if bucket in before.buckets then before.buckets[bucket] else [];
    && after.buckets - {bucket} == before.buckets - {bucket}
    && bucket in after.buckets
    && ((forall i | 0 <= i < |was| :: was[i].id != item.id) ==> after.buckets[bucket] == was + [item])
    && (forall k | 0 <= k < |was| && was[k].id == item.id && (forall i | 0 <= i < k :: was[i].id != item.id) ::
          after.buckets[bucket] == was[k := item])
  }

  /** What an operation leaves in its file, bucket by bucket. */
  ghost predicate Leaves(op: Op, loaded: Content, current: Content, after: Content) {
    match op
    case UpsertProfileItem(_, bucket, item) => Lands(after, loaded, bucket, item)
    case UpsertWorkingMemoryItem(_, _, _, item) => Lands(after, loaded, "items", item)
    case AppendEpisode(_, item) =>
      var seen := if "items" in loaded.buckets then loaded.buckets["items"] else [];
      if exists i | 0 <= i < |seen| :: seen[i].id == item.id then after == current
      else
        && after.buckets - {"items"} == current.buckets - {"items"}
        && "items" in after.buckets
        && after.buckets["items"] == (if "items" in current.buckets then current.buckets["items"] else []) + [item]
    case SaveProfile(_, profile) => after == profile
  }

  lemma UpsertLands(c: Content, bucket: string, item: Item)
    ensures Lands(Content(c.buckets[bucket := Upserted(BucketItems(c, bucket), item)]), c, bucket, item)
  {
    var was := BucketItems(c, bucket);
    assert SlotOf(was, item.id) < |was| ==> was[SlotOf(was, item.id)].id == item.id;
  }

  lemma EffectLeaves(op: Op, loaded: Content, current: Content)
    ensures Leaves(op, loaded, current, Effect(op, loaded, current))
  {
    if IsUpsert(op) { UpsertLands(loaded, if op.UpsertProfileItem? then op.bucket else "items", op.item); }
    if op.AppendEpisode? { assert HasId(BucketItems(loaded, ITEMS), op.item.id) <==>
        exists i | 0 <= i < |BucketItems(loaded, ITEMS)| :: BucketItems(loaded, ITEMS)[i].id == op.item.id; }
  }

  /** The operation by itself: nothing happens between its load and its effect. */
  function Apply(op: Op, c: Content): Content { Effect(op, c, c) }

  ghost predicate UniquePerBucket(c: Content) {
    forall b | b in c.buckets :: UniqueIds(c.buckets[b])
  }

  /** A saved profile has unique ids itself. */
  ghost predicate SavesUnique(op: Op) { op.SaveProfile? ==> UniquePerBucket(op.profile) }

  lemma ApplyKeepsUnique(op: Op, c: Content)
    requires UniquePerBucket(c) && SavesUnique(op)
    ensures UniquePerBucket(Apply(op, c))
  {
    if !op.SaveProfile? { UpsertedIs(BucketItems(c, BucketOf(op)), op.item); }
  }

  // ----- the store and its writers

  /** Where a writer stands: before the call, waiting for a lock, holding it, with the file loaded, with the
      file written; cancelled with its thread still to read (only appending an episode reads and writes in one
      thread), cancelled with its thread still to write; finished, refused. */
  datatype Pc =
    | Idle | Waiting(lock: nat) | Holding(lock: nat) | Loaded(lock: nat, content: Content) | Written(lock: nat)
    | Adrift | Detached(content: Content)
    | Finished | Refused

  /** What a writer's load saw of the history: the writers the content came from, and how many effects there
      had been on the file. */
  datatype Reading = Reading(base: seq<nat>, seen: nat)

  datatype History = History(
    effects: seq<nat>,                  // writers in the order they took effect on a file
    lineage: map<FileKey, seq<nat>>,    // the writers whose effects a file's content came from, in order
    readings: map<nat, Reading>,
    outdated: set<nat>,                 // writers whose effect was computed from an outdated read
    failed: set<nat>,                   // writers whose call raised
    abandoned: set<nat>                 // of those, the ones cancelled with a thread at work
  )

  datatype State = State(
    files: map<FileKey, Content>,
    registry: map<string, nat>,     // user id to lock
    locks: seq<Option<nat>>,        // which writer holds each lock
    pcs: seq<Pc>,
    acquired: seq<nat>,             // writers in the order they got their lock
    history: History
  )

  datatype Event =
    | Request(i: nat)     // look up or create the user's lock and start waiting
    | Acquire(i: nat)
    | Load(i: nat)
    | Write(i: nat)
    | Release(i: nat)
    | Fail(i: nat)        // the wait is cancelled, or the thread raises or never starts; `async with` frees the lock
    | Abandon(i: nat)     // the writer is cancelled with its thread at work; `async with` frees the lock
    | LateLoad(i: nat)    // an abandoned thread reads
    | LateWrite(i: nat)   // an abandoned thread writes

  function FileOf(st: State, key: FileKey): Content {
    if key in st.files then st.files[key] else EMPTY
  }

  function LineageOf(h: History, key: FileKey): seq<nat> {
    if key in h.lineage then h.lineage[key] else []
  }

  /** The effects on one file. */
  function EffectsOn(effects: seq<nat>, ops: seq<Op>, key: FileKey): seq<nat> {
    if effects == [] then []
    else
      var n := |effects| - 1;
      var before := EffectsOn(effects[..n], ops, key);
      if effects[n] < |ops| && KeyOf(ops[effects[n]]) == key then before + [effects[n]] else before
  }

  function LockOf(pc: Pc): Option<nat> {
    match pc
    case Holding(l) => Some(l)
    case Loaded(l, _) => Some(l)
    case Written(l) => Some(l)
    case _ => None
  }

  predicate HasContent(pc: Pc) { pc.Loaded? || pc.Detached? }

  predicate Enabled(st: State, ops: seq<Op>, e: Event) {
    && e.i < |ops| == |st.pcs|
    && (LockOf(st.pcs[e.i]).Some? ==> LockOf(st.pcs[e.i]).value < |st.locks|)
    && match e
       case Request(i) => st.pcs[i] == Idle
       case Acquire(i) => st.pcs[i].Waiting? && st.pcs[i].lock < |st.locks| && st.locks[st.pcs[i].lock] == None
       case Load(i) => st.pcs[i].Holding?
       case Write(i) => st.pcs[i].Loaded?
       case Release(i) => st.pcs[i].Written?
       case Fail(i) => st.pcs[i].Waiting? || st.pcs[i].Holding? || HasContent(st.pcs[i]) || st.pcs[i].Adrift?
       case Abandon(i) => st.pcs[i].Loaded? || (st.pcs[i].Holding? && ops[i].AppendEpisode?)
       case LateLoad(i) => st.pcs[i].Adrift?
       case LateWrite(i) => st.pcs[i].Detached?
  }

  /** The effect is not that of the operation by itself: an upsert writes back a file on which another effect
      fell since it was read; an episode's id was appended since. */
  predicate Outdated(op: Op, reading: Reading, loaded: Content, current: Content, effectsNow: nat) {
    match op
    case AppendEpisode(_, item) => !HasId(BucketItems(loaded, ITEMS), item.id)
                                   && HasId(BucketItems(current, ITEMS), item.id)
    case SaveProfile(_, _) => false
    case _ => effectsNow > reading.seen
  }

  function ReadingOf(h: History, i: nat): Reading { if i in h.readings then h.readings[i] else Reading([], 0) }

  function AfterRead(h: History, ops: seq<Op>, i: nat): History
    requires i < |ops|
  {
    var key := KeyOf(ops[i]);
    h.(readings := h.readings[i := Reading(LineageOf(h, key), |EffectsOn(h.effects, ops, key)|)])
  }

  function AfterEffect(h: History, ops: seq<Op>, i: nat, loaded: Content, current: Content): History
    requires i < |ops|
  {
    var key := KeyOf(ops[i]);
    var base := if IsUpsert(ops[i]) then ReadingOf(h, i).base else LineageOf(h, key);
    var stale := Outdated(ops[i], ReadingOf(h, i), loaded, current, |EffectsOn(h.effects, ops, key)|);
    h.(effects := h.effects + [i], lineage := h.lineage[key := base + [i]],
       outdated := if stale then h.outdated + {i} else h.outdated)
  }

  /** The thread's write reaches the file. */
  function TakeEffect(st: State, ops: seq<Op>, i: nat, loaded: Content, pc: Pc): State
    requires i < |ops| == |st.pcs|
  {
    var key := KeyOf(ops[i]);
    st.(files := st.files[key := Effect(ops[i], loaded, FileOf(st, key))],
        pcs := st.pcs[i := pc],
        history := AfterEffect(st.history, ops, i, loaded, FileOf(st, key)))
  }

  function WithoutLock(st: State, i: nat): seq<Option<nat>>
    requires i < |st.pcs|
    requires LockOf(st.pcs[i]).Some? ==> LockOf(st.pcs[i]).value < |st.locks|
  {
    if LockOf(st.pcs[i]).Some? then st.locks[LockOf(st.pcs[i]).value := None] else st.locks
  }

  function Step(st: State, ops: seq<Op>, e: Event): State
    requires Enabled(st, ops, e)
  {
    var i := e.i;
    match e
    case Request(_) =>
      if !Supported(ops[i]) then st.(pcs := st.pcs[i := Refused])
      else if ops[i].user in st.registry then st.(pcs := st.pcs[i := Waiting(st.registry[ops[i].user])])
      else
        st.(registry := st.registry[ops[i].user := |st.locks|], locks := st.locks + [None],
            pcs := st.pcs[i := Waiting(|st.locks|)])
    case Acquire(_) =>
      var l := st.pcs[i].lock;
      st.(locks := st.locks[l := Some(i)], pcs := st.pcs[i := Holding(l)], acquired := st.acquired + [i])
    case Load(_) =>
      st.(pcs := st.pcs[i := Loaded(st.pcs[i].lock, FileOf(st, KeyOf(ops[i])))],
          history := AfterRead(st.history, ops, i))
    case Write(_) => TakeEffect(st, ops, i, st.pcs[i].content, Written(st.pcs[i].lock))
    case Release(_) => st.(locks := WithoutLock(st, i), pcs := st.pcs[i := Finished])
    case Fail(_) =>
      st.(locks := WithoutLock(st, i), pcs := st.pcs[i := Finished],
          history := st.history.(failed := st.history.failed + {i}))
    case Abandon(_) =>
      st.(locks := WithoutLock(st, i),
          pcs := st.pcs[i := if st.pcs[i].Loaded? then Detached(st.pcs[i].content) else Adrift],
          history := st.history.(failed := st.history.failed + {i}, abandoned := st.history.abandoned + {i}))
    case LateLoad(_) =>
      st.(pcs := st.pcs[i := Detached(FileOf(st, KeyOf(ops[i])))], history := AfterRead(st.history, ops, i))
    case LateWrite(_) => TakeEffect(st, ops, i, st.pcs[i].content, Finished)
  }

  // ----- the code

  /** What the worker thread puts into the file. */
  method WriteFile(op: Op, loaded: Content, current: Content) returns (c: Content)
    ensures c == Effect(op, loaded, current) && Leaves(op, loaded, current, c)
  {
    EffectLeaves(op, loaded, current);
    match op {
      case AppendEpisode(_, item) =>
        var items := BucketItems(loaded, ITEMS);
        var present := false;
        for i := 0 to |items|
          invariant present <==> exists j | 0 <= j < i :: items[j].id == item.id
        {
          if items[i].id == item.id {
            present := true;
          }
        }
        c := if present then current else Content(current.buckets[ITEMS := BucketItems(current, ITEMS) + [item]]);
      case SaveProfile(_, profile) =>
        c := profile;
      case _ =>
        var updated := UpsertInList(BucketItems(loaded, BucketOf(op)), op.item);
        c := Content(loaded.buckets[BucketOf(op) := updated]);
    }
  }

  /** The store instance and its files, with the writers' coroutines and threads between their steps. */
  class FileMemoryV3Store {
    const ops: seq<Op>
    var files: map<FileKey, Content>
    var lockRegistry: map<string, nat>
    var locks: seq<Option<nat>>
    var pcs: seq<Pc>
    ghost var acquired: seq<nat>
    ghost var history: History

    ghost function View(): State
      reads this
    {
      State(files, lockRegistry, locks, pcs, acquired, history)
    }

    constructor (ops: seq<Op>, files: map<FileKey, Content>)
      ensures View() == Initial(files, |ops|) && this.ops == ops
    {
      this.ops, this.files := ops, files;
      lockRegistry, locks, pcs := map[], [], seq(|ops|, _ => Idle);
      acquired, history := [], NO_HISTORY;
    }

    method LockFor(user: string) returns (lock: nat)
      modifies this`lockRegistry, this`locks
      ensures user in old(lockRegistry) ==> lock == old(lockRegistry)[user] && unchanged(this)
      ensures user !in old(lockRegistry) ==>
                lock == |old(locks)| && lockRegistry == old(lockRegistry)[user := lock] && locks == old(locks) + [None]
    {
      if user !in lockRegistry {
        lockRegistry := lockRegistry[user := |locks|];
        locks := locks + [None];
      }
      lock := lockRegistry[user];
    }

    method Request(i: nat)
      requires Enabled(View(), ops, Event.Request(i))
      modifies this
      ensures View() == Step(old(View()), ops, Event.Request(i))
      ensures pcs[i] == Refused <==>
        (ops[i].UpsertProfileItem? && ops[i].bucket != "constraints" && ops[i].bucket != "rejections"
         && ops[i].bucket != "stable_preferences" && ops[i].bucket != "preference_hypotheses")
    {
      SupportedAre(ops[i]);
      if !Supported(ops[i]) {
        pcs := pcs[i := Refused];
        return;
      }
      var lock := LockFor(ops[i].user);
      pcs := pcs[i := Waiting(lock)];
    }

    method Acquire(i: nat)
      requires Enabled(View(), ops, Event.Acquire(i))
      modifies this
      ensures View() == Step(old(View()), ops, Event.Acquire(i))
    {
      var lock := pcs[i].lock;
      locks := locks[lock := Some(i)];
      pcs := pcs[i := Holding(lock)];
      acquired := acquired + [i];
    }

    /** The thread reads the file, for a writer that waits for it or for one that no longer does. */
    method Load(i: nat, late: bool)
      requires Enabled(View(), ops, if late then Event.LateLoad(i) else Event.Load(i))
      modifies this
      ensures View() == Step(old(View()), ops, if late then Event.LateLoad(i) else Event.Load(i))
    {
      var key := KeyOf(ops[i]);
      var content := if key in files then files[key] else EMPTY;
      pcs := pcs[i := if late then Detached(content) else Loaded(pcs[i].lock, content)];
      history := AfterRead(history, ops, i);
    }

    /** The thread writes the file, for a writer that waits for it or for one that no longer does. */
    method Write(i: nat, late: bool)
      requires Enabled(View(), ops, if late then Event.LateWrite(i) else Event.Write(i))
      modifies this
      ensures View() == Step(old(View()), ops, if late then Event.LateWrite(i) else Event.Write(i))
    {
      var key := KeyOf(ops[i]);
      var current := if key in files then files[key] else EMPTY;
      var changed := WriteFile(ops[i], pcs[i].content, current);
      history := AfterEffect(history, ops, i, pcs[i].content, current);
      files := files[key := changed];
      pcs := pcs[i := if late then Finished else Written(pcs[i].lock)];
    }

    /** Leaving `async with`, by the end of the block, by an exception, or cancelled with the thread at work. */
    method Leave(i: nat, raised: bool, atWork: bool)
      requires Enabled(View(), ops, LeaveEvent(i, raised, atWork))
      modifies this
      ensures View() == Step(old(View()), ops, LeaveEvent(i, raised, atWork))
      ensures LockOf(pcs[i]) == None
      ensures if atWork then pcs[i].Adrift? || pcs[i].Detached? else pcs[i].Finished?
      ensures if raised || atWork then i in history.failed else history == old(history)
    {
      var lock := LockOf(pcs[i]);
      if lock.Some? {
        locks := locks[lock.value := None];
      }
      if atWork {
        pcs := pcs[i := if pcs[i].Loaded? then Detached(pcs[i].content) else Adrift];
        history := history.(failed := history.failed + {i}, abandoned := history.abandoned + {i});
      } else {
        pcs := pcs[i := Finished];
        if raised {
          history := history.(failed := history.failed + {i});
        }
      }
    }
  }

  function LeaveEvent(i: nat, raised: bool, atWork: bool): Event {
    if atWork then Abandon(i) else if raised then Fail(i) else Release(i)
  }

  const NO_HISTORY := History([], map[], map[], {}, {}, {})

  function Initial(files: map<FileKey, Content>, writers: nat): State {
    State(files, map[], [], seq(writers, _ => Idle), [], NO_HISTORY)
  }

  // ----- runs

  function Run(st: State, ops: seq<Op>, events: seq<Event>): Option<State> {
    if events == [] then Some(st)
    else
      var before := Run(st, ops, events[..|events| - 1]);
      var e := events[|events| - 1];
      if before.Some? && Enabled(before.value, ops, e) then Some(Step(before.value, ops, e)) else None
  }
}
