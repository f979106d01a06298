/** The result files of the image relay (DiskBlobStore of relay/app.ts) on a disk that may
    lose, in a crash, any change of the directory and any contents not yet synced. */
module ResultFiles {

  datatype Option<T> = None | Some(value: T)

  /** What a file holds: a JSON value, a manifest with a count, a legacy list, or text that
      does not parse. */
  datatype Content = Json(value: nat) | Marker(count: int) | Whole(list: seq<nat>) | Broken

  datatype Name = Output(index: nat) | Manifest | Legacy | Temporary(serial: nat)

  type Inode = nat
  type Directory = map<Name, Inode>

  datatype Change = Link(name: Name, inode: Inode) | Relink(source: Name, name: Name, inode: Inode) | Unlink(name: Name)

  /** `durable` is the directory as last synced, `pending` what was done to it since. */
  datatype Disk = Disk(
    contents: map<Inode, Content>, synced: set<Inode>, durable: Directory, pending: seq<Change>, next: Inode)

  function Apply(dir: Directory, c: Change): Directory {
    match c
    case Link(name, inode) => dir[name := inode]
    case Relink(source, name, inode) => (dir - {source})[name := inode]
    case Unlink(name) => dir - {name}
  }

  predicate Touches(c: Change, name: Name) { c.name == name || (c.Relink? && c.source == name) }

  /** The directory after those changes, in order, whose place is in `kept`. */
  function Survive(dir: Directory, cs: seq<Change>, kept: set<nat>): Directory {
    if cs == [] then dir
    else
      var before := Survive(dir, cs[..|cs| - 1], kept);
      if |cs| - 1 in kept then Apply(before, cs[|cs| - 1]) else before
  }

  function Places(n: nat): (all: set<nat>)
    ensures forall i :: i in all <==> 0 <= i < n
  {
    if n == 0 then {} else Places(n - 1) + {n - 1}
  }

  /** The directory that running processes see. */
  function Live(d: Disk): Directory { Survive(d.durable, d.pending, Places(|d.pending|)) }

  /** The disk after a crash: some pending changes survive, contents that were not synced
      may be anything. */
  function Crashed(d: Disk, kept: set<nat>, lost: map<Inode, Content>): Disk {
    Disk(map i | i in d.contents :: if i in d.synced then d.contents[i] else if i in lost then lost[i] else Broken,
         d.contents.Keys, Survive(d.durable, d.pending, kept), [], d.next)
  }

  // ---- Readers ----

  function ContentAt(d: Disk, dir: Directory, name: Name): Option<Content> {
    if name in dir && dir[name] in d.contents then Some(d.contents[dir[name]]) else None
  }

  function ManifestCount(d: Disk, dir: Directory): Option<nat> {
    match ContentAt(d, dir, Manifest)
    case Some(Marker(count)) => if 0 <= count <= 3 then Some(count) else None
    case _ => None
  }

  function LegacyOutputs(d: Disk, dir: Directory): Option<seq<nat>> {
    match ContentAt(d, dir, Legacy)
    case Some(Whole(list)) => Some(list)
    case _ => None
  }

  function JsonAt(d: Disk, dir: Directory, index: nat): Option<nat> {
    match ContentAt(d, dir, Output(index))
    case Some(Json(value)) => Some(value)
    case _ => None
  }

  function OutputCount(d: Disk, dir: Directory): nat {
    var manifest := ManifestCount(d, dir);
    var legacy := LegacyOutputs(d, dir);
    if manifest.Some? then manifest.value else if legacy.Some? then |legacy.value| else 0
  }

  function OutputAt(d: Disk, dir: Directory, index: nat): Option<nat> {
    var manifest := ManifestCount(d, dir);
    var legacy := LegacyOutputs(d, dir);
    if manifest.Some? then (if index < manifest.value then JsonAt(d, dir, index) else None)
    else if legacy.Some? && index < |legacy.value| then Some(legacy.value[index]) else None
  }

  /** The first `count` outputs, if all of them can be read. */
  function Gather(d: Disk, dir: Directory, count: nat): Option<seq<nat>> {
    if count == 0 then Some([])
    else
      var before, last := Gather(d, dir, count - 1), JsonAt(d, dir, count - 1);
      if before.Some? && last.Some? then Some(before.value + [last.value]) else None
  }

  function AllOutputs(d: Disk, dir: Directory): Option<seq<nat>> {
    var manifest := ManifestCount(d, dir);
    if manifest.None? then LegacyOutputs(d, dir) else Gather(d, dir, manifest.value)
  }

  /** The readers of the list, of its length and of single outputs agree: they see exactly
      this list, or no output at all. */
  predicate Shows(d: Disk, dir: Directory, list: Option<seq<nat>>) {
    AllOutputs(d, dir) == list && if list.Some? then Delivers(d, dir, list.value) else OutputCount(d, dir) == 0
  }

  /** Readers see what they saw at the start, or the complete new list in order. */
  predicate SeesOldOrNew(d: Disk, dir: Directory, before: Option<seq<nat>>, data: seq<nat>) {
    Shows(d, dir, before) || Shows(d, dir, Some(data))
  }

  /** Count and single outputs agree with the list. */
  predicate Delivers(d: Disk, dir: Directory, data: seq<nat>) {
    && OutputCount(d, dir) == |data|
    && (forall i :: 0 <= i < |data| ==> OutputAt(d, dir, i) == Some(data[i]))
  }

  // ---- What survives ----

  lemma {:induction false} SurviveUntouched(dir: Directory, cs: seq<Change>, kept: set<nat>, name: Name)
    requires forall i :: 0 <= i < |cs| ==> !Touches(cs[i], name)
    ensures var late := Survive(dir, cs, kept);
            (name in late <==> name in dir) && (name in dir ==> late[name] == dir[name])
  {
    if cs != [] { SurviveUntouched(dir, cs[..|cs| - 1], kept, name); }
  }

  /** Every change of this name points it at one file, so it is as before or at that file. */
  lemma {:induction false} SurvivePointing(dir: Directory, cs: seq<Change>, kept: set<nat>, name: Name, inode: Inode)
    requires name !in dir
    requires forall i :: 0 <= i < |cs| && Touches(cs[i], name) ==>
            cs[i].name == name && !cs[i].Unlink? && cs[i].inode == inode
    ensures var late := Survive(dir, cs, kept); name in late ==> late[name] == inode
  {
    if cs != [] { SurvivePointing(dir, cs[..|cs| - 1], kept, name, inode); }
  }

  /** A new change acts on what is live. */
  lemma LiveAfter(d: Disk, c: Change)
    ensures Live(d.(pending := d.pending + [c])) == Apply(Live(d), c)
  {
    var n := |d.pending|;
    assert (d.pending + [c])[..n] == d.pending;
    SurviveSame(d.durable, d.pending, Places(n), Places(n + 1));
  }

  lemma {:induction false} SurviveSame(dir: Directory, cs: seq<Change>, a: set<nat>, b: set<nat>)
    requires forall i :: 0 <= i < |cs| ==> (i in a <==> i in b)
    ensures Survive(dir, cs, a) == Survive(dir, cs, b)
  {
    if cs != [] { SurviveSame(dir, cs[..|cs| - 1], a, b); }
  }

  // ---- The phases of putOutputs ----

  /** Readers still see the start: nothing done so far concerns what they look at. */
  predicate Unnoticed(start: Disk, d: Disk) {
    && Manifest !in d.durable
    && (forall i :: 0 <= i < |d.pending| ==> !Touches(d.pending[i], Manifest) && !Touches(d.pending[i], Legacy))
    && SameLegacy(start, d)
  }

  predicate SameLegacy(start: Disk, d: Disk) {
    && (Legacy in d.durable <==> Legacy in start.durable)
    && (Legacy in start.durable ==>
          && d.durable[Legacy] == start.durable[Legacy]
          && start.durable[Legacy] in d.synced && start.durable[Legacy] in d.contents
          && start.durable[Legacy] in start.contents
          && d.contents[start.durable[Legacy]] == start.contents[start.durable[Legacy]])
  }

  /** The i-th output is on disk for good. */
  predicate Kept(d: Disk, data: seq<nat>, i: nat)
    requires i < |data|
  {
    && Output(i) in d.durable && d.durable[Output(i)] in d.synced && d.durable[Output(i)] in d.contents
    && d.contents[d.durable[Output(i)]] == Json(data[i])
  }

  predicate AllKept(d: Disk, data: seq<nat>) {
    && (forall i: nat :: i < |data| ==> Kept(d, data, i))
    && (forall i, j: nat :: 0 <= i < |d.pending| && j < |data| ==> !Touches(d.pending[i], Output(j)))
  }

  /** The manifest may appear at any time, and only as the complete one. */
  predicate Committing(start: Disk, d: Disk, data: seq<nat>, m: Inode) {
    && AllKept(d, data) && SameLegacy(start, d) && Manifest !in d.durable
    && m in d.synced && m in d.contents && d.contents[m] == Marker(|data|)
    && (forall i :: 0 <= i < |d.pending| ==>
          && !Touches(d.pending[i], Legacy)
          && (Touches(d.pending[i], Manifest) ==>
                d.pending[i].name == Manifest && !d.pending[i].Unlink? && d.pending[i].inode == m))
  }

  /** The manifest is on disk for good. */
  predicate Committed(d: Disk, data: seq<nat>, m: Inode) {
    && AllKept(d, data) && Manifest in d.durable && d.durable[Manifest] == m
    && m in d.synced && m in d.contents && d.contents[m] == Marker(|data|)
    && (forall i :: 0 <= i < |d.pending| ==> !Touches(d.pending[i], Manifest))
  }

  /** At this moment, and after a crash at this moment, readers see old or new. */
  ghost predicate CrashSafe(d: Disk, before: Option<seq<nat>>, data: seq<nat>) {
    && SeesOldOrNew(d, Live(d), before, data)
    && (forall kept, lost :: SeesOldOrNew(Crashed(d, kept, lost), Crashed(d, kept, lost).durable, before, data))
  }

  lemma {:induction false} GatherAll(d: Disk, dir: Directory, data: seq<nat>, count: nat)
    requires count <= |data| && forall i: nat :: i < count ==> JsonAt(d, dir, i) == Some(data[i])
    ensures Gather(d, dir, count) == Some(data[..count])
  {
    if count > 0 {
      GatherAll(d, dir, data, count - 1);
      assert data[..count] == data[..count - 1] + [data[count - 1]];
    }
  }

  lemma SeesNew(d: Disk, dir: Directory, data: seq<nat>)
    requires ManifestCount(d, dir) == Some(|data|) && forall i: nat :: i < |data| ==> JsonAt(d, dir, i) == Some(data[i])
    ensures AllOutputs(d, dir) == Some(data) && Delivers(d, dir, data)
  {
    GatherAll(d, dir, data, |data|);
    assert data[..|data|] == data;
  }

  /** What readers see of a directory after some changes, when the files they look at are
      as synced; `e` is the disk itself or the disk after a crash. */
  predicate Faithful(d: Disk, e: Disk) {
    forall i :: i in d.synced && i in d.contents ==> i in e.contents && e.contents[i] == d.contents[i]
  }

  lemma UnnoticedSees(start: Disk, d: Disk, e: Disk, kept: set<nat>, data: seq<nat>)
    requires Unnoticed(start, d) && Faithful(d, e) && Manifest !in start.durable
    ensures SeesOldOrNew(e, Survive(d.durable, d.pending, kept), AllOutputs(start, start.durable), data)
  {
    SurviveUntouched(d.durable, d.pending, kept, Manifest);
    SurviveUntouched(d.durable, d.pending, kept, Legacy);
  }

  lemma KeptSees(d: Disk, e: Disk, kept: set<nat>, data: seq<nat>)
    requires AllKept(d, data) && Faithful(d, e)
    ensures forall i: nat :: i < |data| ==> JsonAt(e, Survive(d.durable, d.pending, kept), i) == Some(data[i])
  {
    forall i: nat | i < |data| ensures JsonAt(e, Survive(d.durable, d.pending, kept), i) == Some(data[i]) {
      SurviveUntouched(d.durable, d.pending, kept, Output(i));
      assert Kept(d, data, i);
    }
  }

  lemma CommittingSees(start: Disk, d: Disk, e: Disk, kept: set<nat>, data: seq<nat>, m: Inode)
    requires Committing(start, d, data, m) && Faithful(d, e) && Manifest !in start.durable && |data| <= 3
    ensures SeesOldOrNew(e, Survive(d.durable, d.pending, kept), AllOutputs(start, start.durable), data)
  {
    var dir := Survive(d.durable, d.pending, kept);
    SurvivePointing(d.durable, d.pending, kept, Manifest, m);
    SurviveUntouched(d.durable, d.pending, kept, Legacy);
    if Manifest in dir {
      KeptSees(d, e, kept, data);
      SeesNew(e, dir, data);
    }
  }

  lemma CommittedSees(d: Disk, e: Disk, kept: set<nat>, data: seq<nat>, m: Inode)
    requires Committed(d, data, m) && Faithful(d, e) && |data| <= 3
    ensures var dir := Survive(d.durable, d.pending, kept); AllOutputs(e, dir) == Some(data) && Delivers(e, dir, data)
  {
    SurviveUntouched(d.durable, d.pending, kept, Manifest);
    KeptSees(d, e, kept, data);
    SeesNew(e, Survive(d.durable, d.pending, kept), data);
  }

  /** The disk at some moment of putOutputs. */
  ghost predicate InPhase(start: Disk, d: Disk, data: seq<nat>) {
    || Unnoticed(start, d)
    || (exists m :: Committing(start, d, data, m))
    || (exists m :: Committed(d, data, m))
  }

  lemma PhaseSees(start: Disk, d: Disk, e: Disk, kept: set<nat>, data: seq<nat>)
    requires InPhase(start, d, data) && Faithful(d, e) && Manifest !in start.durable && |data| <= 3
    ensures SeesOldOrNew(e, Survive(d.durable, d.pending, kept), AllOutputs(start, start.durable), data)
  {
    hide Unnoticed, Committing, Committed;
    if Unnoticed(start, d) {
      UnnoticedSees(start, d, e, kept, data);
    } else if m :| Committing(start, d, data, m) {
      CommittingSees(start, d, e, kept, data, m);
    } else {
      var m :| Committed(d, data, m);
      CommittedSees(d, e, kept, data, m);
    }
  }

  lemma PhaseIsCrashSafe(start: Disk, d: Disk, data: seq<nat>)
    requires InPhase(start, d, data) && Manifest !in start.durable && |data| <= 3
    ensures CrashSafe(d, AllOutputs(start, start.durable), data)
  {
    hide InPhase, Survive, SeesOldOrNew;
    PhaseSees(start, d, d, Places(|d.pending|), data);
    forall kept, lost
      ensures var c := Crashed(d, kept, lost);
              SeesOldOrNew(c, c.durable, AllOutputs(start, start.durable), data)
    {
      PhaseSees(start, d, Crashed(d, kept, lost), kept, data);
    }
  }

  // ---- One system call ----

  /** Files are numbered in the order of their creation; the directory names files. */
  predicate Numbered(d: Disk) {
    && (forall i :: i in d.contents ==> i < d.next)
    && (forall n :: n in Live(d) ==> Live(d)[n] in d.contents)
  }

  function Create(d: Disk, content: Content): Disk {
    d.(contents := d.contents[d.next := content],
       pending := d.pending + [Link(Temporary(d.next), d.next)],
       next := d.next + 1)
  }

  function Sync(d: Disk, inode: Inode): Disk { d.(synced := d.synced + {inode}) }

  function Rename(d: Disk, source: Name, name: Name, inode: Inode): Disk {
    d.(pending := d.pending + [Relink(source, name, inode)])
  }

  function SyncDir(d: Disk): Disk { d.(durable := Live(d), pending := []) }

  function Remove(d: Disk, name: Name): Disk { d.(pending := d.pending + [Unlink(name)]) }

  /** writeJsonAtomically: a temporary file, synced, then renamed. */
  function Replaced(d: Disk, target: Name, content: Content): Disk {
    Rename(Sync(Create(d, content), d.next), Temporary(d.next), target, d.next)
  }

  // ---- What every call is for ----

  /** What a reader finds under a name after a crash with these survivors. */
  function FoundAfter(d: Disk, kept: set<nat>, lost: map<Inode, Content>, name: Name): Option<Content> {
    ContentAt(Crashed(d, kept, lost), Crashed(d, kept, lost).durable, name)
  }

  /** Both syncs make a write safe against every crash. Without the sync of the file any other
      contents may be found, and without that of the directory the file may be missing. */
  lemma EverySyncIsNeeded(d: Disk, name: Name, content: Content, other: Content)
    requires d.pending == [] && name !in d.durable && !name.Temporary? && d.next !in d.synced
    ensures forall kept, lost :: FoundAfter(SyncDir(Replaced(d, name, content)), kept, lost, name) == Some(content)
    ensures exists kept, lost ::
              FoundAfter(SyncDir(Rename(Create(d, content), Temporary(d.next), name, d.next)), kept, lost, name)
              == Some(other)
    ensures exists kept, lost :: FoundAfter(Replaced(d, name, content), kept, lost, name) == None
  {
    var unsynced := Rename(Create(d, content), Temporary(d.next), name, d.next);
    WrittenLive(d, name, content);
    assert FoundAfter(SyncDir(unsynced), {}, map[d.next := other], name) == Some(other);
    NothingSurvives(Replaced(d, name, content));
    assert FoundAfter(Replaced(d, name, content), {}, map[], name) == None;
  }

  lemma WrittenLive(d: Disk, name: Name, content: Content)
    requires !name.Temporary?
    ensures var unsynced := Rename(Create(d, content), Temporary(d.next), name, d.next);
            && name in Live(unsynced) && Live(unsynced)[name] == d.next
            && name in Live(Replaced(d, name, content)) && Live(Replaced(d, name, content))[name] == d.next
  {
    LiveAfter(Create(d, content), Relink(Temporary(d.next), name, d.next));
    LiveAfter(Sync(Create(d, content), d.next), Relink(Temporary(d.next), name, d.next));
    hide Survive;
  }

  lemma NothingSurvives(d: Disk)
    ensures Survive(d.durable, d.pending, {}) == d.durable
  {
    NoneKept(d.durable, d.pending);
  }

  lemma {:induction false} NoneKept(dir: Directory, cs: seq<Change>)
    ensures Survive(dir, cs, {}) == dir
  {
    if cs != [] { NoneKept(dir, cs[..|cs| - 1]); }
  }

  const EMPTY_DISK := Disk(map[], {}, map[], [], 0)

  /** Without the sync between the outputs and the manifest a crash may leave a manifest whose
      output is missing: readers see neither nothing nor the new list. */
  lemma FirstSyncIsNeeded(x: nat)
    ensures !CrashSafe(Replaced(Replaced(EMPTY_DISK, Output(0), Json(x)), Manifest, Marker(1)), None, [x])
  {
    var d := Replaced(Replaced(EMPTY_DISK, Output(0), Json(x)), Manifest, Marker(1));
    var c := Crashed(d, {2, 3}, map[]);
    ManifestAlone(x);
    hide Survive, Crashed, Replaced;
    assert !SeesOldOrNew(c, c.durable, None, [x]);
  }

  lemma ManifestAlone(x: nat)
    ensures var c := Crashed(Replaced(Replaced(EMPTY_DISK, Output(0), Json(x)), Manifest, Marker(1)), {2, 3}, map[]);
            OutputCount(c, c.durable) == 1 && OutputAt(c, c.durable, 0) == None
  {
    var d := Replaced(Replaced(EMPTY_DISK, Output(0), Json(x)), Manifest, Marker(1));
    var cs := d.pending;
    assert cs == [Link(Temporary(0), 0), Relink(Temporary(0), Output(0), 0),
                  Link(Temporary(1), 1), Relink(Temporary(1), Manifest, 1)];
    assert cs[..3][..2] == cs[..2] && cs[..2][..1] == cs[..1] && cs[..1][..0] == [];
    assert Survive(map[], cs[..2], {2, 3}) == map[] by { assert Survive(map[], cs[..1], {2, 3}) == map[]; }
    assert Survive(map[], cs[..3], {2, 3}) == map[Temporary(1) := 1];
  }

  /** No readable count from zero to three. */
  predicate NoCount(d: Disk, dir: Directory) {
    forall k :: 0 <= k <= 3 ==> ContentAt(d, dir, Manifest) != Some(Marker(k))
  }

  /** What readers make of any disk: the list is there exactly if every output up to the count
      is, and then count, single outputs and list agree. */
  lemma ReadersAgree(d: Disk, dir: Directory)
    ensures forall i: nat :: i >= OutputCount(d, dir) ==> OutputAt(d, dir, i) == None
    ensures forall list :: AllOutputs(d, dir) == Some(list) ==> Delivers(d, dir, list)
    ensures AllOutputs(d, dir) == None && OutputCount(d, dir) > 0 ==>
              exists i: nat :: i < OutputCount(d, dir) && OutputAt(d, dir, i) == None
  {
    var manifest := ManifestCount(d, dir);
    if manifest.Some? {
      GatherIs(d, dir, manifest.value);
      if AllOutputs(d, dir) == None {
        var i: nat :| i < manifest.value && JsonAt(d, dir, i) == None;
        assert OutputAt(d, dir, i) == None;
      }
    }
  }

  /** A manifest with such a count decides what is there; without one, the whole list of old. */
  lemma ManifestDecides(d: Disk, dir: Directory, count: nat, whole: seq<nat>)
    ensures ContentAt(d, dir, Manifest) == Some(Marker(count)) && count <= 3 ==> OutputCount(d, dir) == count
    ensures NoCount(d, dir) && ContentAt(d, dir, Legacy) == Some(Whole(whole)) ==> AllOutputs(d, dir) == Some(whole)
    ensures NoCount(d, dir) && (ContentAt(d, dir, Legacy).None? || !ContentAt(d, dir, Legacy).value.Whole?) ==>
              AllOutputs(d, dir) == None && OutputCount(d, dir) == 0
  {
  }

  lemma {:induction false} GatherIs(d: Disk, dir: Directory, count: nat)
    ensures Gather(d, dir, count).Some? <==> forall i: nat :: i < count ==> JsonAt(d, dir, i).Some?
    ensures var all := Gather(d, dir, count);
            all.Some? ==>
              |all.value| == count && forall i: nat :: i < count ==> JsonAt(d, dir, i) == Some(all.value[i])
  {
    if count > 0 { GatherIs(d, dir, count - 1); }
  }

  // ---- The system calls move through the phases ----

  /** The i-th output is where running processes look for it, and its contents are synced. */
  predicate Placed(d: Disk, data: seq<nat>, i: nat)
    requires i < |data|
  {
    && Output(i) in Live(d) && Live(d)[Output(i)] in d.synced && Live(d)[Output(i)] in d.contents
    && d.contents[Live(d)[Output(i)]] == Json(data[i])
  }

  lemma CreateLive(d: Disk, content: Content)
    ensures Live(Create(d, content)) == Live(d)[Temporary(d.next) := d.next]
  {
    LiveAfter(d, Link(Temporary(d.next), d.next));
    assert Live(Create(d, content)) == Live(d.(pending := d.pending + [Link(Temporary(d.next), d.next)]));
  }

  lemma ReplacedLive(d: Disk, target: Name, content: Content)
    requires !target.Temporary?
    ensures Live(Replaced(d, target, content)) == (Live(d) - {Temporary(d.next)})[target := d.next]
  {
    var c := Sync(Create(d, content), d.next);
    CreateLive(d, content);
    LiveAfter(c, Relink(Temporary(d.next), target, d.next));
    assert Live(c) == Live(Create(d, content));
    assert Live(d)[Temporary(d.next) := d.next] - {Temporary(d.next)} == Live(d) - {Temporary(d.next)};
  }

  lemma ReplacePlaces(d: Disk, data: seq<nat>, i: nat)
    requires Numbered(d) && i < |data| && forall j: nat :: j < i ==> Placed(d, data, j)
    ensures var r := Replaced(d, Output(i), Json(data[i]));
            Numbered(r) && forall j: nat :: j <= i ==> Placed(r, data, j)
  {
    hide Live;
    ReplacedLive(d, Output(i), Json(data[i]));
    var r := Replaced(d, Output(i), Json(data[i]));
    forall j: nat | j <= i ensures Placed(r, data, j) {
      if j < i { assert Placed(d, data, j); }
    }
  }

  /** Nothing but a rename to the manifest is noticed. */
  lemma ReplaceUnnoticed(start: Disk, d: Disk, target: Name, content: Content)
    requires Unnoticed(start, d) && Numbered(d)
    ensures Unnoticed(start, Create(d, content)) && Unnoticed(start, Sync(Create(d, content), d.next))
    ensures target.Output? ==> Unnoticed(start, Replaced(d, target, content))
  {
  }

  lemma SyncKeeps(start: Disk, d: Disk, data: seq<nat>)
    requires Unnoticed(start, d) && Numbered(d) && forall j: nat :: j < |data| ==> Placed(d, data, j)
    ensures Unnoticed(start, SyncDir(d)) && AllKept(SyncDir(d), data) && Numbered(SyncDir(d))
  {
    SurviveUntouched(d.durable, d.pending, Places(|d.pending|), Manifest);
    SurviveUntouched(d.durable, d.pending, Places(|d.pending|), Legacy);
    assert Live(SyncDir(d)) == Live(d);
    hide Survive;
    forall j: nat | j < |data| ensures Kept(SyncDir(d), data, j) { assert Placed(d, data, j); }
  }

  lemma ManifestCommits(start: Disk, d: Disk, data: seq<nat>)
    requires Unnoticed(start, d) && AllKept(d, data) && Numbered(d)
    ensures var r := Replaced(d, Manifest, Marker(|data|));
            Committing(start, r, data, d.next) && Manifest in Live(r) && Live(r)[Manifest] == d.next
  {
    ReplacedLive(d, Manifest, Marker(|data|));
    var r := Replaced(d, Manifest, Marker(|data|));
    hide Live;
    assert r.pending == d.pending + [Link(Temporary(d.next), d.next)] + [Relink(Temporary(d.next), Manifest, d.next)];
    forall i: nat | i < |data| ensures Kept(r, data, i) { assert Kept(d, data, i); }
  }

  lemma SyncCommits(start: Disk, d: Disk, data: seq<nat>, m: Inode)
    requires Committing(start, d, data, m) && Manifest in Live(d) && Live(d)[Manifest] == m
    ensures Committed(SyncDir(d), data, m)
  {
    forall i: nat | i < |data| ensures Kept(SyncDir(d), data, i) {
      SurviveUntouched(d.durable, d.pending, Places(|d.pending|), Output(i));
      assert Kept(d, data, i);
    }
  }

  lemma RemoveKeepsCommitted(d: Disk, data: seq<nat>, m: Inode)
    requires Committed(d, data, m)
    ensures Committed(Remove(d, Legacy), data, m)
  {
    forall i: nat | i < |data| ensures Kept(Remove(d, Legacy), data, i) { assert Kept(d, data, i); }
  }

  // ---- The store ----

  class DiskBlobStore {
    var disk: Disk
    /** The disk after every system call so far. */
    ghost var history: seq<Disk>

    constructor (disk: Disk)
      ensures this.disk == disk && history == []
    {
      this.disk, this.history := disk, [];
    }

    function Outputs(): Option<seq<nat>>
      reads this
    {
      AllOutputs(disk, Live(disk))
    }

    /** Every system call since the history had this length left a crash-safe disk. */
    ghost predicate SafeSince(from: nat, before: Option<seq<nat>>, data: seq<nat>)
      reads this
    {
      from <= |history| && forall i :: from <= i < |history| ==> CrashSafe(history[i], before, data)
    }

    method WriteTemporary(content: Content) returns (name: Name)
      modifies this
      ensures name == Temporary(old(disk).next) && disk == Create(old(disk), content)
      ensures history == old(history) + [disk]
    {
      name := Temporary(disk.next);
      disk := disk.(contents := disk.contents[disk.next := content],
                    pending := disk.pending + [Link(name, disk.next)],
                    next := disk.next + 1);
      history := history + [disk];
    }

    method SyncFile(name: Name)
      requires name in Live(disk)
      modifies this
      ensures disk == Sync(old(disk), Live(old(disk))[name]) && history == old(history) + [disk]
    {
      disk := disk.(synced := disk.synced + {Live(disk)[name]});
      history := history + [disk];
    }

    method RenameFile(source: Name, name: Name)
      requires source in Live(disk)
      modifies this
      ensures disk == Rename(old(disk), source, name, Live(old(disk))[source]) && history == old(history) + [disk]
    {
      disk := disk.(pending := disk.pending + [Relink(source, name, Live(disk)[source])]);
      history := history + [disk];
    }

    method SyncDirectory()
      modifies this
      ensures disk == SyncDir(old(disk)) && history == old(history) + [disk]
    {
      disk := disk.(durable := Live(disk), pending := []);
      history := history + [disk];
    }

    method RemoveFile(name: Name)
      modifies this
      ensures disk == Remove(old(disk), name) && history == old(history) + [disk]
    {
      disk := disk.(pending := disk.pending + [Unlink(name)]);
      history := history + [disk];
    }

    method WriteJsonAtomically(target: Name, content: Content)
      modifies this
      ensures disk == Replaced(old(disk), target, content)
      ensures var c := Create(old(disk), content); history == old(history) + [c, Sync(c, old(disk).next), disk]
    {
      hide Live;
      CreateLive(disk, content);
      var next := WriteTemporary(content);
      SyncKeepsLive(disk, disk.next - 1);
      SyncFile(next);
      RenameFile(next, target);
    }

    /** Writes the outputs, syncs, then commits them with the manifest. Whatever the moment
        of a crash and whatever the disk loses, readers see what they saw before or the
        complete new list. */
    method PutOutputs(data: seq<nat>) returns (ok: bool)
      requires Numbered(disk) && disk.pending == [] && disk.durable.Values <= disk.synced
      modifies this
      ensures ok <==> 1 <= |data| <= 3 && Manifest !in Live(old(disk))
      ensures !ok ==> disk == old(disk) && history == old(history)
      ensures ok ==> Outputs() == Some(data) && Delivers(disk, Live(disk), data)
      ensures SafeSince(|old(history)|, AllOutputs(old(disk), Live(old(disk))), data)
    {
      if |data| == 0 || |data| > 3 || Manifest in Live(disk) {
        return false;
      }
      ghost var start, from := disk, |history|;
      ghost var before := AllOutputs(start, start.durable);
      StartUnnoticed(start);
      hide Live, Unnoticed, Numbered, AllOutputs, Placed, CrashSafe, Committing, Committed, InPhase, AllKept;
      for index := 0 to |data|
        invariant Unnoticed(start, disk) && Numbered(disk)
        invariant forall j: nat :: j < index ==> Placed(disk, data, j)
        invariant SafeSince(from, before, data)
      {
        WriteOutput(start, data, index);
      }
      SyncAndCommit(start, data);
      return true;
    }

    method SyncAndCommit(ghost start: Disk, data: seq<nat>)
      requires Unnoticed(start, disk) && Numbered(disk) && Manifest !in start.durable && |data| <= 3
      requires forall j: nat :: j < |data| ==> Placed(disk, data, j)
      modifies this
      ensures Outputs() == Some(data) && Delivers(disk, Live(disk), data)
      ensures |history| >= |old(history)| && history[..|old(history)|] == old(history)
      ensures forall i :: |old(history)| <= i < |history| ==>
                CrashSafe(history[i], AllOutputs(start, start.durable), data)
    {
      hide Live, Unnoticed, Numbered, AllOutputs, Placed, CrashSafe, Committed, AllKept, Delivers;
      SyncKeeps(start, disk, data);
      SyncDirectory();
      UnnoticedIsSafe(start, disk, data);
      CommitManifest(start, data);
      RemoveKeepsCommittedSafe(start, disk, data);
      RemoveFile(Legacy);
    }

    method WriteOutput(ghost start: Disk, data: seq<nat>, index: nat)
      requires Unnoticed(start, disk) && Numbered(disk) && Manifest !in start.durable && index < |data| <= 3
      requires forall j: nat :: j < index ==> Placed(disk, data, j)
      modifies this
      ensures Unnoticed(start, disk) && Numbered(disk) && forall j: nat :: j <= index ==> Placed(disk, data, j)
      ensures |history| >= |old(history)| && history[..|old(history)|] == old(history)
      ensures forall i :: |old(history)| <= i < |history| ==>
              CrashSafe(history[i], AllOutputs(start, start.durable), data)
    {
      hide Live, Unnoticed, Numbered, AllOutputs, Placed, CrashSafe;
      ghost var d := disk;
      ReplaceUnnoticed(start, disk, Output(index), Json(data[index]));
      ReplacePlaces(disk, data, index);
      WriteJsonAtomically(Output(index), Json(data[index]));
      UnnoticedIsSafe(start, Create(d, Json(data[index])), data);
      UnnoticedIsSafe(start, Sync(Create(d, Json(data[index])), d.next), data);
      UnnoticedIsSafe(start, disk, data);
    }

    method CommitManifest(ghost start: Disk, data: seq<nat>)
      requires Unnoticed(start, disk) && AllKept(disk, data)
      requires Numbered(disk) && Manifest !in start.durable && |data| <= 3
      modifies this
      ensures |history| >= |old(history)| && history[..|old(history)|] == old(history)
      ensures forall i :: |old(history)| <= i < |history| ==>
              CrashSafe(history[i], AllOutputs(start, start.durable), data)
      ensures exists m :: Committed(disk, data, m)
    {
      hide Live, Unnoticed, Numbered, AllOutputs, CrashSafe, Committing, Committed, InPhase, AllKept;
      ghost var d := disk;
      ReplaceUnnoticed(start, disk, Manifest, Marker(|data|));
      ManifestCommits(start, disk, data);
      WriteJsonAtomically(Manifest, Marker(|data|));
      UnnoticedIsSafe(start, Create(d, Marker(|data|)), data);
      UnnoticedIsSafe(start, Sync(Create(d, Marker(|data|)), d.next), data);
      CommittingIsSafe(start, disk, data, d.next);
      SyncCommits(start, disk, data, d.next);
      SyncDirectory();
      CommittedIsSafe(start, disk, data, d.next);
    }
  }

  lemma SyncKeepsLive(d: Disk, inode: Inode)
    ensures Live(Sync(d, inode)) == Live(d)
  {
  }

  lemma StartUnnoticed(start: Disk)
    requires Numbered(start) && start.pending == [] && start.durable.Values <= start.synced && Manifest !in Live(start)
    ensures Unnoticed(start, start) && Live(start) == start.durable
  {
  }

  lemma UnnoticedIsSafe(start: Disk, d: Disk, data: seq<nat>)
    requires Unnoticed(start, d) && Manifest !in start.durable && |data| <= 3
    ensures CrashSafe(d, AllOutputs(start, start.durable), data)
  {
    hide Unnoticed, CrashSafe;
    PhaseIsCrashSafe(start, d, data);
  }

  lemma CommittingIsSafe(start: Disk, d: Disk, data: seq<nat>, m: Inode)
    requires Committing(start, d, data, m) && Manifest !in start.durable && |data| <= 3
    ensures CrashSafe(d, AllOutputs(start, start.durable), data)
  {
    hide Committing, CrashSafe;
    PhaseIsCrashSafe(start, d, data);
  }

  lemma CommittedIsSafe(start: Disk, d: Disk, data: seq<nat>, m: Inode)
    requires Committed(d, data, m) && Manifest !in start.durable && |data| <= 3
    ensures CrashSafe(d, AllOutputs(start, start.durable), data)
  {
    hide Committed, CrashSafe;
    PhaseIsCrashSafe(start, d, data);
  }

  lemma RemoveKeepsCommittedSafe(start: Disk, d: Disk, data: seq<nat>)
    requires (exists m :: Committed(d, data, m)) && Manifest !in start.durable && |data| <= 3
    ensures var r := Remove(d, Legacy);
            && CrashSafe(r, AllOutputs(start, start.durable), data)
            && AllOutputs(r, Live(r)) == Some(data) && Delivers(r, Live(r), data)
  {
    hide Committed, CrashSafe, Survive;
    var m :| Committed(d, data, m);
    RemoveKeepsCommitted(d, data, m);
    CommittedIsSafe(start, Remove(d, Legacy), data, m);
    CommittedSees(Remove(d, Legacy), Remove(d, Legacy), Places(|Remove(d, Legacy).pending|), data, m);
  }
}
