/**
 The manual installer of scripts/lib/milan-stack-files.py over a file map.

 Every file operation is one step; `fuel` is how many steps the run gets before
 it is stopped (killed, out of space, refused), after which nothing more
 happens.  Equal digests stand for equal content.
 */
module Installer {
  import opened Common

  type Path = string

  const INVENTORY: Path := "/usr/share/goodix53x5-milan/inventory.json"
  const BUILD_ENV: Path := "/usr/share/goodix53x5-milan/build.env"
  const CONFIG: set<Path> := {"/etc/fprintd.conf"}
  const CREATE_MODE := 420

  /** A copy that was stopped leaves part of the content behind. */
  datatype Content = Whole(digest: nat) | Torn(digest: nat)

  /** A directory, or a pipe, socket or device. */
  datatype Kind = Directory | Device

  datatype Node = File(content: Content, mode: nat) | Link(target: string) | Other(kind: Kind)

  datatype Record = Record(path: Path, node: Node)

  /** The inventory file: absent, not ours, or a list of records. */
  datatype Meta = NoInventory | Foreign | Inventory(records: seq<Record>)

  datatype Disk = Disk(files: map<Path, Node>, meta: Meta, temp: Flag, fuel: nat, stopped: Flag)

  /** entry: what a record says of a file; of the others it says only that they are. */
  function Entry(node: Node): Node {
    if node.Other? then Other(Device) else node
  }

  function Names(records: seq<Record>): set<Path> {
    set r | r in records :: r.path
  }

  predicate Distinct(records: seq<Record>) {
    && (forall i, j | 0 <= i < j < |records| :: records[i].path != records[j].path)
    && INVENTORY !in Names(records)
  }

  /** read_inventory: ours, without duplicate or reserved paths. */
  function Read(meta: Meta): Option<seq<Record>> {
    if meta.Inventory? && Distinct(meta.records) then Some(meta.records) else None
  }

  // ------------------------------------------------------------ File operations

  function Stop(d: Disk): Disk {
    d.(stopped := On)
  }

  /** One step, if the run still gets one. */
  function Spend(d: Disk): Disk {
    if d.stopped.On? || d.fuel == 0 then Stop(d) else d.(fuel := d.fuel - 1)
  }

  function Put(d: Disk, p: Path, node: Node): Disk {
    var d1 := Spend(d);
    if d1.stopped.On? then d1 else d1.(files := d1.files[p := node])
  }

  /** unlink refuses directories. */
  function Unlink(d: Disk, p: Path): Disk {
    var d1 := Spend(d);
    if d1.stopped.On? || p !in d1.files then d1
    else if d1.files[p] == Other(Directory) then Stop(d1)
    else d1.(files := d1.files - {p})
  }

  /** write_inventory: a temporary file replaced over the inventory. */
  function WriteInventory(d: Disk, records: seq<Record>): Disk {
    var d1 := Spend(d);
    if d1.stopped.On? then d1
    else
      var d2 := Spend(d1.(temp := On));
      if d2.stopped.On? then d2 else d2.(temp := Off, meta := Inventory(records))
  }

  /** copy_file: clear the destination, then a link or content and mode. */
  function Copy(d: Disk, item: Record): Disk {
    var d1 := if item.path in d.files then Unlink(d, item.path) else d;
    match item.node
    case File(content, mode) =>
      var d2 := Put(d1, item.path, File(Torn(content.digest), CREATE_MODE));
      var d3 := Put(d2, item.path, File(content, CREATE_MODE));
      Put(d3, item.path, item.node)
    case _ => Put(d1, item.path, item.node)
  }

  predicate KeptOld(d: Disk, item: Record) {
    item.path in d.files && Entry(d.files[item.path]) != item.node && item.path in CONFIG
  }

  // ----------------------------------------------------------------- Install

  function DropOld(d: Disk, item: Record, names: set<Path>): Disk {
    if item.path in names || item.path !in d.files || KeptOld(d, item) then d else Unlink(d, item.path)
  }

  /** Files of the old inventory that the new one no longer names. */
  function DropAll(d: Disk, former: seq<Record>, names: set<Path>): Disk
    decreases |former|
  {
    if former == [] then d else DropOld(DropAll(d, former[..|former| - 1], names), former[|former| - 1], names)
  }

  function CopyItem(d: Disk, item: Record): Disk {
    if KeptOld(d, item) then d else Copy(d, item)
  }

  function CopyAll(d: Disk, items: seq<Record>): Disk
    decreases |items|
  {
    if items == [] then d else CopyItem(CopyAll(d, items[..|items| - 1]), items[|items| - 1])
  }

  function OldRecords(d: Disk): seq<Record> {
    if Read(d.meta).Some? then Read(d.meta).value else []
  }

  /** install: drop what is no longer named, record ownership, then copy. */
  function Install(d: Disk, payload: seq<Record>): Disk {
    if d.meta != NoInventory && Read(d.meta).None? then Stop(d)
    else
      var d1 := DropAll(d, OldRecords(d), Names(payload));
      CopyAll(WriteInventory(d1, payload), payload)
  }

  /** preflight's checks of the target, for a verified payload. */
  predicate Preflight(d: Disk, payload: seq<Record>) {
    && (d.meta == NoInventory || (Read(d.meta).Some? && OldRecords(d) != []))
    && forall p | p in Names(payload) - Names(OldRecords(d)) :: p !in d.files
  }

  /** verify_build: distinct names, build.env among them, sane entries. */
  predicate Payload(items: seq<Record>) {
    && Distinct(items) && BUILD_ENV in Names(items)
    && forall r | r in items :: !r.node.Other? && (r.node.File? ==> r.node.content.Whole?)
  }

  /** verify_installed accepts. */
  predicate Verified(d: Disk) {
    && Read(d.meta).Some? && BUILD_ENV in Names(OldRecords(d))
    && forall r | r in OldRecords(d) :: r.path in d.files && (Entry(d.files[r.path]) == r.node || r.path in CONFIG)
  }

  // ------------------------------------------------------------------ Remove

  predicate Unchanged(d: Disk, r: Record) {
    r.path in d.files && Entry(d.files[r.path]) == r.node
  }

  predicate Changed(d: Disk, r: Record) {
    r.path in d.files && Entry(d.files[r.path]) != r.node
  }

  /** classify's middle list, as records in inventory order. */
  function ChangedOnes(d: Disk, records: seq<Record>): seq<Record>
    decreases |records|
  {
    if records == [] then []
    else
      var r := records[|records| - 1];
      ChangedOnes(d, records[..|records| - 1]) + if Changed(d, r) then [r] else []
  }

  /** Unlink the records that were unchanged when the disk looked like `seen`. */
  function UnlinkUnchanged(d: Disk, seen: Disk, records: seq<Record>): Disk
    decreases |records|
  {
    if records == [] then d
    else
      var d1 := UnlinkUnchanged(d, seen, records[..|records| - 1]);
      var r := records[|records| - 1];
      if Unchanged(seen, r) then Unlink(d1, r.path) else d1
  }

  function Remove(d: Disk): Disk {
    if Read(d.meta).None? then Stop(d)
    else
      var changed := ChangedOnes(d, OldRecords(d));
      var d1 := UnlinkUnchanged(d, d, OldRecords(d));
      if changed != [] then WriteInventory(d1, changed)
      else
        var d2 := Spend(d1);
        if d2.stopped.On? then d2 else d2.(meta := NoInventory)
  }

  // --------------------------------------------------- What a stopped run leaves

  /** Only paths in `names` may differ. */
  ghost predicate Only(d: Disk, e: Disk, names: set<Path>) {
    forall p | p !in names :: (p in e.files <==> p in d.files) && (p in d.files && p in e.files ==> e.files[p] == d.files[p])
  }

  /** Nothing new and nothing altered: at most deletions. */
  predicate OnlyDeleted(d: Disk, e: Disk) {
    forall p | p in e.files :: p in d.files && e.files[p] == d.files[p]
  }

  lemma {:induction false} DropAllKeeps(d: Disk, former: seq<Record>, names: set<Path>)
    ensures var e := DropAll(d, former, names);
      e.meta == d.meta && OnlyDeleted(d, e) && Only(d, e, Names(former) - names)
    decreases |former|
  {
    if former != [] {
      var rest := former[..|former| - 1];
      DropAllKeeps(d, rest, names);
      assert Names(former) == Names(rest) + {former[|former| - 1].path};
    }
  }

  lemma PutKeeps(d: Disk, p: Path, node: Node)
    ensures var e := Put(d, p, node); e.meta == d.meta && e.temp == d.temp && Only(d, e, {p})
    ensures d.stopped.On? ==> Put(d, p, node) == d
    ensures Put(d, p, node).stopped.Off? ==> d.stopped.Off? && p in Put(d, p, node).files && Put(d, p, node).files[p] == node
  {
  }

  lemma UnlinkKeeps(d: Disk, p: Path)
    ensures var e := Unlink(d, p); e.meta == d.meta && e.temp == d.temp && Only(d, e, {p})
    ensures d.stopped.On? ==> Unlink(d, p) == d
    ensures Unlink(d, p).stopped.Off? ==> d.stopped.Off?
  {
  }

  lemma CopyKeeps(d: Disk, item: Record)
    ensures var e := Copy(d, item); e.meta == d.meta && e.temp == d.temp && Only(d, e, {item.path})
    ensures d.stopped.On? ==> Copy(d, item) == d
    ensures Copy(d, item).stopped.Off? ==> d.stopped.Off? && item.path in Copy(d, item).files && Copy(d, item).files[item.path] == item.node
  {
    hide Put, Unlink;
    var d1 := if item.path in d.files then Unlink(d, item.path) else d;
    UnlinkKeeps(d, item.path);
    PutKeeps(d1, item.path, item.node);
    if item.node.File? {
      var d2 := Put(d1, item.path, File(Torn(item.node.content.digest), CREATE_MODE));
      var d3 := Put(d2, item.path, File(item.node.content, CREATE_MODE));
      PutKeeps(d1, item.path, File(Torn(item.node.content.digest), CREATE_MODE));
      PutKeeps(d2, item.path, File(item.node.content, CREATE_MODE));
      PutKeeps(d3, item.path, item.node);
    }
  }

  lemma {:induction false} CopyAllKeeps(d: Disk, items: seq<Record>)
    ensures var e := CopyAll(d, items); e.meta == d.meta && Only(d, e, Names(items))
    ensures d.stopped.On? ==> CopyAll(d, items) == d
    decreases |items|
  {
    if items != [] {
      var rest := items[..|items| - 1];
      CopyAllKeeps(d, rest);
      CopyKeeps(CopyAll(d, rest), items[|items| - 1]);
      assert Names(items) == Names(rest) + {items[|items| - 1].path};
    }
  }

  /** Stopped after any step: every file the run placed is in the inventory on
      disk, nothing outside the two inventories changed, and the unmanaged check
      of preflight passes again. */
  lemma StoppedInstall(d: Disk, payload: seq<Record>)
    requires Payload(payload) && Preflight(d, payload)
    ensures var e := Install(d, payload);
      && (forall p | p in e.files && (p !in d.files || d.files[p] != e.files[p]) :: p in Names(OldRecords(e)))
      && Only(d, e, Names(OldRecords(d)) + Names(payload))
      && Preflight(e, payload)
      && (e.meta == d.meta || e.meta == Inventory(payload))
  {
    var d1 := DropAll(d, OldRecords(d), Names(payload));
    var d2 := WriteInventory(d1, payload);
    DropAllKeeps(d, OldRecords(d), Names(payload));
    CopyAllKeeps(d2, payload);
    assert payload != [];
  }

  /** What one finished pass over the payload leaves at each of its paths. */
  lemma {:induction false} CopyAllPlaces(d: Disk, items: seq<Record>, r: Record)
    requires Distinct(items) && r in items && CopyAll(d, items).stopped.Off?
    ensures var e := CopyAll(d, items);
      r.path in e.files && e.files[r.path] == if KeptOld(d, r) then d.files[r.path] else r.node
    decreases |items|
  {
    var rest, last := items[..|items| - 1], items[|items| - 1];
    assert items == rest + [last];
    assert Names(items) == Names(rest) + {last.path};
    CopyAllKeeps(d, rest);
    CopyKeeps(CopyAll(d, rest), last);
    if r == last {
      assert last.path !in Names(rest);
    } else {
      CopyAllPlaces(d, rest, r);
    }
  }

  /** A finished install verifies: every recorded file is as shipped, except a
      configuration file that was there and differed, which is untouched. */
  lemma FinishedInstall(d: Disk, payload: seq<Record>)
    requires Payload(payload) && Preflight(d, payload) && Install(d, payload).stopped.Off?
    ensures var e := Install(d, payload);
      && e.meta == Inventory(payload) && Verified(e)
      && forall r | r in payload ::
           r.path in e.files && e.files[r.path] == if KeptOld(d, r) then d.files[r.path] else r.node
  {
    var d1 := DropAll(d, OldRecords(d), Names(payload));
    var d2 := WriteInventory(d1, payload);
    DropAllKeeps(d, OldRecords(d), Names(payload));
    CopyAllKeeps(d2, payload);
    forall r | r in payload
      ensures var e := Install(d, payload);
        r.path in e.files && e.files[r.path] == if KeptOld(d, r) then d.files[r.path] else r.node
    {
      CopyAllPlaces(d2, payload, r);
    }
  }

  /** The same disk with the next run's budget. */
  function Resume(d: Disk, fuel: nat): Disk {
    d.(fuel := fuel, stopped := Off)
  }

  /** A stopped install can be rerun: if the rerun finishes, it verifies. */
  lemma RerunInstall(d: Disk, payload: seq<Record>, fuel: nat)
    requires Payload(payload) && Preflight(d, payload)
    requires Install(Resume(Install(d, payload), fuel), payload).stopped.Off?
    ensures Verified(Install(Resume(Install(d, payload), fuel), payload))
  {
    StoppedInstall(d, payload);
    FinishedInstall(Resume(Install(d, payload), fuel), payload);
  }

  /** A configuration file ends as shipped exactly when it was absent or already so. */
  lemma ConfigurationShipped(d: Disk, payload: seq<Record>, r: Record)
    requires Payload(payload) && Preflight(d, payload) && Install(d, payload).stopped.Off?
    requires r in payload && r.path in CONFIG
    ensures Unchanged(Install(d, payload), r) <==> r.path !in d.files || Entry(d.files[r.path]) == r.node
  {
    FinishedInstall(d, payload);
  }

  /** A run stopped while it copies a configuration file leaves a torn one, which
      the finished rerun takes for the user's and keeps. */
  lemma TornConfigurationKept()
    ensures var conf := Record("/etc/fprintd.conf", File(Whole(1), 420));
      var env := Record(BUILD_ENV, File(Whole(2), 420));
      var d := Disk(map[], NoInventory, Off, 3, Off);
      && Payload([conf, env]) && Preflight(d, [conf, env])
      && var e := Install(Resume(Install(d, [conf, env]), 100), [conf, env]);
         e.stopped.Off? && Verified(e) && conf.path in e.files && e.files[conf.path] == File(Torn(1), 420)
  {
    var conf := Record("/etc/fprintd.conf", File(Whole(1), 420));
    var env := Record(BUILD_ENV, File(Whole(2), 420));
    var payload := [conf, env];
    assert payload[..1] == [conf] && payload[..1][..0] == [];
    assert conf in payload && env in payload;
    assert Names(payload) == {conf.path, env.path};
    var d := Disk(map[], NoInventory, Off, 3, Off);
    var d2 := WriteInventory(d, payload);
    assert CopyAll(d2, []) == d2;
    assert CopyAll(d2, [conf]) == CopyItem(d2, conf);
    var s := Install(d, payload);
    assert s == CopyItem(CopyItem(d2, conf), env);
    assert s.stopped.On? && s.files == map[conf.path := File(Torn(1), CREATE_MODE)];
    StoppedInstall(d, payload);
    var g := Resume(s, 100);
    assert OldRecords(g) == payload;
    assert DropAll(g, payload[..1], Names(payload)) == DropOld(DropAll(g, [], Names(payload)), conf, Names(payload)) == g;
    assert DropAll(g, payload, Names(payload)) == g;
    var g2 := WriteInventory(g, payload);
    assert CopyAll(g2, []) == g2;
    assert CopyAll(g2, [conf]) == CopyItem(g2, conf) == g2;
    assert CopyAll(g2, payload) == CopyItem(g2, env);
    FinishedInstall(g, payload);
  }

  // ------------------------------------------------------------------ Removal

  lemma {:induction false} UnlinkUnchangedKeeps(d: Disk, seen: Disk, records: seq<Record>)
    ensures var e := UnlinkUnchanged(d, seen, records);
      && e.meta == d.meta && OnlyDeleted(d, e)
      && (forall p | p in d.files && p !in e.files :: exists r | r in records :: r.path == p && Unchanged(seen, r))
      && (e.stopped.Off? ==> forall r | r in records && Unchanged(seen, r) :: r.path !in e.files)
    decreases |records|
  {
    if records != [] {
      var rest, last := records[..|records| - 1], records[|records| - 1];
      assert records == rest + [last];
      UnlinkUnchangedKeeps(d, seen, rest);
    }
  }

  lemma {:induction false} ChangedOnesAre(d: Disk, records: seq<Record>)
    ensures forall r :: r in ChangedOnes(d, records) <==> r in records && Changed(d, r)
    decreases |records|
  {
    if records != [] {
      var rest, last := records[..|records| - 1], records[|records| - 1];
      assert records == rest + [last];
      ChangedOnesAre(d, rest);
    }
  }

  /** What a finished removal of d's inventory leaves: every recorded file that was
      unmodified is gone, nothing else changed, and exactly the modified recorded
      files stay on record. */
  ghost predicate Removed(d: Disk, e: Disk) {
    && OnlyDeleted(d, e)
    && (forall p | p in d.files :: p !in e.files <==> exists r | r in OldRecords(d) :: r.path == p && Unchanged(d, r))
    && (e.meta == NoInventory <==> forall r | r in OldRecords(d) :: !Changed(d, r))
    && (e.meta != NoInventory ==>
          e.meta.Inventory? && forall r :: r in e.meta.records <==> r in OldRecords(d) && Changed(d, r))
  }

  /** Only unmodified recorded files are missing from e. */
  ghost predicate DeletedOwn(d: Disk, e: Disk) {
    && OnlyDeleted(d, e)
    && forall p | p in d.files && p !in e.files :: exists q | q in OldRecords(d) :: q.path == p && Unchanged(d, q)
  }

  /** remove, stopped anywhere, deletes recorded files that are unmodified and
      nothing else and keeps the inventory; finished, it deletes all of them. */
  lemma RemoveDeletesOwn(d: Disk)
    requires Read(d.meta).Some?
    ensures DeletedOwn(d, Remove(d))
    ensures if Remove(d).stopped.On? then Remove(d).meta == d.meta else Removed(d, Remove(d))
  {
    UnlinkUnchangedKeeps(d, d, OldRecords(d));
    ChangedOnesAre(d, OldRecords(d));
    var kept := ChangedOnes(d, OldRecords(d));
    if kept != [] {
      assert kept[0] in kept;
    }
  }

  /** In a sound inventory a path stands for one record. */
  lemma OneRecord(d: Disk, r: Record, q: Record)
    requires r in OldRecords(d) && q in OldRecords(d) && r.path == q.path
    ensures r == q
  {
  }

  /** A rerun judges each recorded file as the first run did. */
  lemma JudgedAlike(d: Disk, e: Disk, r: Record)
    requires DeletedOwn(d, e) && r in OldRecords(d)
    ensures Changed(e, r) <==> Changed(d, r)
    ensures Unchanged(e, r) <==> Unchanged(d, r) && r.path in e.files
  {
    if Changed(d, r) && r.path !in e.files {
      var q :| q in OldRecords(d) && q.path == r.path && Unchanged(d, q);
      OneRecord(d, r, q);
    }
  }

  lemma ResumedStands(d: Disk, e: Disk, fuel: nat)
    ensures DeletedOwn(d, e) ==> DeletedOwn(d, Resume(e, fuel))
    ensures Removed(d, e) ==> Removed(d, Resume(e, fuel))
    ensures e.meta == d.meta ==> OldRecords(Resume(e, fuel)) == OldRecords(d)
  {
    hide Changed, Unchanged, OnlyDeleted;
    assert forall p :: p in Resume(e, fuel).files <==> p in e.files;
    assert OnlyDeleted(d, Resume(e, fuel)) == OnlyDeleted(d, e) by { ResumedFiles(d, e, fuel); }
  }

  lemma ResumedFiles(d: Disk, e: Disk, fuel: nat)
    ensures OnlyDeleted(d, Resume(e, fuel)) == OnlyDeleted(d, e)
  {
  }

  lemma FinishedHadInventory(d: Disk)
    requires Remove(d).stopped.Off?
    ensures Read(d.meta).Some?
  {
  }

  /** Wherever a removal was stopped, a rerun that finishes leaves what one
      uninterrupted removal would have left. */
  lemma RerunRemove(d: Disk, fuel: nat)
    requires Read(d.meta).Some? && Remove(Resume(Remove(d), fuel)).stopped.Off?
    ensures Removed(d, Remove(Resume(Remove(d), fuel)))
  {
    hide Remove, Removed, DeletedOwn, Resume, OldRecords, Read;
    var e := Resume(Remove(d), fuel);
    RemoveDeletesOwn(d);
    FinishedHadInventory(e);
    RemoveDeletesOwn(e);
    ResumedStands(d, Remove(d), fuel);
    if Remove(d).stopped.On? {
      RemovedAfterStop(d, e, Remove(e));
    } else {
      RemovedTwice(d, e, Remove(e));
    }
  }

  lemma RemovedAfterStop(d: Disk, e: Disk, f: Disk)
    requires DeletedOwn(d, e) && OldRecords(e) == OldRecords(d) && Removed(e, f)
    ensures Removed(d, f)
  {
    forall r | r in OldRecords(d)
      ensures (Changed(e, r) <==> Changed(d, r)) && (Unchanged(e, r) <==> Unchanged(d, r) && r.path in e.files)
    {
      JudgedAlike(d, e, r);
    }
    hide OldRecords, Changed, Unchanged;
  }

  /** Removing again after the modified files were kept changes nothing. */
  lemma RemovedTwice(d: Disk, e: Disk, f: Disk)
    requires Read(e.meta).Some? && Removed(d, e) && Removed(e, f)
    ensures Removed(d, f)
  {
    assert OldRecords(e) == e.meta.records;
    forall r | r in OldRecords(e) ensures r in OldRecords(d) && Changed(d, r) && Changed(e, r) && !Unchanged(e, r) {
      JudgedAlike(d, e, r);
    }
    forall r | r in OldRecords(d) && Changed(d, r) ensures r in OldRecords(e) {
    }
    hide OldRecords, Changed, Unchanged;
  }

  /** What a clean installation put at the recorded paths, and nowhere else. */
  lemma CleanInstall(d: Disk, payload: seq<Record>)
    requires Payload(payload) && d.meta == NoInventory && Preflight(d, payload) && Install(d, payload).stopped.Off?
    ensures var i := Install(d, payload);
      && i.meta == Inventory(payload) && (forall r | r in payload :: Unchanged(i, r) && r.path !in d.files)
      && Only(d, i, Names(payload))
  {
    FinishedInstall(d, payload);
    StoppedInstall(d, payload);
    hide Install;
    assert OldRecords(d) == [] && Names(OldRecords(d)) == {};
    forall r | r in payload ensures r.path !in d.files {
      assert r.path in Names(payload);
    }
  }

  /** Installing on a clean target and removing again restores it exactly. */
  lemma InstallThenRemove(d: Disk, payload: seq<Record>, fuel: nat)
    requires Payload(payload) && d.meta == NoInventory && Preflight(d, payload)
    requires Install(d, payload).stopped.Off? && Remove(Resume(Install(d, payload), fuel)).stopped.Off?
    ensures var e := Remove(Resume(Install(d, payload), fuel)); e.files == d.files && e.meta == NoInventory
  {
    var i := Resume(Install(d, payload), fuel);
    CleanInstall(d, payload);
    RemoveDeletesOwn(i);
    hide Install, Remove, Preflight, Payload;
    RestoredByRemoval(d, i, Remove(i), payload);
  }

  /** Removing an intact inventory whose paths were free before restores the rest. */
  lemma RestoredByRemoval(d: Disk, i: Disk, e: Disk, payload: seq<Record>)
    requires OldRecords(i) == payload && Only(d, i, Names(payload)) && Removed(i, e)
    requires forall r | r in payload :: Unchanged(i, r) && r.path !in d.files
    ensures e.files == d.files && e.meta == NoInventory
  {
    forall p ensures (p in e.files <==> p in d.files) && (p in e.files ==> e.files[p] == d.files[p]) {
      if p in Names(payload) {
        var r :| r in payload && r.path == p;
      }
    }
  }

  // ------------------------------------------------- As the script runs it

  class Root {
    var files: map<Path, Node>
    var meta: Meta
    var temp: Flag
    var fuel: nat
    var stopped: Flag

    ghost function View(): Disk
      reads this
    {
      Disk(files, meta, temp, fuel, stopped)
    }

    method SpendStep() returns (ok: bool)
      modifies this`fuel, this`stopped
      ensures View() == Spend(old(View())) && (ok <==> stopped.Off?)
    {
      if stopped.On? || fuel == 0 {
        stopped := On;
      } else {
        fuel := fuel - 1;
      }
      ok := stopped.Off?;
    }

    method PutNode(p: Path, node: Node)
      modifies this`files, this`fuel, this`stopped
      ensures View() == Put(old(View()), p, node)
    {
      var ok := SpendStep();
      if ok { files := files[p := node]; }
    }

    method UnlinkPath(p: Path)
      modifies this`files, this`fuel, this`stopped
      ensures View() == Unlink(old(View()), p)
    {
      var ok := SpendStep();
      if ok && p in files {
        if files[p] == Other(Directory) {
          stopped := On;
        } else {
          files := files - {p};
        }
      }
    }

    method WriteInventoryFile(records: seq<Record>)
      modifies this
      ensures View() == WriteInventory(old(View()), records)
    {
      var ok := SpendStep();
      if ok {
        temp := On;
        ok := SpendStep();
        if ok { temp, meta := Off, Inventory(records); }
      }
    }

    method CopyFile(item: Record)
      modifies this`files, this`fuel, this`stopped
      ensures View() == Copy(old(View()), item)
    {
      if item.path in files { UnlinkPath(item.path); }
      if item.node.File? {
        PutNode(item.path, File(Torn(item.node.content.digest), CREATE_MODE));
        PutNode(item.path, File(item.node.content, CREATE_MODE));
      }
      PutNode(item.path, item.node);
    }

    /** read_inventory on the target. */
    method ReadInventory() returns (records: Option<seq<Record>>)
      ensures records == Read(meta)
    {
      if !meta.Inventory? { return None; }
      var all := meta.records;
      var seen: set<Path> := {};
      for i := 0 to |all|
        invariant seen == Names(all[..i]) && Distinct(all[..i])
      {
        if all[i].path in seen || all[i].path == INVENTORY {
          RepeatedName(all, i);
          return None;
        }
        assert all[..i + 1] == all[..i] + [all[i]];
        seen := seen + {all[i].path};
      }
      assert all[..|all|] == all;
      records := Some(all);
    }

    /** preflight against the target. */
    method CheckTarget(payload: seq<Record>) returns (ready: bool)
      requires Payload(payload)
      ensures ready <==> Preflight(View(), payload)
    {
      var owned: seq<Record> := [];
      if meta != NoInventory {
        var records := ReadInventory();
        if records.None? || records.value == [] { return false; }
        owned := records.value;
      }
      var known := set r | r in owned :: r.path;
      for i := 0 to |payload|
        invariant forall k | 0 <= k < i :: payload[k].path in known || payload[k].path !in files
      {
        if payload[i].path !in known && payload[i].path in files {
          assert payload[i].path in Names(payload) - Names(OldRecords(View()));
          return false;
        }
      }
      ready := true;
    }

    method InstallPayload(payload: seq<Record>) returns (finished: bool)
      requires Payload(payload)
      modifies this
      ensures View() == Install(old(View()), payload)
      ensures finished <==> stopped.Off?
    {
      var owned: seq<Record> := [];
      if meta != NoInventory {
        var records := ReadInventory();
        if records.None? {
          stopped := On;
          return false;
        }
        owned := records.value;
      }
      DropOrphans(owned, set r | r in payload :: r.path);
      WriteInventoryFile(payload);
      CopyPayload(payload);
      finished := stopped.Off?;
    }

    /** The loop over the former records. */
    method DropOrphans(owned: seq<Record>, names: set<Path>)
      modifies this
      ensures View() == DropAll(old(View()), owned, names)
    {
      ghost var start := View();
      var i := 0;
      while i < |owned|
        invariant 0 <= i <= |owned|
        invariant View() == DropAll(start, owned[..i], names)
      {
        var item := owned[i];
        assert owned[..i + 1][..i] == owned[..i];
        if item.path !in names && item.path in files && !(Entry(files[item.path]) != item.node && item.path in CONFIG) {
          UnlinkPath(item.path);
        }
        i := i + 1;
      }
      assert owned[..|owned|] == owned;
    }

    /** The loop over the new payload. */
    method CopyPayload(payload: seq<Record>)
      modifies this
      ensures View() == CopyAll(old(View()), payload)
    {
      ghost var recorded := View();
      var i := 0;
      while i < |payload|
        invariant 0 <= i <= |payload|
        invariant View() == CopyAll(recorded, payload[..i])
      {
        var item := payload[i];
        assert payload[..i + 1][..i] == payload[..i];
        if !(item.path in CONFIG && item.path in files && Entry(files[item.path]) != item.node) {
          CopyFile(item);
        }
        i := i + 1;
      }
      assert payload[..|payload|] == payload;
    }

    /** classify. */
    method Classify(records: seq<Record>) returns (intact: seq<Record>, changed: seq<Record>, missing: seq<Record>)
      ensures changed == ChangedOnes(View(), records)
      ensures forall r :: r in intact <==> r in records && Unchanged(View(), r)
      ensures forall r :: r in missing <==> r in records && r.path !in files
    {
      intact, changed, missing := [], [], [];
      for i := 0 to |records|
        invariant changed == ChangedOnes(View(), records[..i])
        invariant forall r :: r in intact <==> r in records[..i] && Unchanged(View(), r)
        invariant forall r :: r in missing <==> r in records[..i] && r.path !in files
      {
        var item := records[i];
        assert records[..i + 1][..i] == records[..i];
        if item.path !in files {
          missing := missing + [item];
        } else if Entry(files[item.path]) == item.node {
          intact := intact + [item];
        } else {
          changed := changed + [item];
        }
      }
      assert records[..|records|] == records;
    }

    method RemoveInstalled() returns (finished: bool)
      modifies this
      ensures View() == Remove(old(View()))
      ensures finished <==> stopped.Off?
    {
      var records := ReadInventory();
      if records.None? {
        stopped := On;
        return false;
      }
      var owned := records.value;
      var intact, changed, missing := Classify(owned);
      ghost var start := View();
      var i := 0;
      while i < |owned|
        invariant 0 <= i <= |owned| && meta == start.meta
        invariant View() == UnlinkUnchanged(start, start, owned[..i])
      {
        assert owned[..i + 1][..i] == owned[..i];
        if owned[i] in intact { UnlinkPath(owned[i].path); }
        i := i + 1;
      }
      assert owned[..|owned|] == owned;
      if changed != [] {
        WriteInventoryFile(changed);
      } else {
        var ok := SpendStep();
        if ok { meta := NoInventory; }
      }
      finished := stopped.Off?;
    }

    /** verify_installed. */
    method VerifyInstalled() returns (verified: bool)
      ensures verified <==> Verified(View())
    {
      var records := ReadInventory();
      if records.None? { return false; }
      var owned := records.value;
      if BUILD_ENV !in (set r | r in owned :: r.path) { return false; }
      var intact, changed, missing := Classify(owned);
      ChangedOnesAre(View(), owned);
      if missing != [] {
        assert missing[0] in missing;
        return false;
      }
      for i := 0 to |changed|
        invariant forall k | 0 <= k < i :: changed[k].path in CONFIG
      {
        if changed[i].path !in CONFIG {
          assert changed[i] in changed;
          return false;
        }
      }
      forall r | r in owned ensures r.path in files && (Entry(files[r.path]) == r.node || r.path in CONFIG) {
        if Changed(View(), r) { assert r in changed; }
      }
      verified := true;
    }
  }

  lemma RepeatedName(all: seq<Record>, i: nat)
    requires i < |all| && (all[i].path in Names(all[..i]) || all[i].path == INVENTORY)
    ensures !Distinct(all)
  {
    assert all[i] in all;
  }
}
