/**
 The journal file behind a node's records: write a temporary file, sync it, rename it over
 the journal, sync the directory. The disk is a list of directory states, all of them
 possible after a power cut until the directory is synced, over files whose content is
 certain only once synced.
 */
module FileStore {
  import opened Core
  import opened Settlement

  type Records = map<nat, Record>

  type Bytes = seq<nat>

  datatype Codec = Codec(encode: Records -> Bytes, decode: Bytes -> Option<Records>)

  ghost predicate RoundTrips(c: Codec) {
    forall m :: c.decode(c.encode(m)) == Some(m)
  }

  /** A directory names at most the journal and its temporary file. */
  datatype Dir = Dir(journal: Option<nat>, temporary: Option<nat>)

  datatype Disk = Disk(dirs: seq<Dir>, files: map<nat, Bytes>, synced: set<nat>)

  predicate ValidDir(d: Disk, dir: Dir) {
    && (dir.journal.Some? ==> dir.journal.value in d.files)
    && (dir.temporary.Some? ==> dir.temporary.value in d.files && dir.temporary != dir.journal)
  }

  predicate ValidDisk(d: Disk) {
    |d.dirs| > 0 && forall k :: 0 <= k < |d.dirs| ==> ValidDir(d, d.dirs[k])
  }

  function Now(d: Disk): Dir
    requires ValidDisk(d)
  {
    d.dirs[|d.dirs| - 1]
  }

  /**
   What a power cut can leave: one of the directory states, and every synced file intact. What
   is on the disk afterwards, of unsynced files too, is there to stay.
   */
  predicate PowerCut(d: Disk, after: Disk) {
    && ValidDisk(after) && |after.dirs| == 1 && after.dirs[0] in d.dirs
    && after.files.Keys == d.files.Keys == after.synced
    && (forall i :: i in d.synced && i in d.files ==> after.files[i] == d.files[i])
  }

  /** `open`: no journal is an empty store, and a journal that does not parse is an error. */
  function Open(c: Codec, d: Disk): Option<Records>
    requires ValidDisk(d)
  {
    var journal := Now(d).journal;
    if journal.None? then Some(map[]) else c.decode(d.files[journal.value])
  }

  /** In directory state `dir` the journal is synced and holds one of `allowed`. */
  predicate Shows(c: Codec, d: Disk, dir: Dir, allowed: set<Records>)
    requires ValidDir(d, dir)
  {
    if dir.journal.None? then map[] in allowed
    else
      && dir.journal.value in d.synced
      && c.decode(d.files[dir.journal.value]).Some?
      && c.decode(d.files[dir.journal.value]).value in allowed
  }

  /** Every directory state the disk may fall back to shows one of `allowed`. */
  predicate Holds(c: Codec, d: Disk, allowed: set<Records>) {
    ValidDisk(d) && forall k :: 0 <= k < |d.dirs| ==> Shows(c, d, d.dirs[k], allowed)
  }

  lemma PowerCutOpensAllowed(c: Codec, d: Disk, after: Disk, allowed: set<Records>)
    requires Holds(c, d, allowed) && PowerCut(d, after)
    ensures Open(c, after).Some? && Open(c, after).value in allowed
  {
    var k :| 0 <= k < |d.dirs| && d.dirs[k] == after.dirs[0];
    assert Shows(c, d, d.dirs[k], allowed);
  }

  /** The temporary file is not the journal of any state the disk may fall back to. */
  predicate Scratch(d: Disk, i: nat) {
    forall k :: 0 <= k < |d.dirs| ==> d.dirs[k].journal != Some(i)
  }

  class FileSystem {
    var disk: Disk
    /** Every state the disk has passed through, any of which a power cut may strike. */
    ghost var past: seq<Disk>

    constructor (d: Disk)
      ensures disk == d && past == [d]
    {
      disk := d;
      past := [d];
    }

    /** Opens the temporary file, truncating it or creating it as the unused file `spare`. */
    method OpenTemporary(spare: nat) returns (file: nat)
      requires ValidDisk(disk) && spare !in disk.files
      requires Now(disk).temporary.Some? ==> Scratch(disk, Now(disk).temporary.value)
      modifies this
      ensures ValidDisk(disk) && past == old(past) + [disk]
      ensures Now(disk).temporary == Some(file) && Now(disk).journal == Now(old(disk)).journal
      ensures Scratch(disk, file) && file in disk.files && file !in disk.synced
      ensures disk.dirs == old(disk).dirs || disk.dirs == old(disk).dirs + [Now(disk)]
      ensures forall i :: i in old(disk).files && i != file ==>
        i in disk.files && disk.files[i] == old(disk).files[i] && (i in old(disk).synced ==> i in disk.synced)
      ensures file !in old(disk).files || Scratch(old(disk), file)
    {
      var dir := Now(disk);
      if dir.temporary.Some? {
        file := dir.temporary.value;
        disk := disk.(files := disk.files[file := []], synced := disk.synced - {file});
      } else {
        file := spare;
        assert forall k :: 0 <= k < |disk.dirs| ==> ValidDir(disk, disk.dirs[k]);
        disk := Disk(disk.dirs + [dir.(temporary := Some(file))], disk.files[file := []], disk.synced - {file});
      }
      past := past + [disk];
    }

    /** Writes to the temporary file. The bytes may reach the disk in any pieces until it is synced. */
    method WriteAll(file: nat, bytes: Bytes)
      requires ValidDisk(disk) && file in disk.files && file !in disk.synced
      modifies this
      ensures disk == old(disk).(files := old(disk).files[file := bytes]) && past == old(past) + [disk]
      ensures ValidDisk(disk)
    {
      disk := disk.(files := disk.files[file := bytes]);
      past := past + [disk];
    }

    method SyncFile(file: nat)
      requires ValidDisk(disk) && file in disk.files
      modifies this
      ensures disk == old(disk).(synced := old(disk).synced + {file}) && past == old(past) + [disk]
    {
      disk := disk.(synced := disk.synced + {file});
      past := past + [disk];
    }

    method Rename()
      requires ValidDisk(disk) && Now(disk).temporary.Some?
      modifies this
      ensures disk == old(disk).(dirs := old(disk).dirs + [Dir(Now(old(disk)).temporary, None)])
      ensures ValidDisk(disk) && past == old(past) + [disk]
    {
      var moved := Dir(Now(disk).temporary, None);
      assert forall k :: 0 <= k < |disk.dirs| ==> ValidDir(disk, disk.dirs[k]);
      disk := disk.(dirs := disk.dirs + [moved]);
      past := past + [disk];
    }

    method LosePower(after: Disk)
      requires PowerCut(disk, after)
      modifies this
      ensures disk == after && past == old(past) + [disk]
    {
      disk := after;
      past := past + [disk];
    }

    method SyncDirectory()
      requires ValidDisk(disk)
      modifies this
      ensures disk == old(disk).(dirs := [Now(old(disk))]) && past == old(past) + [disk]
      ensures ValidDisk(disk)
    {
      disk := disk.(dirs := [Now(disk)]);
      past := past + [disk];
    }
  }

  /** A temporary file left behind is never the journal of a possible state. */
  predicate Tidy(d: Disk)
    requires ValidDisk(d)
  {
    Now(d).temporary.Some? ==> Scratch(d, Now(d).temporary.value)
  }

  class FileSettlementStore {
    const codec: Codec
    const fs: FileSystem
    var records: Records

    ghost predicate Valid()
      reads this, fs
    {
      RoundTrips(codec) && ValidDisk(fs.disk) && Tidy(fs.disk)
    }

    constructor (codec: Codec, fs: FileSystem)
      requires RoundTrips(codec) && ValidDisk(fs.disk) && Tidy(fs.disk)
      requires Open(codec, fs.disk).Some?
      ensures Valid() && this.fs == fs && this.codec == codec && records == Open(codec, fs.disk).value
    {
      this.codec, this.fs := codec, fs;
      var read := Open(codec, fs.disk);
      records := read.value;
    }

    /** The save up to the written temporary file. */
    method FillTemporary(bytes: Bytes, spare: nat, failAt: nat, ghost allowed: set<Records>)
      returns (ok: bool, file: nat)
      requires Valid() && Holds(codec, fs.disk, allowed) && spare !in fs.disk.files
      modifies fs
      ensures Valid() && old(fs.past) <= fs.past
      ensures forall k :: |old(fs.past)| <= k < |fs.past| ==> Holds(codec, fs.past[k], allowed)
      ensures Holds(codec, fs.disk, allowed)
      ensures ok ==>
        && Now(fs.disk).temporary == Some(file) && Scratch(fs.disk, file)
        && file in fs.disk.files && fs.disk.files[file] == bytes
      ensures failAt >= 3 ==> ok
    {
      if failAt == 0 {
        return false, 0;
      }
      ghost var start := fs.disk;
      file := fs.OpenTemporary(spare);
      ScratchKeepsShowing(codec, start, fs.disk, file, allowed);
      if failAt == 1 {
        return false, file;
      }
      ghost var blank := fs.disk;
      fs.WriteAll(file, bytes);
      ScratchKeepsShowing(codec, blank, fs.disk, file, allowed);
      ok := failAt != 2;
    }

    /** The save up to the synced temporary file: no possible journal changes. */
    method WriteTemporary(bytes: Bytes, spare: nat, failAt: nat, ghost allowed: set<Records>)
      returns (ok: bool, file: nat)
      requires Valid() && Holds(codec, fs.disk, allowed) && spare !in fs.disk.files
      modifies fs
      ensures Valid() && old(fs.past) <= fs.past
      ensures forall k :: |old(fs.past)| <= k < |fs.past| ==> Holds(codec, fs.past[k], allowed)
      ensures Holds(codec, fs.disk, allowed)
      ensures ok ==> Now(fs.disk).temporary == Some(file) && file in fs.disk.synced && fs.disk.files[file] == bytes
      ensures failAt >= 4 ==> ok
    {
      ok, file := FillTemporary(bytes, spare, failAt, allowed);
      if ok {
        ghost var written := fs.disk;
        fs.SyncFile(file);
        ScratchKeepsShowing(codec, written, fs.disk, file, allowed);
        ok := failAt != 3;
      }
    }

    /**
     Saves `next`, stopping where a step fails. Whatever the disk could have held before, a
     power cut at any moment of the save opens to that or to `next`; once the save
     completes, only to `next`.
     */
    method Save(next: Records, spare: nat, failAt: nat, ghost before: set<Records>) returns (ok: bool)
      requires Valid() && Holds(codec, fs.disk, before) && spare !in fs.disk.files
      modifies fs
      ensures Valid() && old(fs.past) <= fs.past
      ensures forall k :: |old(fs.past)| <= k < |fs.past| ==> Holds(codec, fs.past[k], before + {next})
      ensures Holds(codec, fs.disk, if ok then {next} else before + {next})
      ensures ok ==> Open(codec, fs.disk) == Some(next)
      ensures failAt >= 5 ==> ok
    {
      ghost var allowed := before + {next};
      HoldsMore(codec, fs.disk, before, allowed);
      var bytes := codec.encode(next);
      var written, file := WriteTemporary(bytes, spare, failAt, allowed);
      if !written {
        return false;
      }
      ghost var synced := fs.disk;
      fs.Rename();
      RenameShows(codec, synced, fs.disk, file, next, allowed);
      if failAt == 4 {
        return false;
      }
      fs.SyncDirectory();
      return true;
    }

    /** Stores a record; when the save fails, the map in memory is as it was. */
    method Put(id: nat, rec: Record, spare: nat, failAt: nat, ghost before: set<Records>) returns (ok: bool)
      requires Valid() && Holds(codec, fs.disk, before) && spare !in fs.disk.files
      modifies this, fs
      ensures Valid() && old(fs.past) <= fs.past
      ensures records == if ok then old(records)[id := rec] else old(records)
      ensures forall k :: |old(fs.past)| <= k < |fs.past| ==>
        Holds(codec, fs.past[k], before + {old(records)[id := rec]})
      ensures Holds(codec, fs.disk, if ok then {records} else before + {old(records)[id := rec]})
      ensures failAt >= 5 ==> ok
    {
      var known := id in records;
      var previous := if known then Some(records[id]) else None;
      records := records[id := rec];
      ok := Save(records, spare, failAt, before);
      if !ok {
        if previous.Some? {
          records := records[id := previous.value];
        } else {
          records := records - {id};
        }
      }
    }
  }

  lemma HoldsMore(c: Codec, d: Disk, few: set<Records>, more: set<Records>)
    requires Holds(c, d, few) && few <= more
    ensures Holds(c, d, more)
  {
    forall k | 0 <= k < |d.dirs| ensures Shows(c, d, d.dirs[k], more) {
      assert Shows(c, d, d.dirs[k], few);
    }
  }

  /** After the rename the newest directory state shows `next`, and the older ones what they showed. */
  lemma RenameShows(c: Codec, d: Disk, after: Disk, file: nat, next: Records, allowed: set<Records>)
    requires RoundTrips(c) && Holds(c, d, allowed) && next in allowed
    requires Now(d).temporary == Some(file) && file in d.synced && file in d.files && d.files[file] == c.encode(next)
    requires after == d.(dirs := d.dirs + [Dir(Some(file), None)]) && ValidDisk(after)
    ensures Holds(c, after, allowed) && Shows(c, after, Now(after), {next})
  {
    assert c.decode(c.encode(next)) == Some(next);
    forall k | 0 <= k < |after.dirs| ensures Shows(c, after, after.dirs[k], allowed) {
      if k < |d.dirs| {
        assert Shows(c, d, d.dirs[k], allowed);
      }
    }
  }

  /** Changing only a scratch file and naming it leaves every possible journal as it was. */
  lemma ScratchKeepsShowing(c: Codec, d: Disk, after: Disk, file: nat, allowed: set<Records>)
    requires Holds(c, d, allowed) && ValidDisk(after) && Scratch(after, file)
    requires forall k :: 0 <= k < |after.dirs| ==>
      after.dirs[k] in d.dirs || after.dirs[k].journal == Now(d).journal
    requires forall i :: i in d.files && i != file ==>
      i in after.files && after.files[i] == d.files[i] && (i in d.synced ==> i in after.synced)
    ensures Holds(c, after, allowed)
  {
    forall k | 0 <= k < |after.dirs| ensures Shows(c, after, after.dirs[k], allowed) {
      if after.dirs[k] in d.dirs {
        var j :| 0 <= j < |d.dirs| && d.dirs[j] == after.dirs[k];
        assert Shows(c, d, d.dirs[j], allowed);
      } else {
        assert Shows(c, d, d.dirs[|d.dirs| - 1], allowed);
      }
    }
  }

  // ------------------------------------------------- a store's whole life

  /** After a power cut the disk holds exactly the map it opens to. */
  lemma CutHoldsWhatItOpens(c: Codec, d: Disk, after: Disk, allowed: set<Records>)
    requires Holds(c, d, allowed) && PowerCut(d, after)
    ensures Open(c, after).Some? && Open(c, after).value in allowed
    ensures Holds(c, after, {Open(c, after).value}) && Tidy(after)
  {
    PowerCutOpensAllowed(c, d, after, allowed);
    assert Now(after) == after.dirs[0];
  }

  lemma HeldIsOpened(c: Codec, d: Disk, allowed: set<Records>)
    requires Holds(c, d, allowed)
    ensures Open(c, d).Some? && Open(c, d).value in allowed
  {
    assert Shows(c, d, d.dirs[|d.dirs| - 1], allowed);
  }

  /** What a cut leaves may be anything it can leave. */
  ghost predicate CutsTruly(cut: Disk -> Disk) {
    forall d {:trigger PowerCut(d, cut(d))} :: ValidDisk(d) ==> PowerCut(d, cut(d))
  }

  /**
   A save that began on a disk certain to hold the store's map, was stopped after any of its
   steps by a power cut, and is opened again, gives exactly the old map or the new one.
   */
  method CrashOpensOldOrNew(store: FileSettlementStore, next: Records, spare: nat, failAt: nat, cut: Disk -> Disk)
    returns (found: Option<Records>)
    requires store.Valid() && Holds(store.codec, store.fs.disk, {store.records}) && spare !in store.fs.disk.files
    requires CutsTruly(cut)
    modifies store.fs
    ensures found == Some(store.records) || found == Some(next)
    ensures failAt >= 5 ==> found == Some(next)
  {
    var ok := store.Save(next, spare, failAt, {store.records});
    var after := cut(store.fs.disk);
    assert PowerCut(store.fs.disk, cut(store.fs.disk));
    CutHoldsWhatItOpens(store.codec, store.fs.disk, after, if ok then {next} else {store.records} + {next});
    store.fs.LosePower(after);
    found := Open(store.codec, store.fs.disk);
  }

  datatype Op = PutRecord(id: nat, rec: Record, failAt: nat) | PowerFailure(cut: Disk -> Disk)

  /** What became of an operation, and the map it was about. */
  datatype Entry = Completed(records: Records) | Stopped(records: Records) | Reopened(records: Records)

  /** The maps the journal may hold: the last completed or reopened one, and those in progress since. */
  function May(history: seq<Entry>): set<Records> {
    if |history| == 0 then {map[]}
    else
      var last := history[|history| - 1];
      if last.Stopped? then May(history[..|history| - 1]) + {last.records} else {last.records}
  }

  /** What an operation can come to, from the map in memory before it to the one after. */
  predicate Comes(op: Op, before: Records, after: Records, history: seq<Entry>, entry: Entry) {
    match op
    case PutRecord(id, rec, failAt) =>
      && !entry.Reopened? && (failAt >= 5 ==> entry.Completed?)
      && entry.records == before[id := rec]
      && (if entry.Completed? then after == entry.records else after in May(history + [entry]))
    case PowerFailure(_) =>
      entry.Reopened? && entry.records in May(history) && after == entry.records
  }

  predicate Explains(ops: seq<Op>, memory: seq<Records>, history: seq<Entry>, k: nat)
    requires k < |ops| && k < |history| && k + 1 < |memory|
  {
    Comes(ops[k], memory[k], memory[k + 1], history[..k], history[k])
  }

  ghost predicate OpsCutTruly(ops: seq<Op>) {
    forall k :: 0 <= k < |ops| && ops[k].PowerFailure? ==> CutsTruly(ops[k].cut)
  }

  lemma {:induction false} AboveAll(ids: set<nat>) returns (n: nat)
    ensures n !in ids && forall i :: i in ids ==> i < n
    decreases |ids|
  {
    if ids == {} {
      n := 0;
    } else {
      var i :| i in ids;
      var m := AboveAll(ids - {i});
      n := if i < m then m else i + 1;
      assert forall j :: j in ids ==> j == i || j in ids - {i};
    }
  }

  lemma MayAfter(history: seq<Entry>, e: Entry)
    ensures May(history + [e]) == if e.Stopped? then May(history) + {e.records} else {e.records}
  {
    assert (history + [e])[..|history|] == history;
  }

  /** One operation; a store whose save failed is opened again from the disk. */
  method DoOp(store: FileSettlementStore, op: Op, ghost history: seq<Entry>)
    returns (next: FileSettlementStore, ghost entry: Entry)
    requires store.Valid() && Holds(store.codec, store.fs.disk, May(history))
    requires store.records in May(history) && (op.PowerFailure? ==> CutsTruly(op.cut))
    modifies store, store.fs
    ensures next.Valid() && next.codec == store.codec && next.fs == store.fs && (next == store || fresh(next))
    ensures Holds(next.codec, next.fs.disk, May(history + [entry])) && next.records in May(history + [entry])
    ensures Comes(op, old(store.records), next.records, history, entry)
  {
    match op {
      case PutRecord(id, rec, failAt) =>
        ghost var unused := AboveAll(store.fs.disk.files.Keys);
        var spare: nat :| spare !in store.fs.disk.files;
        ghost var proposed := store.records[id := rec];
        var ok := store.Put(id, rec, spare, failAt, May(history));
        entry := if ok then Completed(proposed) else Stopped(proposed);
        MayAfter(history, entry);
        if ok {
          next := store;
        } else {
          HeldIsOpened(store.codec, store.fs.disk, May(history) + {proposed});
          next := new FileSettlementStore(store.codec, store.fs);
        }
      case PowerFailure(cut) =>
        var after := cut(store.fs.disk);
        assert PowerCut(store.fs.disk, cut(store.fs.disk));
        CutHoldsWhatItOpens(store.codec, store.fs.disk, after, May(history));
        store.fs.LosePower(after);
        next := new FileSettlementStore(store.codec, store.fs);
        entry := Reopened(next.records);
        MayAfter(history, entry);
    }
  }

  /**
   Any sequence of puts, stopped after any of their steps or not at all, and power cuts. The
   journal always opens, and to the last map completed or reopened or one in progress since;
   and so does it after every power cut on the way.
   */
  method Live(codec: Codec, ops: seq<Op>)
    returns (store: FileSettlementStore, ghost memory: seq<Records>, ghost history: seq<Entry>)
    requires RoundTrips(codec) && OpsCutTruly(ops)
    ensures |history| == |ops| && |memory| == |ops| + 1 && memory[0] == map[] && memory[|ops|] == store.records
    ensures forall k :: 0 <= k < |ops| ==> Explains(ops, memory, history, k)
    ensures store.codec == codec && Holds(codec, store.fs.disk, May(history))
  {
    var fs := new FileSystem(Disk([Dir(None, None)], map[], {}));
    store := new FileSettlementStore(codec, fs);
    memory, history := [map[]], [];
    for i := 0 to |ops|
      invariant fresh(store) && fresh(store.fs) && store.Valid() && store.codec == codec
      invariant |history| == i && |memory| == i + 1 && memory[0] == map[] && memory[i] == store.records
      invariant Holds(codec, store.fs.disk, May(history)) && store.records in May(history)
      invariant forall k :: 0 <= k < i ==> Explains(ops, memory, history, k)
    {
      ghost var entry;
      ghost var before, past := memory, history;
      store, entry := DoOp(store, ops[i], history);
      memory, history := memory + [store.records], history + [entry];
      assert history[..i] == past;
      forall k | 0 <= k < i ensures Explains(ops, memory, history, k) {
        StillExplains(ops, before, memory, past, history, k);
      }
    }
  }

  lemma StillExplains(
    ops: seq<Op>, memory: seq<Records>, moreMemory: seq<Records>, history: seq<Entry>, more: seq<Entry>, k: nat)
    requires k < |ops| && k < |history| && k + 1 < |memory| && memory <= moreMemory && history <= more
    requires Explains(ops, memory, history, k)
    ensures Explains(ops, moreMemory, more, k)
  {
    assert more[..k] == history[..k];
  }

  /**
   When every stopped put is followed by a power cut, each reopening finds exactly the last
   completed or reopened map, or the one whose put was stopped.
   */
  lemma ReopensLastOrInProgress(ops: seq<Op>, memory: seq<Records>, history: seq<Entry>, k: nat)
    requires |history| == |ops| && |memory| == |ops| + 1 && k < |ops| && ops[k].PowerFailure?
    requires forall j :: 0 <= j < |ops| ==> Explains(ops, memory, history, j)
    requires forall j :: 0 <= j < k && history[j].Stopped? ==> ops[j + 1].PowerFailure?
    ensures var before := if k > 0 && history[k - 1].Stopped? then k - 1 else k;
            var sure := if before == 0 then map[] else history[before - 1].records;
            history[k].records == sure || (before < k && history[k].records == history[before].records)
  {
    assert Explains(ops, memory, history, k);
    if k > 0 {
      assert Explains(ops, memory, history, k - 1);
      assert history[..k] == history[..k - 1] + [history[k - 1]];
      MayAfter(history[..k - 1], history[k - 1]);
    }
    if k > 1 {
      assert history[..k - 1] == history[..k - 2] + [history[k - 2]];
      MayAfter(history[..k - 2], history[k - 2]);
    }
  }
}
