/**
 The table of persistent memory regions and the numbered files behind them, in a fresh run of the
 back-end process, which makes the initial synchronisation and then processes MMAP entries.
 */
module RegionTable {

  const INITIAL_TABLE_SIZE := 65536

  datatype Region = Region(base: nat, size: nat)
  datatype Record = Record(address: nat, fileIndex: nat, mmapSize: nat, commitIndex: nat)

  function NewRecord(addr: nat, index: nat, size: nat, commitIndex: nat): Record {
    Record(addr, index, size, commitIndex + 1)
  }

  /** `file` is mapped at `address`. */
  datatype Mapping = Mapping(address: nat, size: nat, file: nat)

  /** What remap_backend maps when it trusts the first `n` records: record `i` with file `i`. */
  function Remapped(t: seq<Record>, n: nat): (ms: seq<Mapping>)
    requires n <= |t|
    ensures |ms| == n
  {
    seq(n, i requires 0 <= i < n => Mapping(t[i].address, t[i].mmapSize, i))
  }

  /** Record `k` names file `k`, which exists in the recorded size and is mapped as recorded. */
  predicate Backed(t: seq<Record>, files: map<nat, nat>, ms: seq<Mapping>, k: nat)
    requires k < |t| && k < |ms|
  {
    && t[k].fileIndex == k
    && k in files && files[k] == t[k].mmapSize
    && ms[k] == Mapping(t[k].address, t[k].mmapSize, k)
  }

  /** The mappings of a synchronisation, file numbers counting up from `first`. */
  function Synced(rs: seq<Region>, first: nat): seq<Mapping> {
    seq(|rs|, i requires 0 <= i < |rs| => Mapping(rs[i].base, rs[i].size, first + i))
  }

  /**
   After a crash the records past the trusted ones may hold anything: the trusted ones alone
   rebuild the mappings they were made with, in order, on files of the right size.
   */
  lemma RemapRebuilds(t: seq<Record>, t': seq<Record>, files: map<nat, nat>, ms: seq<Mapping>, n: nat, u: nat)
    requires n <= u <= |t| && |ms| == u && |t'| == |t|
    requires forall k | 0 <= k < u :: Backed(t, files, ms, k)
    requires t'[..n] == t[..n]
    ensures Remapped(t', n) == ms[..n]
    ensures forall k | 0 <= k < n :: ms[k].file in files && files[ms[k].file] == ms[k].size
  {
    forall k | 0 <= k < n ensures Remapped(t', n)[k] == ms[..n][k] && k in files && files[k] == ms[k].size {
      assert Backed(t, files, ms, k);
      assert t'[k] == t'[..n][k] == t[..n][k] == t[k];
    }
    forall k | 0 <= k < n ensures ms[k].file in files && files[ms[k].file] == ms[k].size {
      assert Backed(t, files, ms, k);
    }
  }

  class Table {
    var tableCommitIndex: nat
    var currentTableSize: nat
    var numberOfEntries: nat           // committed
    var uncommitted: nat
    var regionTable: array<Record>
    var metaRegions: nat               // commit_metadata.numberOfRegions
    var sequenceNumber: nat            // of create_pmem_file
    var files: map<nat, nat>           // size of each mem_file_k
    var mappings: seq<Mapping>         // every mmap of a region so far

    ghost predicate Counters()
      reads this, regionTable
    {
      && regionTable.Length == currentTableSize
      && metaRegions <= numberOfEntries <= uncommitted <= currentTableSize
      && sequenceNumber == uncommitted == |mappings|
    }

    /** Record k has file_index k and is backed by mem_file_k. */
    ghost predicate Valid()
      reads this, regionTable
    {
      && Counters()
      && forall k | 0 <= k < uncommitted :: Backed(regionTable[..], files, mappings, k)
    }

    /** region_table_create_or_open on a missing file. */
    constructor ()
      ensures Valid() && fresh(regionTable) && numberOfEntries == uncommitted == metaRegions == 0
      ensures currentTableSize == INITIAL_TABLE_SIZE && mappings == []
    {
      tableCommitIndex, currentTableSize, numberOfEntries, uncommitted := 0, INITIAL_TABLE_SIZE, 0, 0;
      metaRegions, sequenceNumber, files, mappings := 0, 0, map[], [];
      regionTable := new Record[INITIAL_TABLE_SIZE](_ => Record(0, 0, 0, 0));
    }

    /** create_pmem_file: a new file under the next number. */
    method CreatePmemFile(size: nat) returns (file: nat)
      modifies this`files, this`sequenceNumber
      ensures file == old(sequenceNumber) && sequenceNumber == file + 1
      ensures files == old(files)[file := size]
    {
      file := sequenceNumber;
      files := files[file := size];
      sequenceNumber := sequenceNumber + 1;
    }

    /** region_table_add_region_record; `ok` is the assertion that the table has room. */
    method AddRegionRecord(addr: nat, size: nat) returns (ok: bool)
      requires regionTable.Length == currentTableSize && uncommitted <= currentTableSize
      modifies this`uncommitted, regionTable
      ensures ok <==> old(uncommitted) < currentTableSize
      ensures ok ==> uncommitted == old(uncommitted) + 1
      ensures ok ==>
                var u := old(uncommitted);
                regionTable[..] == old(regionTable[..])[u := Record(addr, u, size, tableCommitIndex + 1)]
      ensures !ok ==> uncommitted == old(uncommitted) && regionTable[..] == old(regionTable[..])
    {
      ok := uncommitted < currentTableSize;
      if ok {
        regionTable[uncommitted] := NewRecord(addr, uncommitted, size, tableCommitIndex);
        uncommitted := uncommitted + 1;
      }
    }

    /** region_table_commit */
    method Commit()
      requires Valid()
      modifies this`numberOfEntries
      ensures Valid() && numberOfEntries == uncommitted
    {
      numberOfEntries := uncommitted;
    }

    /** region_table_create_memory_region: the record first, then the file and its mapping. */
    method CreateMemoryRegion(addr: nat, size: nat) returns (ok: bool)
      requires Valid()
      modifies this`uncommitted, this`files, this`sequenceNumber, this`mappings, regionTable
      ensures Valid() && (ok <==> old(uncommitted) < currentTableSize)
      ensures ok ==> mappings == old(mappings) + [Mapping(addr, size, old(uncommitted))]
      ensures !ok ==> mappings == old(mappings)
      ensures uncommitted == |mappings|
    {
      ghost var t, f, ms, u := regionTable[..], files, mappings, uncommitted;
      ok := AddRegionRecord(addr, size);
      if ok {
        var file := CreatePmemFile(size);
        mappings := mappings + [Mapping(addr, size, file)];
        BackedNext(t, regionTable[..], f, files, ms, mappings, u, addr, size, tableCommitIndex);
      }
    }

    /** The initial synchronisation: for each region a file, a mapping and a record; one commit. */
    method InitialSync(rs: seq<Region>) returns (ok: bool)
      requires Valid()
      modifies this`uncommitted, this`numberOfEntries, this`files, this`sequenceNumber, this`mappings, regionTable
      ensures ok <==> old(uncommitted) + |rs| <= currentTableSize
      ensures ok ==> && Valid() && numberOfEntries == uncommitted
                     && mappings == old(mappings) + Synced(rs, old(uncommitted))
    {
      ok := true;
      var i := 0;
      while i < |rs|
        invariant 0 <= i <= |rs| && ok
        invariant Valid() && uncommitted == old(uncommitted) + i
        invariant mappings == old(mappings) + Synced(rs[..i], old(uncommitted))
      {
        ghost var t, f, ms, u := regionTable[..], files, mappings, uncommitted;
        var file := CreatePmemFile(rs[i].size);
        mappings := mappings + [Mapping(rs[i].base, rs[i].size, file)];
        ok := AddRegionRecord(rs[i].base, rs[i].size);
        if !ok {
          return;
        }
        BackedNext(t, regionTable[..], f, files, ms, mappings, u, rs[i].base, rs[i].size, tableCommitIndex);
        SyncedNext(rs, i, old(uncommitted));
        i := i + 1;
      }
      assert rs[..i] == rs;
      Commit();
    }

    /** commit_rb_batch, as far as it concerns regions: metadata first, then the table. */
    method CommitRbBatch()
      requires Valid()
      modifies this`metaRegions, this`numberOfEntries
      ensures Valid() && metaRegions == numberOfEntries == uncommitted
    {
      metaRegions := uncommitted;
      numberOfEntries := uncommitted;
    }

    /** One operation; false when the table is too small for it. */
    method Perform(op: Op) returns (ok: bool)
      requires Valid()
      modifies this`uncommitted, this`numberOfEntries, this`metaRegions, this`files, this`sequenceNumber, this`mappings,
               regionTable
      ensures ok <==> old(uncommitted) + |RequestedBy(op)| <= currentTableSize
      ensures ok ==> Valid() && mappings == old(mappings) + Synced(RequestedBy(op), old(|mappings|))
      ensures ok ==> |mappings| == old(|mappings|) + Regions(op) && Stands(op, mappings, old(|mappings|))
      ensures ok ==> metaRegions == if op.CommitBatch? then uncommitted else old(metaRegions)
    {
      match op
      case Sync(rs) => ok := InitialSync(rs);
      case Mmap(r) => ok := CreateMemoryRegion(r.base, r.size);
      case CommitBatch =>
        CommitRbBatch();
        ok := true;
    }

    /**
     Any mix of synchronisations, MMAP entries and batch commits, up to a failed assertion.  The
     metadata covers exactly the regions asked for before the last batch commit.
     */
    method Execute(ops: seq<Op>) returns (ok: bool)
      requires Valid() && uncommitted == 0
      modifies this`uncommitted, this`numberOfEntries, this`metaRegions, this`files, this`sequenceNumber, this`mappings,
               regionTable
      ensures ok <==> |Requested(ops)| <= currentTableSize
      ensures ok ==> Valid() && mappings == Synced(Requested(ops), 0) && metaRegions == CommittedCount(ops)
      ensures ok <==> Place(ops, |ops|) <= currentTableSize
      ensures ok ==> |mappings| == Place(ops, |ops|)
      ensures ok ==> forall i | 0 <= i < |ops| :: Stands(ops[i], mappings, Place(ops, i))
    {
      InPlace(ops);
      ok := true;
      var i := 0;
      while i < |ops|
        invariant 0 <= i <= |ops| && ok
        invariant Valid() && mappings == Synced(Requested(ops[..i]), 0) && metaRegions == CommittedCount(ops[..i])
      {
        RequestedNext(ops, i);
        SyncedConcat(Requested(ops[..i]), RequestedBy(ops[i]));
        ok := Perform(ops[i]);
        if !ok {
          return;
        }
        i := i + 1;
      }
      assert ops[..i] == ops;
    }

    /**
     The count a restarted back end trusts is the one in the commit metadata, which only a batch
     commit sets: every mapping is restored if and only if no region was added since.
     */
    method RecoverMappings() returns (ms: seq<Mapping>, isNew: bool)
      requires Valid()
      ensures isNew <==> metaRegions == 0
      ensures ms == mappings[..metaRegions]
      ensures ms == mappings <==> metaRegions == uncommitted
      ensures forall k | 0 <= k < metaRegions :: ms[k].file in files && files[ms[k].file] == ms[k].size
    {
      isNew := metaRegions == 0;
      ms := RemapBackEnd(metaRegions);
      if metaRegions == uncommitted {
        assert mappings[..metaRegions] == mappings;
      }
    }

    /** remap_backend after a restart that trusts the first `n` records. */
    method RemapBackEnd(n: nat) returns (ms: seq<Mapping>)
      requires Valid() && n <= uncommitted
      ensures ms == mappings[..n]
      ensures forall k | 0 <= k < n :: ms[k].file in files && files[ms[k].file] == ms[k].size
    {
      ms := [];
      var i := 0;
      while i < n
        invariant i <= n && ms == Remapped(regionTable[..], i)
      {
        ms := ms + [Mapping(regionTable[i].address, regionTable[i].mmapSize, i)];
        i := i + 1;
      }
      RemapRebuilds(regionTable[..], regionTable[..], files, mappings, n, uncommitted);
    }
  }

  datatype Op = Sync(rs: seq<Region>) | Mmap(r: Region) | CommitBatch

  function RequestedBy(op: Op): seq<Region> {
    match op
    case Sync(rs) => rs
    case Mmap(r) => [r]
    case CommitBatch => []
  }

  /** How many regions an operation asks for. */
  function Regions(op: Op): nat {
    match op
    case Sync(rs) => |rs|
    case Mmap(_) => 1
    case CommitBatch => 0
  }

  /** How many regions the first `i` operations ask for. */
  function Place(ops: seq<Op>, i: nat): nat
    requires i <= |ops|
  {
    if i == 0 then 0 else Place(ops, i - 1) + Regions(ops[i - 1])
  }

  /** The regions of the operation are mapped, in its order, from place `k` on, each on the file of its place. */
  ghost predicate Stands(op: Op, ms: seq<Mapping>, k: nat) {
    match op
    case Sync(rs) => k + |rs| <= |ms| && forall j | 0 <= j < |rs| :: ms[k + j] == Mapping(rs[j].base, rs[j].size, k + j)
    case Mmap(r) => k < |ms| && ms[k] == Mapping(r.base, r.size, k)
    case CommitBatch => true
  }

  /** In the list of all regions asked for, those of each operation are at its place. */
  lemma InPlace(ops: seq<Op>)
    ensures |Requested(ops)| == Place(ops, |ops|)
    ensures forall i | 0 <= i < |ops| :: Stands(ops[i], Synced(Requested(ops), 0), Place(ops, i))
  {
    assert ops[..|ops|] == ops;
    PlaceIsLength(ops, |ops|);
    forall i | 0 <= i < |ops| ensures Stands(ops[i], Synced(Requested(ops), 0), Place(ops, i)) {
      OneInPlace(ops, i);
    }
  }

  lemma {:induction false} PlaceIsLength(ops: seq<Op>, i: nat)
    requires i <= |ops|
    ensures |Requested(ops[..i])| == Place(ops, i)
  {
    if i > 0 {
      PlaceIsLength(ops, i - 1);
      RequestedNext(ops, i - 1);
    }
  }

  lemma {:induction false} RequestedPrefix(ops: seq<Op>, i: nat)
    requires i <= |ops|
    ensures Requested(ops[..i]) <= Requested(ops)
    decreases |ops|
  {
    if i < |ops| {
      assert ops[..|ops| - 1][..i] == ops[..i];
      RequestedPrefix(ops[..|ops| - 1], i);
    } else {
      assert ops[..i] == ops;
    }
  }

  lemma OneInPlace(ops: seq<Op>, i: nat)
    requires i < |ops|
    ensures Stands(ops[i], Synced(Requested(ops), 0), Place(ops, i))
  {
    PlaceIsLength(ops, i);
    RequestedNext(ops, i);
    RequestedPrefix(ops, i + 1);
    StandsAt(ops[i], Requested(ops[..i]), Requested(ops));
  }

  lemma StandsAt(op: Op, before: seq<Region>, all: seq<Region>)
    requires before + RequestedBy(op) <= all
    ensures Stands(op, Synced(all, 0), |before|)
  {
    var own := RequestedBy(op);
    forall j | 0 <= j < |own| ensures |before| + j < |all| && all[|before| + j] == own[j] {
      assert (before + own)[|before| + j] == own[j];
    }
  }

  /** The metadata counts what was asked for before the last batch commit. */
  lemma {:induction false} LastCommit(ops: seq<Op>, i: nat)
    requires i < |ops| && ops[i].CommitBatch? && forall j | i < j < |ops| :: !ops[j].CommitBatch?
    ensures CommittedCount(ops) == Place(ops, i)
  {
    if i == |ops| - 1 {
      PlaceIsLength(ops, i);
      assert RequestedBy(ops[i]) == [];
    } else {
      LastCommit(ops[..|ops| - 1], i);
      SamePlace(ops, i);
    }
  }

  lemma {:induction false} SamePlace(ops: seq<Op>, i: nat)
    requires i < |ops|
    ensures Place(ops[..|ops| - 1], i) == Place(ops, i)
  {
    if i > 0 {
      SamePlace(ops, i - 1);
    }
  }

  lemma {:induction false} NoCommit(ops: seq<Op>)
    requires forall j | 0 <= j < |ops| :: !ops[j].CommitBatch?
    ensures CommittedCount(ops) == 0
  {
    if ops != [] {
      NoCommit(ops[..|ops| - 1]);
    }
  }

  /** All regions asked for, in order. */
  function Requested(ops: seq<Op>): seq<Region> {
    if ops == [] then [] else Requested(ops[..|ops| - 1]) + RequestedBy(ops[|ops| - 1])
  }

  /** How many regions were asked for before the last batch commit. */
  function CommittedCount(ops: seq<Op>): nat {
    if ops == [] then 0
    else if ops[|ops| - 1].CommitBatch? then |Requested(ops)|
    else CommittedCount(ops[..|ops| - 1])
  }

  /** Prefixes ask for no more than the whole. */
  lemma {:induction false} RequestedGrows(ops: seq<Op>, i: nat)
    requires i <= |ops|
    ensures |Requested(ops[..i])| <= |Requested(ops)|
    decreases |ops|
  {
    if i < |ops| {
      var front := ops[..|ops| - 1];
      assert front[..i] == ops[..i];
      RequestedGrows(front, i);
    } else {
      assert ops[..i] == ops;
    }
  }

  lemma RequestedNext(ops: seq<Op>, i: nat)
    requires i < |ops|
    ensures Requested(ops[..i + 1]) == Requested(ops[..i]) + RequestedBy(ops[i])
    ensures |Requested(ops[..i])| + |RequestedBy(ops[i])| <= |Requested(ops)|
    ensures CommittedCount(ops[..i + 1])
         == if ops[i].CommitBatch? then |Requested(ops[..i])| else CommittedCount(ops[..i])
  {
    assert ops[..i + 1][..i] == ops[..i];
    RequestedGrows(ops, i + 1);
  }

  lemma SyncedConcat(a: seq<Region>, b: seq<Region>)
    ensures Synced(a + b, 0) == Synced(a, 0) + Synced(b, |a|)
  {}

  lemma BackedNext(t: seq<Record>, t': seq<Record>, f: map<nat, nat>, f': map<nat, nat>,
                   ms: seq<Mapping>, ms': seq<Mapping>, u: nat, addr: nat, size: nat, commitIndex: nat)
    requires u < |t| && |ms| == u && forall k | 0 <= k < u :: Backed(t, f, ms, k)
    requires t' == t[u := NewRecord(addr, u, size, commitIndex)] && f' == f[u := size]
    requires ms' == ms + [Mapping(addr, size, u)]
    ensures forall k | 0 <= k <= u :: Backed(t', f', ms', k)
  {
    forall k | 0 <= k <= u ensures Backed(t', f', ms', k) {
      if k < u {
        assert Backed(t, f, ms, k);
      }
    }
  }

  lemma SyncedNext(rs: seq<Region>, i: nat, first: nat)
    requires i < |rs|
    ensures Synced(rs[..i + 1], first) == Synced(rs[..i], first) + [Mapping(rs[i].base, rs[i].size, first + i)]
  {}
}
