/** The records a vault holds in memory: lookup, insertion and merging of backups. */
module VaultRecords {
  import opened Basics

  datatype Record = Record(id: string, title: string, data: seq<int>)

  predicate DistinctIds(rs: seq<Record>) {
    forall i, j :: 0 <= i < j < |rs| ==> rs[i].id != rs[j].id
  }

  predicate HasId(rs: seq<Record>, id: string) { exists i :: 0 <= i < |rs| && rs[i].id == id }

  /** `i` is what `key` names: the first record of that id, or else the only one of that label. */
  ghost predicate Names(rs: seq<Record>, key: string, i: int) {
    && 0 <= i < |rs|
    && (if HasId(rs, key) then rs[i].id == key && forall j :: 0 <= j < i ==> rs[j].id != key
        else rs[i].title == key && forall j :: 0 <= j < |rs| && rs[j].title == key ==> j == i)
  }

  // --- insertion and merging as functions ------------------------------------------------

  function Upserted(rs: seq<Record>, rec: Record): seq<Record> {
    if rs == [] then [rec]
    else if rs[0].id == rec.id then [rec] + rs[1..]
    else [rs[0]] + Upserted(rs[1..], rec)
  }

  function Merged(rs: seq<Record>, recs: seq<Record>): seq<Record>
    decreases |recs|
  {
    if recs == [] then rs else Merged(Upserted(rs, recs[0]), recs[1..])
  }

  /** The first record of this id, or the length where there is none. */
  function First(rs: seq<Record>, id: string): (k: nat)
    ensures k <= |rs| && (k < |rs| ==> rs[k].id == id)
    ensures forall j :: 0 <= j < k ==> rs[j].id != id
  {
    if rs == [] || rs[0].id == id then 0
    else
      var k := First(rs[1..], id);
      assert forall j :: 0 < j <= k ==> rs[j] == rs[1..][j - 1];
      k + 1
  }

  /** Inserting replaces the first record of the id where it stands, or appends; the rest stays. */
  lemma {:induction false} UpsertedAt(rs: seq<Record>, rec: Record)
    ensures var k := First(rs, rec.id);
            Upserted(rs, rec) == if k < |rs| then rs[k := rec] else rs + [rec]
    ensures HasId(rs, rec.id) <==> First(rs, rec.id) < |rs|
  {
    if rs != [] && rs[0].id != rec.id { UpsertedAt(rs[1..], rec); }
  }

  /** Ids stay distinct, the record is there afterwards, and every other id keeps its record. */
  lemma UpsertKeepsOthers(rs: seq<Record>, rec: Record)
    requires DistinctIds(rs)
    ensures DistinctIds(Upserted(rs, rec))
    ensures forall r :: r in Upserted(rs, rec) <==> r == rec || (r in rs && r.id != rec.id)
  {
    UpsertedAt(rs, rec);
    var us := Upserted(rs, rec);
    if HasId(rs, rec.id) {
      var k := First(rs, rec.id);
      assert us[k] == rec;
      forall r | r in rs && r.id != rec.id
        ensures r in us
      {
        var i :| 0 <= i < |rs| && rs[i] == r;
        assert us[i] == r;
      }
    }
  }

  /** How a merge ends: the backup's records, and of the old ones those whose id it does not have. */
  lemma {:induction false} MergeTakesTheBackup(rs: seq<Record>, recs: seq<Record>)
    requires DistinctIds(rs) && DistinctIds(recs)
    ensures DistinctIds(Merged(rs, recs))
    ensures forall r :: r in Merged(rs, recs) <==> r in recs || (r in rs && !HasId(recs, r.id))
    decreases |recs|
  {
    if recs != [] {
      UpsertKeepsOthers(rs, recs[0]);
      MergeTakesTheBackup(Upserted(rs, recs[0]), recs[1..]);
      assert recs == [recs[0]] + recs[1..];
      forall id ensures HasId(recs, id) <==> id == recs[0].id || HasId(recs[1..], id) { HasIdTail(recs, id); }
      assert !HasId(recs[1..], recs[0].id);
    }
  }

  lemma HasIdTail(recs: seq<Record>, id: string)
    requires recs != []
    ensures HasId(recs, id) <==> id == recs[0].id || HasId(recs[1..], id)
  {
    if HasId(recs, id) && id != recs[0].id {
      var i :| 0 <= i < |recs| && recs[i].id == id;
      assert recs[1..][i - 1].id == id;
    }
  }

  /** Restoring a backup into an empty vault gives back exactly what was exported, in order. */
  lemma {:induction false} RestoreIsExport(done: seq<Record>, rest: seq<Record>)
    requires DistinctIds(done + rest)
    ensures Merged(done, rest) == done + rest
    decreases |rest|
  {
    if rest != [] {
      UpsertedAt(done, rest[0]);
      forall i | 0 <= i < |done| ensures done[i].id != rest[0].id {
        assert (done + rest)[i] == done[i] && (done + rest)[|done|] == rest[0];
      }
      assert done + rest == (done + [rest[0]]) + rest[1..];
      RestoreIsExport(done + [rest[0]], rest[1..]);
    } else {
      assert done + rest == done;
    }
  }

  /** Importing a vault's own backup changes nothing. */
  lemma {:induction false} OwnBackupIsNeutral(rs: seq<Record>, recs: seq<Record>)
    requires DistinctIds(rs) && forall r <- recs :: r in rs
    ensures Merged(rs, recs) == rs
    decreases |recs|
  {
    if recs != [] {
      var rec := recs[0];
      assert rec in recs;
      UpsertedAt(rs, rec);
      assert Upserted(rs, rec) == rs;
      OwnBackupIsNeutral(rs, recs[1..]);
    }
  }

  datatype ImportSummary = ImportSummary(added: nat, replaced: nat)

  class Vault {
    var records: seq<Record>

    constructor ()
      ensures records == []
    {
      records := [];
    }

    /** An id wins over a label, and a label counts only if it is unambiguous. */
    method Index(key: string) returns (r: Option<int>)
      ensures r.Some? ==> Names(records, key, r.value)
      ensures r.None? ==> forall i :: !Names(records, key, i)
      ensures r.Some? && records[r.value].id == key ==> forall j :: 0 <= j < r.value ==> records[j].id != key
    {
      var i := 0;
      while i < |records|
        invariant 0 <= i <= |records|
        invariant forall j :: 0 <= j < i ==> records[j].id != key
      {
        if records[i].id == key { return Some(i); }
        i := i + 1;
      }
      i := 0;
      r := None;
      while i < |records|
        invariant 0 <= i <= |records|
        invariant r.None? ==> forall j :: 0 <= j < i ==> records[j].title != key
        invariant r.Some? ==> 0 <= r.value < i && records[r.value].title == key
        invariant r.Some? ==> forall j :: 0 <= j < i && records[j].title == key ==> j == r.value
      {
        if records[i].title == key {
          if r.Some? { return None; }
          r := Some(i);
        }
        i := i + 1;
      }
    }

    /** Replaces the record of the same id where it stands, or appends. */
    method Upsert(rec: Record)
      modifies this
      ensures records == Upserted(old(records), rec)
    {
      UpsertedAt(records, rec);
      var i := 0;
      while i < |records|
        invariant 0 <= i <= |records| && records == old(records)
        invariant forall j :: 0 <= j < i ==> records[j].id != rec.id
      {
        if records[i].id == rec.id {
          records := records[i := rec];
          assert records == Upserted(old(records), rec);
          return;
        }
        i := i + 1;
      }
      records := records + [rec];
    }

    /** Merges a backup record by record, counting by id only, as insertion does. */
    method ImportRecords(recs: seq<Record>) returns (summary: ImportSummary)
      modifies this
      ensures records == Merged(old(records), recs)
      ensures summary.added + summary.replaced == |recs|
      ensures |records| == |old(records)| + summary.added
    {
      summary := ImportSummary(0, 0);
      var n := 0;
      while n < |recs|
        invariant 0 <= n <= |recs| && summary.added + summary.replaced == n
        invariant Merged(records, recs[n..]) == Merged(old(records), recs)
        invariant |records| == |old(records)| + summary.added
      {
        assert recs[n..][1..] == recs[n + 1..];
        UpsertedAt(records, recs[n]);
        if HasId(records, recs[n].id) {
          summary := summary.(replaced := summary.replaced + 1);
        } else {
          summary := summary.(added := summary.added + 1);
        }
        Upsert(recs[n]);
        n := n + 1;
      }
    }

    method Remove(key: string) returns (found: bool)
      modifies this
      ensures found <==> exists i :: Names(old(records), key, i)
      ensures found ==> exists i :: Names(old(records), key, i) && records == old(records)[..i] + old(records)[i + 1..]
      ensures !found ==> records == old(records)
    {
      var r := Index(key);
      if r.None? { return false; }
      assert Names(old(records), key, r.value);
      records := records[..r.value] + records[r.value + 1..];
      return true;
    }
  }
}
