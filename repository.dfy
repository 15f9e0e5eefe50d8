/** The client table behind ClientRepository: records keyed by id, with
    the derived queries findByMigratedFalse / findByMigratedTrue and the
    inherited findById, save and count. */
module Repository {
  import opened Model

  /** Every stored client carries its own key as id. */
  ghost predicate IdsMatchKeys(records: map<int, Client>) {
    forall k :: k in records ==> records[k].id == Some(k)
  }

  /** Ids match keys, and every key is below the next id the store will hand
      out (ids are generated on insert, starting at 1). */
  ghost predicate WellKeyed(records: map<int, Client>, nextId: int) {
    && 1 <= nextId
    && IdsMatchKeys(records)
    && forall k :: k in records ==> 1 <= k < nextId
  }

  /** The clients stored under ids 1 .. n-1 whose flag is `flag`, in id
      order: a scan of the table by primary key. */
  function Scan(records: map<int, Client>, n: int, flag: bool): (r: seq<Client>)
    requires IdsMatchKeys(records)
    ensures forall i :: 0 <= i < |r| ==>
      && r[i].id.Some? && r[i].id.value in records && records[r[i].id.value] == r[i]
      && 1 <= r[i].id.value < n && r[i].migrated == flag
    ensures forall k :: k in records && 1 <= k < n && records[k].migrated == flag ==> records[k] in r
    ensures forall i, j :: 0 <= i < j < |r| ==> r[i].id.value < r[j].id.value
    decreases n
  {
    if n <= 1 then []
    else
      var before := Scan(records, n - 1, flag);
      if n - 1 in records && records[n - 1].migrated == flag then
        before + [records[n - 1]]
      else before
  }

  /** The scan finds nothing below the smallest stored id. */
  lemma NothingBelowFirstKey(records: map<int, Client>, n: int, flag: bool)
    requires IdsMatchKeys(records)
    requires forall k :: k in records ==> n <= k
    ensures Scan(records, n, flag) == []
  {
  }

  lemma ScanStep(records: map<int, Client>, n: int, flag: bool)
    requires IdsMatchKeys(records) && n > 1
    ensures |Scan(records, n, flag)|
      == |Scan(records, n - 1, flag)| + if n - 1 in records && records[n - 1].migrated == flag then 1 else 0
  {
  }

  /** The ids stored in [1, n). */
  ghost function IdsBelow(records: map<int, Client>, n: int): set<int> {
    set k | k in records && 1 <= k < n
  }

  lemma IdsBelowStep(records: map<int, Client>, n: int)
    ensures |IdsBelow(records, n + 1)| == |IdsBelow(records, n)| + if n in records && 1 <= n then 1 else 0
  {
    if n in records && 1 <= n {
      assert IdsBelow(records, n + 1) == IdsBelow(records, n) + {n};
    } else {
      assert IdsBelow(records, n + 1) == IdsBelow(records, n);
    }
  }

  /** The two scans split the ids in range: their lengths add up. */
  lemma {:induction false} ScanSizes(records: map<int, Client>, n: int)
    requires IdsMatchKeys(records)
    ensures |Scan(records, n, false)| + |Scan(records, n, true)| == |IdsBelow(records, n)|
    decreases n
  {
    if n > 1 {
      ScanSizes(records, n - 1);
      ScanStep(records, n, false);
      ScanStep(records, n, true);
      IdsBelowStep(records, n - 1);
    } else {
      assert IdsBelow(records, n) == {};
    }
  }

  /** The stored clients whose flag is `flag`, by ascending id. */
  function WithFlag(records: map<int, Client>, nextId: int, flag: bool): (r: seq<Client>)
    requires WellKeyed(records, nextId)
    ensures forall c :: c in r <==> c in records.Values && c.migrated == flag
    ensures forall i, j :: 0 <= i < j < |r| ==> r[i].id.Some? && r[j].id.Some? && r[i].id.value < r[j].id.value
  {
    Scan(records, nextId, flag)
  }

  /** Every stored client is listed by exactly one of the two queries, and
      the two listings together are as long as the table. */
  lemma QueriesPartition(records: map<int, Client>, nextId: int)
    requires WellKeyed(records, nextId)
    ensures forall c :: c in records.Values <==> c in WithFlag(records, nextId, false) || c in WithFlag(records, nextId, true)
    ensures forall c :: !(c in WithFlag(records, nextId, false) && c in WithFlag(records, nextId, true))
    ensures |WithFlag(records, nextId, false)| + |WithFlag(records, nextId, true)| == |records|
  {
    ScanSizes(records, nextId);
    assert IdsBelow(records, nextId) == records.Keys;
    assert |records.Keys| == |records|;
  }

  /** The table: a map from id to client, and the id the next insert gets. */
  class ClientRepository {
    var records: map<int, Client>
    var nextId: int

    ghost predicate Valid()
      reads this
    {
      WellKeyed(records, nextId)
    }

    /** An empty table; generated ids start at 1. */
    constructor ()
      ensures Valid() && records == map[] && nextId == 1
    {
      records := map[];
      nextId := 1;
    }

    /** findById: the client stored under id, if any. */
    function FindById(id: int): (r: Option<Client>)
      reads this
      requires Valid()
      ensures r.Some? <==> id in records
      ensures r.Some? ==> r.value in records.Values && r.value.id == Some(id)
    {
      if id in records then Some(records[id]) else None
    }

    /** count: the number of stored clients, which the two queries split. */
    function Count(): (n: nat)
      reads this
      requires Valid()
      ensures n == |FindByMigratedFalse()| + |FindByMigratedTrue()|
      ensures n == 0 <==> records == map[]
    {
      QueriesPartition(records, nextId);
      |records|
    }

    /** findByMigratedFalse: exactly the stored clients not yet migrated. */
    function FindByMigratedFalse(): (r: seq<Client>)
      reads this
      requires Valid()
      ensures forall c :: c in r <==> c in records.Values && !c.migrated
      ensures forall i, j :: 0 <= i < j < |r| ==> r[i].id.Some? && r[j].id.Some? && r[i].id.value < r[j].id.value
    {
      WithFlag(records, nextId, false)
    }

    /** findByMigratedTrue: exactly the stored clients already migrated. */
    function FindByMigratedTrue(): (r: seq<Client>)
      reads this
      requires Valid()
      ensures forall c :: c in r <==> c in records.Values && c.migrated
      ensures forall i, j :: 0 <= i < j < |r| ==> r[i].id.Some? && r[j].id.Some? && r[i].id.value < r[j].id.value
    {
      WithFlag(records, nextId, true)
    }

    /** The transaction manager's rollback: writes not yet committed are
        discarded and the table is the snapshot taken when the transaction
        began. Generated ids are not handed back. */
    method Rollback(snapshot: map<int, Client>)
      requires WellKeyed(snapshot, nextId)
      modifies this
      ensures Valid() && records == snapshot && nextId == old(nextId)
    {
      records := snapshot;
    }

    /** save: a client without an id is inserted under a fresh id; a client
        with an id replaces the record with that id and nothing else. When the
        storage medium rejects the write (`fault`), the table is unchanged. */
    method Save(c: Client, fault: Option<string>) returns (r: Result<Client>)
      requires Valid()
      requires c.id.Some? ==> c.id.value in records
      modifies this
      ensures Valid()
      ensures fault.Some? ==> r == Failure(fault.value) && records == old(records) && nextId == old(nextId)
      ensures fault.None? && c.id.Some? ==>
        r == Success(c) && records == old(records)[c.id.value := c] && nextId == old(nextId)
      ensures fault.None? && c.id.None? ==>
        && r == Success(c.(id := Some(old(nextId))))
        && old(nextId) !in old(records)
        && records == old(records)[old(nextId) := r.value]
        && nextId == old(nextId) + 1
    {
      if fault.Some? {
        return Failure(fault.value);
      }
      if c.id.Some? {
        records := records[c.id.value := c];
        r := Success(c);
      } else {
        var stored := c.(id := Some(nextId));
        records := records[nextId := stored];
        nextId := nextId + 1;
        r := Success(stored);
      }
    }
  }
}
