/** The migration that leaves one processed row per raw article and repoints what referred to the others. */
module ProcessedConsolidation {
  import opened Sequences

  /** The columns the ranking reads: how many of twelve optional columns are filled, and the rest. */
  datatype ProcessedRow = ProcessedRow(raw: int, completed: bool, filled: nat, processedAt: int, rest: int)

  type Processed = map<int, ProcessedRow>

  datatype Dependent = Dependent(article: int, rest: int)

  type Dependents = map<int, Dependent>

  datatype Db = Db(processed: Processed, matches: Dependents, priorityEvents: Dependents, feed: Dependents, riskEvents: Dependents)

  /** Which row comes first in its partition: completed, then richer, then later, then the higher id. */
  predicate Ahead(a: int, ra: ProcessedRow, b: int, rb: ProcessedRow) {
    if ra.completed != rb.completed then ra.completed
    else if ra.filled != rb.filled then ra.filled > rb.filled
    else if ra.processedAt != rb.processedAt then ra.processedAt > rb.processedAt
    else a > b
  }

  /** The first row of the partition a row is in. */
  ghost predicate IsSurvivor(processed: Processed, id: int, survivor: int) {
    && id in processed && survivor in processed && processed[survivor].raw == processed[id].raw
    && forall other :: other in processed && processed[other].raw == processed[id].raw ==>
         !Ahead(other, processed[other], survivor, processed[survivor])
  }

  predicate Duplicated(processed: Processed, id: int) {
    id in processed && exists other :: other in processed && other != id && processed[other].raw == processed[id].raw
  }

  /** What the temporary table holds: the survivor of every row that shares its raw article. */
  ghost predicate IsSurvivorMap(processed: Processed, survivors: map<int, int>) {
    && (forall id :: id in survivors <==> Duplicated(processed, id))
    && (forall id :: id in survivors ==> IsSurvivor(processed, id, survivors[id]))
  }

  lemma OneSurvivor(processed: Processed, id: int, s: int, t: int)
    requires IsSurvivor(processed, id, s) && IsSurvivor(processed, id, t)
    ensures s == t
  {
    assert !Ahead(s, processed[s], t, processed[t]) && !Ahead(t, processed[t], s, processed[s]);
  }

  function Losers(survivors: map<int, int>): set<int> {
    set id | id in survivors && survivors[id] != id
  }

  function Repointed(dependents: Dependents, survivors: map<int, int>): Dependents {
    map d | d in dependents ::
      if dependents[d].article in Losers(survivors) then dependents[d].(article := survivors[dependents[d].article]) else dependents[d]
  }

  function Consolidated(db: Db, survivors: map<int, int>): Db {
    Db(db.processed - Losers(survivors), Repointed(db.matches, survivors), Repointed(db.priorityEvents, survivors),
       Repointed(db.feed, survivors), Repointed(db.riskEvents, survivors))
  }

  /** Every raw article that had a row keeps exactly one, so the unique constraint can be created; it is
      one of its old rows, unchanged, and a completed one if any was. */
  lemma OneRowPerArticle(db: Db, survivors: map<int, int>)
    requires IsSurvivorMap(db.processed, survivors)
    ensures var after := Consolidated(db, survivors).processed;
            && (forall id :: id in after ==> id in db.processed && after[id] == db.processed[id])
            && (forall a, b :: a in after && b in after && after[a].raw == after[b].raw ==> a == b)
            && (forall id :: id in db.processed ==>
                  exists kept :: kept in after && after[kept].raw == db.processed[id].raw && (db.processed[id].completed ==> after[kept].completed))
  {
    var after := Consolidated(db, survivors).processed;
    forall a, b | a in after && b in after && after[a].raw == after[b].raw ensures a == b {
      if a != b {
        BothKept(db, survivors, a, b);
      }
    }
    forall id | id in db.processed
      ensures exists kept :: kept in after && after[kept].raw == db.processed[id].raw && (db.processed[id].completed ==> after[kept].completed)
    {
      var kept := KeptRow(db, survivors, id);
    }
  }

  /** The row that stays is the best of its article: completed before any other, then with more columns
      filled, then processed later, then with the higher id. */
  lemma BestRowStays(db: Db, survivors: map<int, int>, id: int, other: int)
    requires IsSurvivorMap(db.processed, survivors)
    requires id in Consolidated(db, survivors).processed && other in db.processed && other != id && db.processed[other].raw == db.processed[id].raw
    ensures var best, row := db.processed[id], db.processed[other];
            || (best.completed && !row.completed)
            || (best.completed == row.completed && best.filled > row.filled)
            || (best.completed == row.completed && best.filled == row.filled && best.processedAt > row.processedAt)
            || (best.completed == row.completed && best.filled == row.filled && best.processedAt == row.processedAt && id > other)
  {
    assert Duplicated(db.processed, id);
    assert IsSurvivor(db.processed, id, survivors[id]) && survivors[id] == id;
    assert !Ahead(other, db.processed[other], id, db.processed[id]);
  }

  lemma BothKept(db: Db, survivors: map<int, int>, a: int, b: int)
    requires IsSurvivorMap(db.processed, survivors)
    requires a in db.processed && b in db.processed && a !in Losers(survivors) && b !in Losers(survivors)
    requires db.processed[a].raw == db.processed[b].raw
    ensures a == b
  {
    if a != b {
      assert Duplicated(db.processed, a) && Duplicated(db.processed, b);
      assert IsSurvivor(db.processed, a, survivors[a]) && IsSurvivor(db.processed, b, survivors[b]);
      OneSurvivor(db.processed, a, a, b);
    }
  }

  /** The row that stands for a given row afterwards. */
  lemma KeptRow(db: Db, survivors: map<int, int>, id: int) returns (kept: int)
    requires IsSurvivorMap(db.processed, survivors) && id in db.processed
    ensures var after := Consolidated(db, survivors).processed;
            && kept in after && after[kept].raw == db.processed[id].raw
            && (db.processed[id].completed ==> after[kept].completed)
            && kept == if id in Losers(survivors) then survivors[id] else id
  {
    kept := if id in Losers(survivors) then survivors[id] else id;
    if id in Losers(survivors) {
      assert IsSurvivor(db.processed, id, kept);
      assert Duplicated(db.processed, kept);
      OneSurvivor(db.processed, id, kept, survivors[kept]);
    }
  }

  /** No dependent row is lost, and each that pointed at a processed row now points at a surviving one
      of the same raw article; the others are as they were. */
  ghost predicate Preserved(processed: Processed, after: Processed, before: Dependents, dependents: Dependents) {
    && dependents.Keys == before.Keys
    && forall d :: d in before ==>
         && dependents[d].rest == before[d].rest
         && if before[d].article in processed
            then dependents[d].article in after && after[dependents[d].article].raw == processed[before[d].article].raw
            else dependents[d] == before[d]
  }

  lemma RepointedIsPreserved(db: Db, survivors: map<int, int>, before: Dependents)
    requires IsSurvivorMap(db.processed, survivors)
    ensures Preserved(db.processed, Consolidated(db, survivors).processed, before, Repointed(before, survivors))
  {
    forall d | d in before && before[d].article in db.processed
      ensures var to := Repointed(before, survivors)[d].article;
              to in Consolidated(db, survivors).processed && Consolidated(db, survivors).processed[to].raw == db.processed[before[d].article].raw
    {
      var kept := KeptRow(db, survivors, before[d].article);
    }
  }

  lemma DependentsArePreserved(db: Db, survivors: map<int, int>)
    requires IsSurvivorMap(db.processed, survivors)
    ensures var after := Consolidated(db, survivors);
            && Preserved(db.processed, after.processed, db.matches, after.matches)
            && Preserved(db.processed, after.processed, db.priorityEvents, after.priorityEvents)
            && Preserved(db.processed, after.processed, db.feed, after.feed)
            && Preserved(db.processed, after.processed, db.riskEvents, after.riskEvents)
  {
    RepointedIsPreserved(db, survivors, db.matches);
    RepointedIsPreserved(db, survivors, db.priorityEvents);
    RepointedIsPreserved(db, survivors, db.feed);
    RepointedIsPreserved(db, survivors, db.riskEvents);
  }

  /** Consolidating again changes nothing. */
  lemma SecondTimeChangesNothing(db: Db, survivors: map<int, int>, again: map<int, int>)
    requires IsSurvivorMap(db.processed, survivors) && IsSurvivorMap(Consolidated(db, survivors).processed, again)
    ensures Consolidated(Consolidated(db, survivors), again) == Consolidated(db, survivors)
  {
    OneRowPerArticle(db, survivors);
    var after := Consolidated(db, survivors);
    hide Consolidated, IsSurvivor;
    forall id ensures id !in again {
      assert !Duplicated(after.processed, id);
    }
    NobodyLoses(after, again);
  }

  lemma NobodyLoses(db: Db, survivors: map<int, int>)
    requires survivors.Keys == {}
    ensures Consolidated(db, survivors) == db
  {
    assert Losers(survivors) == {};
  }

  class Migration {
    var processed: Processed
    var matches: Dependents
    var priorityEvents: Dependents
    var feed: Dependents
    var riskEvents: Dependents

    ghost function Tables(): Db
      reads this
    {
      Db(processed, matches, priorityEvents, feed, riskEvents)
    }

    constructor (db: Db)
      ensures Tables() == db
    {
      processed, matches, priorityEvents, feed, riskEvents := db.processed, db.matches, db.priorityEvents, db.feed, db.riskEvents;
    }

    /** The first row of a partition, and whether the partition has more than one row. */
    method FirstOfPartition(id: int) returns (first: int, shared: bool)
      requires id in processed
      ensures IsSurvivor(processed, id, first) && shared == Duplicated(processed, id)
    {
      first, shared := id, false;
      var left := processed.Keys;
      while left != {}
        invariant left <= processed.Keys && first in processed && processed[first].raw == processed[id].raw
        invariant forall other :: other in processed && other !in left && processed[other].raw == processed[id].raw ==>
                    !Ahead(other, processed[other], first, processed[first])
        invariant shared == exists other :: other in processed && other !in left && other != id && processed[other].raw == processed[id].raw
        decreases |left|
      {
        ghost var some := SomeElement(left);
        var other :| other in left;
        left := left - {other};
        if processed[other].raw == processed[id].raw {
          if Ahead(other, processed[other], first, processed[first]) {
            first := other;
          }
          if other != id {
            shared := true;
          }
        }
      }
    }

    method SurvivorMap() returns (survivors: map<int, int>)
      ensures IsSurvivorMap(processed, survivors)
    {
      survivors := map[];
      var left := processed.Keys;
      while left != {}
        invariant left <= processed.Keys
        invariant forall id :: id in survivors <==> id !in left && Duplicated(processed, id)
        invariant forall id :: id in survivors ==> IsSurvivor(processed, id, survivors[id])
        decreases |left|
      {
        ghost var some := SomeElement(left);
        var id :| id in left;
        var first, shared := FirstOfPartition(id);
        left := left - {id};
        if shared {
          survivors := survivors[id := first];
        }
      }
    }

    /** Build the map, repoint the four dependent tables in turn, then delete the losers. */
    method Consolidate() returns (ghost survivors: map<int, int>)
      modifies this
      ensures IsSurvivorMap(old(processed), survivors)
      ensures Tables() == Consolidated(old(Tables()), survivors)
    {
      var found := SurvivorMap();
      matches := Repointed(matches, found);
      priorityEvents := Repointed(priorityEvents, found);
      feed := Repointed(feed, found);
      riskEvents := Repointed(riskEvents, found);
      processed := processed - Losers(found);
      survivors := found;
    }
  }
}
