/**
 * The groundwater collection as a map from (stationId, date) to the stored
 * document, and an unordered `bulkWrite` of `updateOne` upserts into it.
 *
 * Two writers are given. `ApplyUnindexed` is the collection as the model
 * file actually configures it: the compound unique index is declared on a
 * schema object that no model uses, so nothing stops two documents sharing
 * (state, district, village, pinCode, date). `ApplyIndexed` is the
 * collection with that index in force: an upsert whose document would
 * collide with another document's place key fails, the others still run,
 * and the bulk call as a whole then reports an error. `Apply` picks one of
 * the two by a flag, which the collection and the ingestion loop carry.
 */
module Store {

  import opened Wrappers
  import opened Records

  /** `{ updateOne: { filter, update: { $set: doc }, upsert: true } }`. */
  datatype UpsertOp = UpsertOp(filter: StationKey, doc: Record)

  /** The document being set carries the very (stationId, date) it is filtered on. */
  predicate Consistent(op: UpsertOp) {
    StationKeyOf(op.doc) == op.filter
  }

  datatype BulkResult = BulkResult(docs: Docs, modified: nat, upserted: nat, rejected: nat)

  /** What the store call returns to the caller: its counts, or a thrown error. */
  datatype WriteOutcome = Written(modified: nat, upserted: nat) | WriteFailed

  /**
   * One upsert: replace a matched document or insert a new one. The schema's
   * timestamps make every update also set `updatedAt`, so a matched document
   * always counts as modified, even when the fields set are unchanged.
   */
  function Upsert(docs: Docs, op: UpsertOp): (r: BulkResult)
    ensures r.docs == docs[op.filter := op.doc] && r.rejected == 0
    ensures r.upserted == (if op.filter in docs then 0 else 1)
    ensures r.modified == (if op.filter in docs then 1 else 0)
  {
    if op.filter in docs then BulkResult(docs[op.filter := op.doc], 1, 0, 0)
    else BulkResult(docs[op.filter := op.doc], 0, 1, 0)
  }

  function Add(r: BulkResult, m: nat, u: nat, x: nat): BulkResult {
    r.(modified := r.modified + m, upserted := r.upserted + u, rejected := r.rejected + x)
  }

  /** The upserts applied in order, with no unique index. */
  function ApplyUnindexed(docs: Docs, ops: seq<UpsertOp>): BulkResult
    decreases |ops|
  {
    if ops == [] then BulkResult(docs, 0, 0, 0)
    else
      var s := Upsert(docs, ops[0]);
      Add(ApplyUnindexed(s.docs, ops[1..]), s.modified, s.upserted, 0)
  }

  /** Another document already holds the place key the upsert would give its target. */
  predicate Violates(docs: Docs, op: UpsertOp) {
    exists k :: k in docs && k != op.filter && PlaceKeyOf(docs[k]) == PlaceKeyOf(op.doc)
  }

  /** The upserts applied in order under the unique index: a colliding one is rejected, the rest proceed. */
  function ApplyIndexed(docs: Docs, ops: seq<UpsertOp>): BulkResult
    decreases |ops|
  {
    if ops == [] then BulkResult(docs, 0, 0, 0)
    else if Violates(docs, ops[0]) then Add(ApplyIndexed(docs, ops[1..]), 0, 0, 1)
    else
      var s := Upsert(docs, ops[0]);
      Add(ApplyIndexed(s.docs, ops[1..]), s.modified, s.upserted, 0)
  }

  /** The batch on a collection with or without the unique index. */
  function Apply(indexed: bool, docs: Docs, ops: seq<UpsertOp>): BulkResult {
    if indexed then ApplyIndexed(docs, ops) else ApplyUnindexed(docs, ops)
  }

  /** The store call's answer: any rejected operation makes the whole call throw. */
  function OutcomeOf(r: BulkResult): (w: WriteOutcome)
    ensures w.WriteFailed? <==> r.rejected > 0
  {
    if r.rejected > 0 then WriteFailed else Written(r.modified, r.upserted)
  }

  /** The last document each key is set to by the batch. */
  function Overlay(ops: seq<UpsertOp>): map<StationKey, Record>
    decreases |ops|
  {
    if ops == [] then map[] else map[ops[0].filter := ops[0].doc] + Overlay(ops[1..])
  }

  // ---------------------------------------------------------------------
  // Properties of the batch write

  lemma {:induction false} OverlayOnto(docs: Docs, op: UpsertOp, rest: seq<UpsertOp>)
    ensures docs[op.filter := op.doc] + Overlay(rest) == docs + (map[op.filter := op.doc] + Overlay(rest))
  {
  }

  /** Without the index the batch leaves each touched key holding the last document set for it. */
  lemma {:induction false} UnindexedIsOverlay(docs: Docs, ops: seq<UpsertOp>)
    ensures ApplyUnindexed(docs, ops).docs == docs + Overlay(ops)
    decreases |ops|
  {
    if ops != [] {
      UnindexedIsOverlay(docs[ops[0].filter := ops[0].doc], ops[1..]);
      OverlayOnto(docs, ops[0], ops[1..]);
    }
  }

  /** Writing the same batch again leaves the collection as the first write left it. */
  lemma {:induction false} UnindexedIdempotent(docs: Docs, ops: seq<UpsertOp>)
    ensures ApplyUnindexed(ApplyUnindexed(docs, ops).docs, ops).docs == ApplyUnindexed(docs, ops).docs
  {
    UnindexedIsOverlay(docs, ops);
    UnindexedIsOverlay(docs + Overlay(ops), ops);
    assert (docs + Overlay(ops)) + Overlay(ops) == docs + Overlay(ops);
  }

  /**
   * Every operation is counted exactly once, as modified, inserted or
   * rejected, and the inserted count is the number of documents the
   * collection gained.
   */
  lemma {:induction false} IndexedCounts(docs: Docs, ops: seq<UpsertOp>)
    ensures var r := ApplyIndexed(docs, ops);
            r.modified + r.upserted + r.rejected == |ops|
            && r.docs.Keys >= docs.Keys
            && r.upserted == |r.docs| - |docs|
    decreases |ops|
  {
    if ops != [] {
      if Violates(docs, ops[0]) {
        IndexedCounts(docs, ops[1..]);
      } else {
        var s := Upsert(docs, ops[0]);
        IndexedCounts(s.docs, ops[1..]);
        if ops[0].filter !in docs {
          assert |s.docs| == |docs| + 1;
        } else {
          assert s.docs.Keys == docs.Keys;
        }
      }
    }
  }

  /**
   * Without the index nothing is rejected; every operation is counted exactly
   * once, as modified or inserted, and the inserted count is the number of
   * documents gained.
   */
  lemma {:induction false} UnindexedCounts(docs: Docs, ops: seq<UpsertOp>)
    ensures var r := ApplyUnindexed(docs, ops);
            r.rejected == 0
            && r.modified + r.upserted == |ops|
            && r.docs.Keys >= docs.Keys
            && r.upserted == |r.docs| - |docs|
    decreases |ops|
  {
    if ops != [] {
      var s := Upsert(docs, ops[0]);
      UnindexedCounts(s.docs, ops[1..]);
      if ops[0].filter !in docs {
        assert |s.docs| == |docs| + 1;
      } else {
        assert s.docs.Keys == docs.Keys;
      }
    }
  }

  /** When no operation collides, the indexed and the unindexed collection agree. */
  lemma {:induction false} IndexedWithoutRejectionIsUnindexed(docs: Docs, ops: seq<UpsertOp>)
    requires ApplyIndexed(docs, ops).rejected == 0
    ensures ApplyIndexed(docs, ops) == ApplyUnindexed(docs, ops)
    decreases |ops|
  {
    if ops != [] {
      if !Violates(docs, ops[0]) {
        IndexedWithoutRejectionIsUnindexed(Upsert(docs, ops[0]).docs, ops[1..]);
      }
    }
  }

  lemma {:induction false} UpsertKeepsKeyed(docs: Docs, op: UpsertOp)
    requires KeyedByStation(docs) && Consistent(op)
    ensures KeyedByStation(docs[op.filter := op.doc])
  {
  }

  /** The collection stays filed by (stationId, date): at most one record per station and date. */
  lemma {:induction false} IndexedKeepsKeyed(docs: Docs, ops: seq<UpsertOp>)
    requires KeyedByStation(docs)
    requires forall i :: 0 <= i < |ops| ==> Consistent(ops[i])
    ensures KeyedByStation(ApplyIndexed(docs, ops).docs)
    decreases |ops|
  {
    if ops != [] {
      assert Consistent(ops[0]);
      if Violates(docs, ops[0]) {
        IndexedKeepsKeyed(docs, ops[1..]);
      } else {
        UpsertKeepsKeyed(docs, ops[0]);
        IndexedKeepsKeyed(docs[ops[0].filter := ops[0].doc], ops[1..]);
      }
    }
  }

  /** Without the index too, the collection stays filed by (stationId, date). */
  lemma {:induction false} UnindexedKeepsKeyed(docs: Docs, ops: seq<UpsertOp>)
    requires KeyedByStation(docs)
    requires forall i :: 0 <= i < |ops| ==> Consistent(ops[i])
    ensures KeyedByStation(ApplyUnindexed(docs, ops).docs)
    decreases |ops|
  {
    if ops != [] {
      assert Consistent(ops[0]);
      UpsertKeepsKeyed(docs, ops[0]);
      UnindexedKeepsKeyed(docs[ops[0].filter := ops[0].doc], ops[1..]);
    }
  }

  lemma {:induction false} UpsertKeepsUnique(docs: Docs, op: UpsertOp)
    requires UniquePlaceKeys(docs) && !Violates(docs, op)
    ensures UniquePlaceKeys(docs[op.filter := op.doc])
  {
    var d := docs[op.filter := op.doc];
    forall k1, k2 | k1 in d && k2 in d && k1 != k2
      ensures PlaceKeyOf(d[k1]) != PlaceKeyOf(d[k2])
    {
      if k1 == op.filter {
        assert k2 in docs && k2 != op.filter;
      } else if k2 == op.filter {
        assert k1 in docs && k1 != op.filter;
      }
    }
  }

  /**
   * Whichever writer is used, the collection stays filed by (stationId, date);
   * under the unique index it also keeps its place keys distinct.
   */
  lemma ApplyKeepsShape(indexed: bool, docs: Docs, ops: seq<UpsertOp>)
    requires KeyedByStation(docs) && (indexed ==> UniquePlaceKeys(docs))
    requires forall i :: 0 <= i < |ops| ==> Consistent(ops[i])
    ensures KeyedByStation(Apply(indexed, docs, ops).docs)
    ensures indexed ==> UniquePlaceKeys(Apply(indexed, docs, ops).docs)
  {
    if indexed {
      IndexedKeepsKeyed(docs, ops);
      IndexedKeepsUnique(docs, ops);
    } else {
      UnindexedKeepsKeyed(docs, ops);
    }
  }

  /** With the index in force no two stored records ever share a place key. */
  lemma {:induction false} IndexedKeepsUnique(docs: Docs, ops: seq<UpsertOp>)
    requires UniquePlaceKeys(docs)
    ensures UniquePlaceKeys(ApplyIndexed(docs, ops).docs)
    decreases |ops|
  {
    if ops != [] {
      if Violates(docs, ops[0]) {
        IndexedKeepsUnique(docs, ops[1..]);
      } else {
        UpsertKeepsUnique(docs, ops[0]);
        IndexedKeepsUnique(docs[ops[0].filter := ops[0].doc], ops[1..]);
      }
    }
  }

  /**
   * As configured, the collection accepts two stations' readings from the same
   * place and date, so two stored records share a place key; under the index
   * the second upsert is rejected instead.
   */
  lemma UnindexedAllowsDuplicatePlaces()
    ensures var doc1 := Record(Location(Some("Kerala"), None, None, None, None, Some("S1"), None),
                               Some(0), Some(1.0), None, None, Some("WRIS"), None);
            var doc2 := doc1.(location := doc1.location.(stationId := Some("S2")));
            var ops := [UpsertOp(StationKeyOf(doc1), doc1), UpsertOp(StationKeyOf(doc2), doc2)];
            && !UniquePlaceKeys(ApplyUnindexed(map[], ops).docs)
            && ApplyIndexed(map[], ops).rejected == 1
  {
    var doc1 := Record(Location(Some("Kerala"), None, None, None, None, Some("S1"), None),
                       Some(0), Some(1.0), None, None, Some("WRIS"), None);
    var doc2 := doc1.(location := doc1.location.(stationId := Some("S2")));
    var k1, k2 := StationKeyOf(doc1), StationKeyOf(doc2);
    var op1, op2 := UpsertOp(k1, doc1), UpsertOp(k2, doc2);
    var ops := [op1, op2];
    assert k1 != k2;
    assert ops[1..] == [op2] && [op2][1..] == [];
    var d1 := map[k1 := doc1];
    var d2 := d1[k2 := doc2];
    assert Upsert(map[], op1).docs == d1;
    assert Upsert(d1, op2).docs == d2;
    assert ApplyUnindexed(d1, [op2]).docs == d2;
    assert ApplyUnindexed(map[], ops).docs == d2;
    assert k1 in d2 && k2 in d2 && PlaceKeyOf(d2[k1]) == PlaceKeyOf(d2[k2]);
    assert !Violates(map[], op1);
    assert Violates(d1, op2) by { assert k1 in d1 && k1 != op2.filter; }
    assert ApplyIndexed(d1, [op2]).rejected == 1;
  }

  /**
   * The groundwater collection; `bulkWrite` is its one write operation.
   * `indexed` says whether the compound unique index is in force; the
   * collection the source writes to has `indexed` false.
   */
  class Collection {
    var docs: Docs
    const indexed: bool

    constructor (init: Docs, withIndex: bool)
      ensures docs == init && indexed == withIndex
    {
      docs := init;
      indexed := withIndex;
    }

    /**
     * An unordered bulk write. An unreachable store throws and writes
     * nothing; otherwise every upsert the collection accepts is applied, and
     * the call throws if any was rejected, which only the unique index does.
     */
    method BulkWrite(ops: seq<UpsertOp>, reachable: bool) returns (outcome: WriteOutcome)
      modifies this
      ensures !reachable ==> docs == old(docs) && outcome == WriteFailed
      ensures reachable ==> docs == Apply(indexed, old(docs), ops).docs
      ensures reachable ==> outcome == OutcomeOf(Apply(indexed, old(docs), ops))
    {
      if !reachable {
        return WriteFailed;
      }
      var r := if indexed then ApplyIndexed(docs, ops) else ApplyUnindexed(docs, ops);
      docs := r.docs;
      outcome := OutcomeOf(r);
    }
  }
}
