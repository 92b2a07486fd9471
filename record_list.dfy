/** What every list page does with the records it shows: a list of JSON
    objects keyed by their `id`, extended on create, rewritten on update and
    shortened on delete, and left alone whenever the server refuses. */
module RecordList {
  import opened Js

  /** One record as the server sends it. */
  type Record = Object

  /** What the server answers to a create or an update. */
  datatype Reply = Success(data: Record) | Failure(body: Body)

  /** What the server answers to a list request. */
  datatype ListReply = Loaded(records: seq<Record>) | LoadFailed

  /** `record.id`. */
  function Id(r: Record): Value {
    Get(r, "id")
  }

  /** `r.id === id`. */
  predicate HasId(r: Record, id: Value) {
    StrictEquals(Id(r), id)
  }

  /** `records.map(r => (r.id === id ? replacement : r))`: each record with
      that id becomes the replacement; every other record stays where it was. */
  function ReplaceById(records: seq<Record>, id: Value, replacement: Record): (r: seq<Record>)
    ensures |r| == |records|
    ensures forall i :: 0 <= i < |records| && HasId(records[i], id) ==> r[i] == replacement
    ensures forall i :: 0 <= i < |records| && !HasId(records[i], id) ==> r[i] == records[i]
  {
    seq(|records|, i requires 0 <= i < |records| => if HasId(records[i], id) then replacement else records[i])
  }

  /** `records.filter(r => r.id !== id)`. */
  function RemoveById(records: seq<Record>, id: Value): (r: seq<Record>)
    ensures |r| <= |records|
    ensures forall x :: x in r <==> x in records && !HasId(x, id)
  {
    if records == [] then []
    else (if HasId(records[0], id) then [] else [records[0]]) + RemoveById(records[1..], id)
  }

  /** Removal keeps the order: removing from two lists one after the other is
      removing from each. */
  lemma {:induction false} RemoveByIdAppend(a: seq<Record>, b: seq<Record>, id: Value)
    ensures RemoveById(a + b, id) == RemoveById(a, id) + RemoveById(b, id)
  {
    if a == [] {
      assert a + b == b;
    } else {
      assert (a + b)[1..] == a[1..] + b;
      RemoveByIdAppend(a[1..], b, id);
    }
  }

  /** Removing an id no record has changes nothing. */
  lemma {:induction false} RemoveAbsentId(records: seq<Record>, id: Value)
    requires forall i :: 0 <= i < |records| ==> !HasId(records[i], id)
    ensures RemoveById(records, id) == records
  {
    if records != [] {
      RemoveAbsentId(records[1..], id);
    }
  }

  /** Deleting the same id twice is deleting it once. */
  lemma RemoveByIdIdempotent(records: seq<Record>, id: Value)
    ensures RemoveById(RemoveById(records, id), id) == RemoveById(records, id)
  {
    var once := RemoveById(records, id);
    forall i | 0 <= i < |once|
      ensures !HasId(once[i], id)
    {
      assert once[i] in once;
    }
    RemoveAbsentId(once, id);
  }

  /** A record created and then deleted by its id is gone, and the other
      records are as the delete alone leaves them. */
  lemma CreateThenDelete(records: seq<Record>, created: Record)
    requires !Id(created).Arr?
    ensures RemoveById(records + [created], Id(created)) == RemoveById(records, Id(created))
  {
    RemoveByIdAppend(records, [created], Id(created));
  }

  /** An update answered with a record of the same id, then a delete of that
      id, leaves what the delete alone leaves. */
  lemma {:induction false} UpdateThenDelete(records: seq<Record>, id: Value, replacement: Record)
    requires HasId(replacement, id)
    ensures RemoveById(ReplaceById(records, id, replacement), id) == RemoveById(records, id)
  {
    if records != [] {
      assert ReplaceById(records, id, replacement)[1..] == ReplaceById(records[1..], id, replacement);
      UpdateThenDelete(records[1..], id, replacement);
    }
  }

  /** An update of an id no record has changes nothing. */
  lemma UpdateAbsentId(records: seq<Record>, id: Value, replacement: Record)
    requires forall i :: 0 <= i < |records| ==> !HasId(records[i], id)
    ensures ReplaceById(records, id, replacement) == records
  {
  }
}
