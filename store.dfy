/** The property table: the records the ORM reads and writes, in query order. */
module Store {

  /** One property listing. `price` is in hundredths of the currency unit, the
      exact value of a decimal field with two decimal places. */
  datatype Property = Property(
    id: nat,
    title: string,
    description: string,
    price: int,
    location: string,
    createdAt: int)

  /** The exact sum of the prices of `records`. */
  function SumPrices(records: seq<Property>): (total: int)
  {
    if records == [] then 0 else records[0].price + SumPrices(records[1..])
  }

  /** Adding one record at the end adds its price to the sum. */
  lemma {:induction false} SumPricesSnoc(records: seq<Property>, p: Property)
    ensures SumPrices(records + [p]) == SumPrices(records) + p.price
  {
    if records != [] {
      assert (records + [p])[1..] == records[1..] + [p];
      SumPricesSnoc(records[1..], p);
    }
  }

  predicate HasId(records: seq<Property>, id: nat)
  {
    exists i :: 0 <= i < |records| && records[i].id == id
  }

  /** The table after saving `p`: the row with `p`'s id is replaced in place,
      or `p` is inserted at the end when no row has that id. */
  function Upsert(records: seq<Property>, p: Property): (r: seq<Property>)
    ensures HasId(r, p.id)
    ensures HasId(records, p.id) ==> |r| == |records|
    ensures !HasId(records, p.id) ==> r == records + [p]
    ensures forall i :: 0 <= i < |r| && r[i].id == p.id ==> r[i] == p
    ensures forall i :: 0 <= i < |r| && r[i].id != p.id ==> i < |records| && r[i] == records[i]
    ensures HasId(records, p.id) ==>
              forall i :: 0 <= i < |records| && records[i].id != p.id ==> r[i] == records[i]
  {
    if HasId(records, p.id) then
      var r := seq(|records|, i requires 0 <= i < |records| =>
        if records[i].id == p.id then p else records[i]);
      ReplacedKeepsId(records, r, p);
      r
    else
      var r := records + [p];
      assert r[|records|].id == p.id;
      r
  }

  /** The table after deleting the row whose id is `id`; the others keep their order. */
  function RemoveId(records: seq<Property>, id: nat): (r: seq<Property>)
    ensures !HasId(r, id)
    ensures forall q :: q in r <==> q in records && q.id != id
    ensures |r| <= |records|
  {
    if records == [] then []
    else
      var rest := RemoveId(records[1..], id);
      if records[0].id == id then rest else [records[0]] + rest
  }

  /** Deleting distributes over concatenation: the surviving rows of each part
      stay in their order, the first part's before the second's. */
  lemma {:induction false} RemoveIdAppend(a: seq<Property>, b: seq<Property>, id: nat)
    ensures RemoveId(a + b, id) == RemoveId(a, id) + RemoveId(b, id)
  {
    if a != [] {
      var ab := a + b;
      assert ab[0] == a[0] && ab[1..] == a[1..] + b;
      RemoveIdAppend(a[1..], b, id);
      if a[0].id == id {
        assert RemoveId(ab, id) == RemoveId(a[1..] + b, id);
        assert RemoveId(a, id) == RemoveId(a[1..], id);
      } else {
        assert RemoveId(ab, id) == [a[0]] + RemoveId(a[1..] + b, id);
        assert RemoveId(a, id) == [a[0]] + RemoveId(a[1..], id);
      }
    } else {
      assert a + b == b;
    }
  }

  /** Deleting keeps every other row as often as it occurred, and no row
      with the id. */
  lemma {:induction false} RemoveIdCounts(records: seq<Property>, id: nat, q: Property)
    ensures multiset(RemoveId(records, id))[q] == if q.id == id then 0 else multiset(records)[q]
  {
    if records != [] {
      assert records == [records[0]] + records[1..];
      RemoveIdCounts(records[1..], id, q);
    }
  }

  /** A single row survives deletion exactly when its id differs. */
  lemma RemoveIdSingle(q: Property, id: nat)
    ensures RemoveId([q], id) == if q.id == id then [] else [q]
  {
  }

  lemma ReplacedKeepsId(records: seq<Property>, r: seq<Property>, p: Property)
    requires HasId(records, p.id) && |r| == |records|
    requires forall i :: 0 <= i < |r| ==> r[i] == if records[i].id == p.id then p else records[i]
    ensures HasId(r, p.id)
  {
  }

  /** The backing table, reached through the ORM. */
  class PropertyStore {
    var records: seq<Property>

    constructor ()
      ensures records == []
    {
      records := [];
    }

    /** `Property.objects.all()`, evaluated. */
    method All() returns (r: seq<Property>)
      ensures r == records
    {
      r := records;
    }

    /** `Property.objects.count()`. */
    method Count() returns (n: nat)
      ensures n == |records|
    {
      n := |records|;
    }

    /** `instance.save()`: update the row with `p`'s id, or create it. */
    method Save(p: Property) returns (created: bool)
      modifies this
      ensures created == !HasId(old(records), p.id)
      ensures records == Upsert(old(records), p)
    {
      created := !HasId(records, p.id);
      records := Upsert(records, p);
    }

    /** `instance.delete()`. */
    method Delete(instance: Property)
      modifies this
      ensures records == RemoveId(old(records), instance.id)
    {
      records := RemoveId(records, instance.id);
    }
  }
}
