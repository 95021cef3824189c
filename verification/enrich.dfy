/**
  `to_json_format` and the reply handling of `fetch_imdb_id`: every raw result
  item is looked up for its IMDb ID and turned into a `{title, imdb_id, type}`
  record, and items whose lookup yields nothing truthy are dropped.

  The external-ID request is the `lookup` parameter: given the item's `id` and
  the path segment `"tv"` or `"movie"`, it returns the reply body decoded as
  JSON, or `None` when the body does not decode. The model then reads
  `imdb_id` out of that body the way the source does.
*/
module Enrich {
  import opened Wrappers
  import opened Json
  import Routing

  const IdField := "id"
  const ImdbIdField := "imdb_id"
  const NameField := "name"
  const TitleField := "title"

  /** One output record: `title`, `imdb_id` and `type`. */
  datatype Record = Record(title: Value, imdbId: Value, kind: string)

  /** The external-ID request: item id and path segment to the decoded reply body. */
  type Lookup = (Value, string) -> Option<Value>

  /** The path segment the lookup is made under for records of `contentType`. */
  function LookupKind(contentType: string): (k: string)
    ensures k == "tv" <==> contentType == Routing.Series
    ensures k == "tv" || k == "movie"
  {
    if contentType == Routing.Series then "tv" else "movie"
  }

  /** What `fetch_imdb_id` returns for the decoded reply `body`, or the exception it raises. */
  function ImdbIdOf(body: Option<Value>): (r: Result<Value, Fault>)
    ensures r.Success? <==> body.None? || body.value.Obj?
    ensures body.None? ==> r == Success(Null)
    ensures body.Some? && body.value.Obj? ==> r == Success(Get(body.value.fields, ImdbIdField))
    ensures body.Some? && !body.value.Obj? ==> r == Failure(AttributeError)
  {
    match body
    case None => Success(Null)
    case Some(data) => GetAttr(data, ImdbIdField)
  }

  /** The item can go through one loop iteration without raising. */
  predicate Processable(item: Value, contentType: string, lookup: Lookup) {
    && item.Obj? && IdField in item.fields
    && var body := lookup(item.fields[IdField], LookupKind(contentType));
       body.None? || body.value.Obj?
  }

  /** The IMDb ID found for a processable item (`null` when the reply did not decode or lacked it). */
  function FoundId(item: Value, contentType: string, lookup: Lookup): (r: Value)
    requires Processable(item, contentType, lookup)
    ensures lookup(item.fields[IdField], LookupKind(contentType)).None? ==> r == Null
    ensures lookup(item.fields[IdField], LookupKind(contentType)).Some? ==>
              r == Get(lookup(item.fields[IdField], LookupKind(contentType)).value.fields, ImdbIdField)
    ensures ImdbIdOf(lookup(item.fields[IdField], LookupKind(contentType))) == Success(r)
  {
    match lookup(item.fields[IdField], LookupKind(contentType))
    case None => Null
    case Some(data) => Get(data.fields, ImdbIdField)
  }

  /** A processable item is kept exactly when its IMDb ID is truthy. */
  predicate Kept(item: Value, contentType: string, lookup: Lookup)
    requires Processable(item, contentType, lookup)
  {
    Truthy(FoundId(item, contentType, lookup))
  }

  /** The record a processable item becomes. */
  function Format(item: Value, contentType: string, lookup: Lookup): (r: Record)
    requires Processable(item, contentType, lookup)
    ensures r.kind == contentType
    ensures r.imdbId == FoundId(item, contentType, lookup)
    ensures Truthy(r.imdbId) <==> Kept(item, contentType, lookup)
    ensures Truthy(Get(item.fields, NameField)) ==> r.title == Get(item.fields, NameField)
    ensures !Truthy(Get(item.fields, NameField)) ==> r.title == Get(item.fields, TitleField)
  {
    Record(Or(Get(item.fields, NameField), Get(item.fields, TitleField)),
           FoundId(item, contentType, lookup), contentType)
  }

  /** One iteration of the loop: raise, skip (`None`) or emit one record. */
  function Step(item: Value, contentType: string, lookup: Lookup): (r: Result<Option<Record>, Fault>)
    ensures r.Success? <==> Processable(item, contentType, lookup)
    ensures r.Success? ==>
              r.value == if Kept(item, contentType, lookup) then Some(Format(item, contentType, lookup)) else None
    ensures !item.Obj? ==> r == Failure(TypeError)
    ensures item.Obj? && IdField !in item.fields ==> r == Failure(KeyError(IdField))
    ensures item.Obj? && IdField in item.fields &&
            (var b := lookup(item.fields[IdField], LookupKind(contentType)); b.Some? && !b.value.Obj?) ==>
              r == Failure(AttributeError)
  {
    match Subscript(item, IdField)
    case Failure(e) => Failure(e)
    case Success(id) =>
      match ImdbIdOf(lookup(id, LookupKind(contentType)))
      case Failure(e) => Failure(e)
      case Success(imdbId) =>
        if !Truthy(imdbId) then Success(None)
        else Success(Some(Record(Or(Get(item.fields, NameField), Get(item.fields, TitleField)), imdbId, contentType)))
  }

  /** `to_json_format` over a list of items: the records in order, or the first exception. */
  function Enrich(items: seq<Value>, contentType: string, lookup: Lookup): (r: Result<seq<Record>, Fault>)
    ensures r.Success? ==> |r.value| <= |items|
    ensures r.Success? ==>
              forall j :: 0 <= j < |r.value| ==> r.value[j].kind == contentType && Truthy(r.value[j].imdbId)
    decreases |items|
  {
    if items == [] then Success([])
    else
      match Step(items[0], contentType, lookup)
      case Failure(e) => Failure(e)
      case Success(emitted) =>
        match Enrich(items[1..], contentType, lookup)
        case Failure(e) => Failure(e)
        case Success(rest) => Success((if emitted.Some? then [emitted.value] else []) + rest)
  }

  /**
    `to_json_format` on whatever `fetch_tmdb` returned. A list is walked item by
    item. Iterating a non-empty dict or string yields strings, and the first
    `item["id"]` on a string raises; numbers, booleans and null are not iterable.
  */
  function EnrichResults(results: Value, contentType: string, lookup: Lookup): (r: Result<seq<Record>, Fault>)
    ensures results.Arr? ==> r == Enrich(results.items, contentType, lookup)
    ensures !results.Arr? ==> r == Success([]) || r == Failure(TypeError)
    ensures (results.Null? || results.Bool? || results.Int? || results.Float?) ==> r == Failure(TypeError)
    ensures (results.Obj? || results.Str?) ==> (r == Success([]) <==> results == Obj(map[]) || results == Str(""))
  {
    match results
    case Arr(a) => Enrich(a, contentType, lookup)
    case Obj(m) => if |m| == 0 then Success([]) else Failure(TypeError)
    case Str(s) => if |s| == 0 then Success([]) else Failure(TypeError)
    case _ => Failure(TypeError)
  }

  predicate AllProcessable(items: seq<Value>, contentType: string, lookup: Lookup) {
    forall i :: 0 <= i < |items| ==> Processable(items[i], contentType, lookup)
  }

  /** Every index moved one place to the right. */
  function Shift(idx: seq<nat>): (r: seq<nat>)
    ensures |r| == |idx|
    ensures forall j :: 0 <= j < |idx| ==> r[j] == idx[j] + 1
  {
    seq(|idx|, j requires 0 <= j < |idx| => idx[j] + 1)
  }

  lemma ShiftMembership(idx: seq<nat>, i: nat)
    ensures i in Shift(idx) <==> i > 0 && (i - 1) in idx
  {
  }

  /** The positions of the kept items, in increasing order. */
  function KeptIndices(items: seq<Value>, contentType: string, lookup: Lookup): (idx: seq<nat>)
    requires AllProcessable(items, contentType, lookup)
    ensures |idx| <= |items|
    ensures forall j :: 0 <= j < |idx| ==> idx[j] < |items|
    ensures forall j, k :: 0 <= j < k < |idx| ==> idx[j] < idx[k]
    ensures forall i :: 0 <= i < |items| ==> (i in idx <==> Kept(items[i], contentType, lookup))
    decreases |items|
  {
    if items == [] then []
    else
      var rest := items[1..];
      assert AllProcessable(rest, contentType, lookup) by {
        forall i | 0 <= i < |rest|
          ensures Processable(rest[i], contentType, lookup)
        {
          assert rest[i] == items[i + 1];
        }
      }
      var restIdx := KeptIndices(rest, contentType, lookup);
      var tail := Shift(restIdx);
      assert forall i :: 0 <= i < |items| ==> (i in tail <==> i > 0 && Kept(items[i], contentType, lookup)) by {
        forall i | 0 <= i < |items|
          ensures i in tail <==> i > 0 && Kept(items[i], contentType, lookup)
        {
          ShiftMembership(restIdx, i);
          if i > 0 {
            assert items[i] == rest[i - 1];
          }
        }
      }
      if Kept(items[0], contentType, lookup) then [0] + tail else tail
  }

  /** The records of the items at positions `idx`, in that order. */
  function Select(items: seq<Value>, idx: seq<nat>, contentType: string, lookup: Lookup): (r: seq<Record>)
    requires AllProcessable(items, contentType, lookup)
    requires forall j :: 0 <= j < |idx| ==> idx[j] < |items|
    ensures |r| == |idx|
  {
    seq(|idx|, j requires 0 <= j < |idx| => Format(items[idx[j]], contentType, lookup))
  }

  /** The loop raises exactly when some item cannot be processed. */
  lemma {:induction false} EnrichSucceedsIff(items: seq<Value>, contentType: string, lookup: Lookup)
    ensures Enrich(items, contentType, lookup).Success? <==> AllProcessable(items, contentType, lookup)
    decreases |items|
  {
    if items != [] {
      EnrichSucceedsIff(items[1..], contentType, lookup);
      if AllProcessable(items[1..], contentType, lookup) && Processable(items[0], contentType, lookup) {
        forall i | 0 <= i < |items|
          ensures Processable(items[i], contentType, lookup)
        {
          if i > 0 {
            assert items[i] == items[1..][i - 1];
          }
        }
      }
    }
  }

  /** Every item of a list that cannot raise, after its first, cannot raise either. */
  lemma AllProcessableTail(items: seq<Value>, contentType: string, lookup: Lookup)
    requires items != [] && AllProcessable(items, contentType, lookup)
    ensures AllProcessable(items[1..], contentType, lookup)
  {
  }

  /** Selecting shifted positions from a list selects the original positions from its tail. */
  lemma SelectShift(items: seq<Value>, idx: seq<nat>, contentType: string, lookup: Lookup)
    requires items != [] && AllProcessable(items, contentType, lookup)
    requires AllProcessable(items[1..], contentType, lookup)
    requires forall j :: 0 <= j < |idx| ==> idx[j] < |items| - 1
    ensures Select(items, Shift(idx), contentType, lookup) == Select(items[1..], idx, contentType, lookup)
  {
  }

  /** Selecting position 0 first puts the first item's record first. */
  lemma SelectCons(items: seq<Value>, idx: seq<nat>, contentType: string, lookup: Lookup)
    requires items != [] && AllProcessable(items, contentType, lookup)
    requires forall j :: 0 <= j < |idx| ==> idx[j] < |items|
    ensures Select(items, [0] + idx, contentType, lookup) ==
              [Format(items[0], contentType, lookup)] + Select(items, idx, contentType, lookup)
  {
  }

  /**
    When nothing raises, the output is exactly the records of the kept items,
    in input order: an order-preserving image of a subsequence of the input.
  */
  lemma {:induction false} EnrichIsFilterMap(items: seq<Value>, contentType: string, lookup: Lookup)
    requires AllProcessable(items, contentType, lookup)
    ensures Enrich(items, contentType, lookup) ==
              Success(Select(items, KeptIndices(items, contentType, lookup), contentType, lookup))
    decreases |items|
  {
    if items != [] {
      AllProcessableTail(items, contentType, lookup);
      EnrichIsFilterMap(items[1..], contentType, lookup);
      var idx' := KeptIndices(items[1..], contentType, lookup);
      SelectShift(items, idx', contentType, lookup);
      var tailRecords := Select(items[1..], idx', contentType, lookup);
      assert Enrich(items[1..], contentType, lookup) == Success(tailRecords);
      if Kept(items[0], contentType, lookup) {
        var head := Format(items[0], contentType, lookup);
        assert Step(items[0], contentType, lookup) == Success(Some(head));
        assert Enrich(items, contentType, lookup) == Success([head] + tailRecords);
        assert KeptIndices(items, contentType, lookup) == [0] + Shift(idx');
        SelectCons(items, Shift(idx'), contentType, lookup);
      } else {
        assert Step(items[0], contentType, lookup) == Success(None);
        assert Enrich(items, contentType, lookup) == Success([] + tailRecords);
        assert KeptIndices(items, contentType, lookup) == Shift(idx');
        assert [] + tailRecords == tailRecords;
      }
    }
  }

  /**
    The records are determined by the lookup's answers under `LookupKind(contentType)`
    alone: two lookups that agree there give the same output, so no other kind is queried.
  */
  lemma {:induction false} EnrichQueriesOnlyItsKind(items: seq<Value>, contentType: string, l1: Lookup, l2: Lookup)
    requires forall id :: l1(id, LookupKind(contentType)) == l2(id, LookupKind(contentType))
    ensures Enrich(items, contentType, l1) == Enrich(items, contentType, l2)
    decreases |items|
  {
    if items != [] {
      EnrichQueriesOnlyItsKind(items[1..], contentType, l1, l2);
    }
  }

  /** A series item `{id: 7, name: "Y"}` whose lookup finds `tt0000007` becomes one record titled `Y`. */
  lemma SeriesItemWithImdbIdIsKept(lookup: Lookup)
    requires lookup(Int(7), "tv") == Some(Obj(map[ImdbIdField := Str("tt0000007")]))
    ensures Enrich([Obj(map[IdField := Int(7), NameField := Str("Y")])], Routing.Series, lookup) ==
              Success([Record(Str("Y"), Str("tt0000007"), Routing.Series)])
  {
    var item := Obj(map[IdField := Int(7), NameField := Str("Y")]);
    assert LookupKind(Routing.Series) == "tv";
    assert Get(item.fields, NameField) == Str("Y");
    assert Step(item, Routing.Series, lookup) == Success(Some(Record(Str("Y"), Str("tt0000007"), Routing.Series)));
    assert Enrich([item][1..], Routing.Series, lookup) == Success([]);
    assert [Record(Str("Y"), Str("tt0000007"), Routing.Series)] + [] == [Record(Str("Y"), Str("tt0000007"), Routing.Series)];
  }

  /** A movie item `{id: 42, title: "X"}` whose lookup finds no IMDb ID produces no record. */
  lemma MovieItemWithoutImdbIdIsDropped(lookup: Lookup)
    requires var b := lookup(Int(42), "movie");
             b.None? || (b.value.Obj? && !Truthy(Get(b.value.fields, ImdbIdField)))
    ensures Enrich([Obj(map[IdField := Int(42), TitleField := Str("X")])], Routing.Movie, lookup) == Success([])
  {
  }
}
