/**
 * The content store behind `ContentClient`'s `fetch` and `delete` endpoints.
 * Its implementation is outside the core; here it is an ordered collection of
 * records with unique ids, and whether a call fails (an I/O error) is an input.
 */
module ContentClient {
  import opened Wrappers
  import opened Domain

  datatype ClientError = StorageFailure | NotFound

  /** The records of `xs` whose id is not `id`, in their order. */
  function RemoveId(xs: seq<SavedContent>, id: Uuid): (r: seq<SavedContent>)
    ensures Ids(r) == Ids(xs) - {id}
    ensures UniqueIds(xs) ==> UniqueIds(r)
  {
    if |xs| == 0 then []
    else
      var rest := RemoveId(xs[1..], id);
      assert xs == [xs[0]] + xs[1..];
      IdsConcat([xs[0]], xs[1..]);
      if xs[0].id == id then rest
      else
        assert UniqueIds(xs) ==> xs[0].id !in Ids(xs[1..]);
        IdsConcat([xs[0]], rest);
        [xs[0]] + rest
  }

  lemma {:induction false} RemoveAbsent(xs: seq<SavedContent>, id: Uuid)
    requires id !in Ids(xs)
    ensures RemoveId(xs, id) == xs
  {
    if |xs| > 0 {
      assert xs[0].id != id;
      assert [xs[0]] + xs[1..] == xs;
      IdsConcat([xs[0]], xs[1..]);
      RemoveAbsent(xs[1..], id);
      assert RemoveId(xs, id) == [xs[0]] + RemoveId(xs[1..], id);
    }
  }

  /** With unique ids, deleting the first record's id leaves exactly the records after it. */
  lemma RemoveFirst(xs: seq<SavedContent>)
    requires |xs| > 0 && UniqueIds(xs)
    ensures RemoveId(xs, xs[0].id) == xs[1..]
  {
    assert xs[0].id !in Ids(xs[1..]);
    RemoveAbsent(xs[1..], xs[0].id);
  }

  class ContentStore {
    /** The stored records, in the order `fetch` returns them. */
    var contents: seq<SavedContent>

    /** Ids are unique in the store. */
    ghost predicate Valid()
      reads this
    {
      UniqueIds(contents)
    }

    constructor (initial: seq<SavedContent>)
      requires UniqueIds(initial)
      ensures Valid() && contents == initial
    {
      contents := initial;
    }

    /** `fetch`: every stored record, or a storage failure. */
    method Fetch(fails: bool) returns (r: Result<seq<SavedContent>, ClientError>)
      ensures fails <==> r.Failure?
      ensures r.Success? ==> r.value == contents
    {
      if fails {
        r := Failure(StorageFailure);
      } else {
        r := Success(contents);
      }
    }

    /** `delete`: removes the record with that id; fails on a storage failure or a missing id, changing nothing. */
    method Delete(id: Uuid, fails: bool) returns (r: Result<(), ClientError>)
      requires Valid()
      modifies this
      ensures Valid()
      ensures r.Success? <==> !fails && id in Ids(old(contents))
      ensures contents == if r.Success? then RemoveId(old(contents), id) else old(contents)
    {
      if fails {
        r := Failure(StorageFailure);
      } else if id !in Ids(contents) {
        r := Failure(NotFound);
      } else {
        contents := RemoveId(contents, id);
        r := Success(());
      }
    }
  }
}
