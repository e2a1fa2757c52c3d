/** The MongoDB operations the user repository calls, over an abstract
    store: a collection is a finite map from `_id` to document, and whether
    the server can be reached is a `Link` passed to every call. */
module MongoStore {
  import opened Wrappers
  import opened Errors
  import opened GoInt

  /** Documents keyed by `_id`. */
  type Collection<D> = map<Int64, D>

  /** The state of the connection for one call. */
  datatype Link = Up | Down(reason: string)

  /** `InsertOne`. This definition carries the one assumption about the
      server the repository relies on: the unique index MongoDB keeps on
      `_id` rejects a document whose `_id` is already present. */
  function InsertOne<D(==)>(link: Link, c: Collection<D>, id: Int64, doc: D): (r: Result<Collection<D>, Error>)
    ensures r.Success? <==> link.Up? && id !in c
    ensures r.Success? ==> r.value.Keys == c.Keys + {id} && r.value[id] == doc
    ensures r.Success? ==> forall k | k in c :: r.value[k] == c[k]
    ensures link.Up? && id in c ==> r == Failure(DuplicateKey(id))
  {
    if link.Down? then Failure(ConnectionFailure(link.reason))
    else if id in c then Failure(DuplicateKey(id))
    else Success(c[id := doc])
  }

  /** `FindOne` with an `_id` filter: the one matching document, or
      `mongo.ErrNoDocuments` when there is none. */
  function FindOne<D(==)>(link: Link, c: Collection<D>, id: Int64): (r: Result<D, Error>)
    ensures r.Success? <==> link.Up? && id in c
    ensures r.Success? ==> r.value == c[id]
    ensures link.Up? && id !in c ==> r == Failure(NoDocuments)
    ensures link.Down? ==> r == Failure(ConnectionFailure(link.reason))
  {
    if link.Down? then Failure(ConnectionFailure(link.reason))
    else if id in c then Success(c[id])
    else Failure(NoDocuments)
  }

  /** `DeleteOne` with an `_id` filter. Matching nothing is not an error;
      the reported deleted count is not used by the repository. */
  function DeleteOne<D(==)>(link: Link, c: Collection<D>, id: Int64): (r: Result<Collection<D>, Error>)
    ensures r.Success? <==> link.Up?
    ensures r.Success? ==> r.value.Keys == c.Keys - {id}
    ensures r.Success? ==> forall k | k in r.value :: r.value[k] == c[k]
  {
    if link.Down? then Failure(ConnectionFailure(link.reason)) else Success(c - {id})
  }

  /** The filter argument of `Find`, as far as the repository varies it: an
      empty `bson.D{}` document, or an empty `[]bson.D{}` slice. */
  datatype Filter = EmptyDocument | DocumentSlice

  /** `Find`: opens a cursor over every document matching the filter, here
      the whole collection, to be enumerated in an order the server picks.
      The driver marshals the filter before it contacts the server, and a
      top-level slice does not marshal into a BSON document, so a
      `DocumentSlice` filter fails whether or not the server is reachable. */
  function Find<D(==)>(link: Link, c: Collection<D>, filter: Filter): (r: Result<Collection<D>, Error>)
    ensures r.Success? <==> link.Up? && filter.EmptyDocument?
    ensures r.Success? ==> r.value == c
    ensures filter.DocumentSlice? ==> r == Failure(FilterNotDocument)
    ensures filter.EmptyDocument? && link.Down? ==> r == Failure(ConnectionFailure(link.reason))
  {
    if filter.DocumentSlice? then Failure(FilterNotDocument)
    else if link.Down? then Failure(ConnectionFailure(link.reason))
    else Success(c)
  }
}
