/** `MongoRepositoryUser` (repository/mongo/mongo_repository_user.go): the
    bot's remembered users and subscriptions over the abstract store of
    `MongoStore`. The functions below follow the code as written, which
    keeps subscriptions in the *remember* collection; the `...Separately`
    functions at the end are the corrected variant that uses the subscribe
    collection. */
module UserRepository {
  import opened Wrappers
  import opened Errors
  import opened GoInt
  import opened MongoStore

  /** `telego.User`, reduced to the fields the bot shows or stores. */
  datatype User = User(id: Int64, isBot: bool, firstName: string, lastName: string, username: string)

  /** `MongoID`: a document holding nothing but its `_id`. */
  datatype MongoID = MongoID(id: Int64)

  /** `MongoUser`: a document whose `_id` is the user's id, holding the user. */
  datatype MongoUser = MongoUser(id: Int64, user: User)

  /** What a collection of this repository can hold. */
  datatype Document = UserDocument(mongoUser: MongoUser) | IdDocument(mongoId: MongoID)

  function DocumentId(d: Document): Int64 {
    match d
    case UserDocument(m) => m.id
    case IdDocument(m) => m.id
  }

  /** Every document is filed under its own `_id`. */
  predicate WellKeyed(c: Collection<Document>) {
    forall k | k in c :: DocumentId(c[k]) == k
  }

  /** The repository's database: the "remember" and "subscribe" collections. */
  datatype Database = Database(remember: Collection<Document>, subscribe: Collection<Document>)

  predicate Valid(db: Database) {
    WellKeyed(db.remember) && WellKeyed(db.subscribe)
  }

  const EmptyDatabase: Database := Database(map[], map[])

  /** `MakeMongoID`. */
  function MakeMongoID(id: Int64): (m: MongoID)
    ensures m.id == id
  {
    MongoID(id)
  }

  /** `MakeMongoUser`: the document's `_id` is taken from the user. */
  function MakeMongoUser(u: User): (m: MongoUser)
    ensures m.id == u.id && m.user == u
  {
    MongoUser(u.id, u)
  }

  /** Decoding a stored document into a `MongoUser` and taking its `User`
      pointer: a bare-id document has no user field, which decodes to nil. */
  function DecodeUser(d: Document): (u: Option<User>)
    ensures u.Some? <==> d.UserDocument?
    ensures u.Some? ==> u.value == d.mongoUser.user
  {
    match d
    case UserDocument(m) => Some(m.user)
    case IdDocument(_) => None
  }

  /** `Remember`: insert the user's document into the remember collection;
      the driver's error is returned as is. */
  function Remember(link: Link, db: Database, u: User): (r: Result<Database, Error>)
    ensures r.Success? <==> link.Up? && u.id !in db.remember
    ensures r.Success? ==> r.value.remember == db.remember[u.id := UserDocument(MakeMongoUser(u))]
    ensures r.Success? ==> r.value.subscribe == db.subscribe
    ensures link.Up? && u.id in db.remember ==> r == Failure(DuplicateKey(u.id))
    ensures r.Success? && Valid(db) ==> Valid(r.value)
  {
    match InsertOne(link, db.remember, u.id, UserDocument(MakeMongoUser(u)))
    case Failure(e) => Failure(e)
    case Success(c) => Success(db.(remember := c))
  }

  /** `GetRememberedUser`: the user stored under `id` in the remember
      collection; a lookup that matches nothing fails with `ErrNoDocuments`
      wrapped. A bare-id document yields a nil user and a nil error. */
  function GetRememberedUser(link: Link, db: Database, id: Int64): (r: Result<Option<User>, Error>)
    ensures r.Success? <==> link.Up? && id in db.remember
    ensures r.Success? ==> r.value == DecodeUser(db.remember[id])
    ensures link.Up? && id !in db.remember ==> r == Failure(Wrapped(DecodeSingleResult, NoDocuments))
    ensures r.Failure? ==> r.error.Wrapped? && r.error.context == DecodeSingleResult
  {
    match FindOne(link, db.remember, id)
    case Failure(e) => Failure(Wrapped(DecodeSingleResult, e))
    case Success(d) => Success(DecodeUser(d))
  }

  predicate NoDuplicates(s: seq<Int64>) {
    forall i, j | 0 <= i < j < |s| :: s[i] != s[j]
  }

  /** The body of `ListRememberedUser` with its `Find` filter as a
      parameter: open a cursor over the remember collection and collect one
      entry per document, in the order the cursor yields them. `order`
      records that order as the documents' ids. */
  method ListRememberedUserWith(link: Link, db: Database, filter: Filter)
    returns (r: Result<seq<Option<User>>, Error>, ghost order: seq<Int64>)
    ensures r.Success? <==> link.Up? && filter.EmptyDocument?
    ensures r.Failure? ==> r.error == Wrapped(OpenCursor, Find(link, db.remember, filter).error)
    ensures r.Success? ==> |r.value| == |order| == |db.remember|
    ensures r.Success? ==> NoDuplicates(order) && forall id :: id in db.remember <==> id in order
    ensures r.Success? ==> forall i | 0 <= i < |order| :: r.value[i] == DecodeUser(db.remember[order[i]])
  {
    order := [];
    var cursor := Find(link, db.remember, filter);
    if cursor.Failure? {
      return Failure(Wrapped(OpenCursor, cursor.error)), [];
    }
    var docs := cursor.value;
    var remaining := docs.Keys;
    var users: seq<Option<User>> := [];
    while remaining != {}
      invariant remaining <= docs.Keys
      invariant forall id :: id in docs <==> id in remaining || id in order
      invariant forall i | 0 <= i < |order| :: order[i] !in remaining
      invariant NoDuplicates(order)
      invariant |users| == |order| && |order| + |remaining| == |docs|
      invariant forall i | 0 <= i < |order| :: order[i] in docs && users[i] == DecodeUser(docs[order[i]])
      decreases remaining
    {
      var id :| id in remaining;
      users := users + [DecodeUser(docs[id])];
      order := order + [id];
      remaining := remaining - {id};
    }
    r := Success(users);
  }

  /** `ListRememberedUser` as written: its filter is an empty `[]bson.D{}`
      slice, which the driver refuses to marshal, so the cursor never opens
      and every call fails, whatever the collection holds. */
  method ListRememberedUser(link: Link, db: Database) returns (r: Result<seq<Option<User>>, Error>)
    ensures r == Failure(Wrapped(OpenCursor, FilterNotDocument))
  {
    ghost var order;
    r, order := ListRememberedUserWith(link, db, DocumentSlice);
  }

  /** `ListRememberedUser` with the evidently intended empty `bson.D{}`
      filter: fails only when the server is unreachable, and otherwise
      returns exactly one entry per document of the remember collection. */
  method ListRememberedUserEmptyFilter(link: Link, db: Database)
    returns (r: Result<seq<Option<User>>, Error>, ghost order: seq<Int64>)
    ensures r.Success? <==> link.Up?
    ensures link.Down? ==> r == Failure(Wrapped(OpenCursor, ConnectionFailure(link.reason)))
    ensures r.Success? ==> |r.value| == |order| == |db.remember|
    ensures r.Success? ==> NoDuplicates(order) && forall id :: id in db.remember <==> id in order
    ensures r.Success? ==> forall i | 0 <= i < |order| :: r.value[i] == DecodeUser(db.remember[order[i]])
  {
    r, order := ListRememberedUserWith(link, db, EmptyDocument);
  }

  /** `Subscribe`: insert a bare-id document, into the remember collection. */
  function Subscribe(link: Link, db: Database, id: Int64): (r: Result<Database, Error>)
    ensures r.Success? <==> link.Up? && id !in db.remember
    ensures r.Success? ==> r.value.remember == db.remember[id := IdDocument(MakeMongoID(id))]
    ensures r.Success? ==> r.value.subscribe == db.subscribe
    ensures r.Failure? ==> r.error.Wrapped? && r.error.context == InsertSubscription
    ensures r.Success? && Valid(db) ==> Valid(r.value)
  {
    match InsertOne(link, db.remember, id, IdDocument(MakeMongoID(id)))
    case Failure(e) => Failure(Wrapped(InsertSubscription, e))
    case Success(c) => Success(db.(remember := c))
  }

  /** `Subscribed`: `(false, nil)` when no document has the id, `(true, nil)`
      when one does, `(false, err)` when the lookup fails otherwise. The
      lookup goes to the remember collection. */
  function Subscribed(link: Link, db: Database, id: Int64): (r: (bool, Option<Error>))
    ensures r.0 <==> link.Up? && id in db.remember
    ensures r.1.Some? <==> link.Down?
    ensures r.1.Some? ==> r.1.value.Wrapped? && r.1.value.context == FindSubscription
  {
    match FindOne(link, db.remember, id)
    case Failure(e) =>
      if e == NoDocuments then (false, None) else (false, Some(Wrapped(FindSubscription, e)))
    case Success(_) => (true, None)
  }

  /** `Unsubscribe`: delete the document with the id from the remember
      collection, whatever it holds. */
  function Unsubscribe(link: Link, db: Database, id: Int64): (r: Result<Database, Error>)
    ensures r.Success? <==> link.Up?
    ensures r.Success? ==> r.value.remember.Keys == db.remember.Keys - {id}
    ensures r.Success? ==> forall k | k in r.value.remember :: r.value.remember[k] == db.remember[k]
    ensures r.Success? ==> r.value.subscribe == db.subscribe
    ensures r.Failure? ==> r.error.Wrapped? && r.error.context == DeleteSubscription
    ensures r.Success? && Valid(db) ==> Valid(r.value)
  {
    match DeleteOne(link, db.remember, id)
    case Failure(e) => Failure(Wrapped(DeleteSubscription, e))
    case Success(c) => Success(db.(remember := c))
  }

  /** Remembering a user with a fresh id and reading it back returns that user. */
  lemma RememberThenGet(db: Database, u: User)
    requires u.id !in db.remember
    ensures Remember(Up, db, u).Success?
    ensures GetRememberedUser(Up, Remember(Up, db, u).value, u.id) == Success(Some(u))
  {
  }

  /** The subscribe collection is never read: every operation gives the same
      answers whatever it holds, and never writes it. */
  lemma SubscribeCollectionUnused(link: Link, db: Database, other: Collection<Document>, u: User, id: Int64)
    ensures var db' := db.(subscribe := other);
      && Remember(link, db', u) == (match Remember(link, db, u)
           case Success(d) => Success(d.(subscribe := other)) case Failure(e) => Failure(e))
      && GetRememberedUser(link, db', id) == GetRememberedUser(link, db, id)
      && Subscribe(link, db', id) == (match Subscribe(link, db, id)
           case Success(d) => Success(d.(subscribe := other)) case Failure(e) => Failure(e))
      && Subscribed(link, db', id) == Subscribed(link, db, id)
      && Unsubscribe(link, db', id) == (match Unsubscribe(link, db, id)
           case Success(d) => Success(d.(subscribe := other)) case Failure(e) => Failure(e))
  {
  }

  /** Because subscriptions share the remember collection, a remembered user
      reads as subscribed, and a bare-id subscription reads back as a nil
      user with no error. */
  lemma RememberedUserReadsAsSubscribed(db: Database, u: User, id: Int64)
    requires Remember(Up, db, u).Success?
    requires Subscribe(Up, db, id).Success?
    ensures Subscribed(Up, Remember(Up, db, u).value, u.id) == (true, None)
    ensures GetRememberedUser(Up, Subscribe(Up, db, id).value, id) == Success(None)
  {
  }

  /** Under the unique `_id` index, subscribing an id that is already
      subscribed or remembered fails: `Subscribe` is not idempotent. */
  lemma SubscribeOccupiedIdFails(db: Database, id: Int64)
    requires id in db.remember
    ensures Subscribe(Up, db, id) == Failure(Wrapped(InsertSubscription, DuplicateKey(id)))
  {
  }

  /** After `Unsubscribe(id)` the id reads as not subscribed, a user
      remembered under it is gone, every other id answers as before, and a
      second `Unsubscribe` changes nothing. */
  lemma UnsubscribeRemovesOnlyThatId(db: Database, id: Int64, other: Int64)
    requires other != id
    ensures var after := Unsubscribe(Up, db, id).value;
      && Subscribed(Up, after, id) == (false, None)
      && GetRememberedUser(Up, after, id) == Failure(Wrapped(DecodeSingleResult, NoDocuments))
      && Subscribed(Up, after, other) == Subscribed(Up, db, other)
      && GetRememberedUser(Up, after, other) == GetRememberedUser(Up, db, other)
      && Unsubscribe(Up, after, id) == Success(after)
  {
    var after := Unsubscribe(Up, db, id).value;
    assert after.remember - {id} == after.remember;
  }

  /** The repository test's sequence of calls on an empty database, as the
      code runs it, with its user comparisons read as comparisons of user
      values: remembering and reading back users behaves as the test
      expects, but the first `Subscribed` already answers true where the
      test expects false, and the following `Subscribe` fails where it
      expects success. */
  lemma RepositoryTestAsWritten(u1: User, u2: User)
    requires u1.id == 1 && u2.id == 2
    ensures var db1 := Remember(Up, EmptyDatabase, u1).value;
      && GetRememberedUser(Up, db1, 1) == Success(Some(u1))
      && GetRememberedUser(Up, db1, 2).Failure?
      && var db2 := Remember(Up, db1, u2).value;
      && GetRememberedUser(Up, db2, 2) == Success(Some(u2))
      && Subscribed(Up, db2, 1) == (true, None)
      && Subscribed(Up, db2, 2) == (true, None)
      && Subscribe(Up, db2, 1) == Failure(Wrapped(InsertSubscription, DuplicateKey(1)))
  {
  }

  // The corrected subscription surface: the same calls on the subscribe collection.

  function SubscribeSeparately(link: Link, db: Database, id: Int64): (r: Result<Database, Error>)
    ensures r.Success? <==> link.Up? && id !in db.subscribe
    ensures r.Success? ==> r.value.subscribe == db.subscribe[id := IdDocument(MakeMongoID(id))]
    ensures r.Success? ==> r.value.remember == db.remember
    ensures r.Failure? ==> r.error.Wrapped? && r.error.context == InsertSubscription
    ensures r.Success? && Valid(db) ==> Valid(r.value)
  {
    match InsertOne(link, db.subscribe, id, IdDocument(MakeMongoID(id)))
    case Failure(e) => Failure(Wrapped(InsertSubscription, e))
    case Success(c) => Success(db.(subscribe := c))
  }

  function SubscribedSeparately(link: Link, db: Database, id: Int64): (r: (bool, Option<Error>))
    ensures r.0 <==> link.Up? && id in db.subscribe
    ensures r.1.Some? <==> link.Down?
  {
    match FindOne(link, db.subscribe, id)
    case Failure(e) =>
      if e == NoDocuments then (false, None) else (false, Some(Wrapped(FindSubscription, e)))
    case Success(_) => (true, None)
  }

  function UnsubscribeSeparately(link: Link, db: Database, id: Int64): (r: Result<Database, Error>)
    ensures r.Success? <==> link.Up?
    ensures r.Success? ==> r.value.subscribe.Keys == db.subscribe.Keys - {id}
    ensures r.Success? ==> forall k | k in r.value.subscribe :: r.value.subscribe[k] == db.subscribe[k]
    ensures r.Success? ==> r.value.remember == db.remember
    ensures r.Success? && Valid(db) ==> Valid(r.value)
  {
    match DeleteOne(link, db.subscribe, id)
    case Failure(e) => Failure(Wrapped(DeleteSubscription, e))
    case Success(c) => Success(db.(subscribe := c))
  }

  /** With separate collections, remembering never changes anyone's
      subscription and unsubscribing never forgets a remembered user;
      subscribing makes the id read as subscribed, unsubscribing as not. */
  lemma SeparateSubscriptionsIndependent(db: Database, u: User, id: Int64)
    requires Remember(Up, db, u).Success?
    ensures SubscribedSeparately(Up, Remember(Up, db, u).value, id) == SubscribedSeparately(Up, db, id)
    ensures GetRememberedUser(Up, UnsubscribeSeparately(Up, db, id).value, u.id) == GetRememberedUser(Up, db, u.id)
    ensures SubscribeSeparately(Up, db, id).Success? ==>
      SubscribedSeparately(Up, SubscribeSeparately(Up, db, id).value, id) == (true, None)
    ensures SubscribedSeparately(Up, UnsubscribeSeparately(Up, db, id).value, id) == (false, None)
  {
  }

  /** The repository test's remember and subscription calls, with its user
      comparisons read as comparisons of user values, behave as the test
      expects once subscriptions live in their own collection. */
  lemma RepositoryTestWithSeparateSubscriptions(u1: User, u2: User)
    requires u1.id == 1 && u2.id == 2
    ensures var db1 := Remember(Up, EmptyDatabase, u1).value;
      && GetRememberedUser(Up, db1, 1) == Success(Some(u1))
      && GetRememberedUser(Up, db1, 2).Failure?
      && var db2 := Remember(Up, db1, u2).value;
      && GetRememberedUser(Up, db2, 2) == Success(Some(u2))
      && SubscribedSeparately(Up, db2, 1) == (false, None)
      && SubscribedSeparately(Up, db2, 2) == (false, None)
      && SubscribeSeparately(Up, db2, 1).Success?
      && var db3 := SubscribeSeparately(Up, db2, 1).value;
      && SubscribeSeparately(Up, db3, 2).Success?
      && var db4 := SubscribeSeparately(Up, db3, 2).value;
      && SubscribedSeparately(Up, db4, 1) == (true, None)
      && SubscribedSeparately(Up, db4, 2) == (true, None)
      && var db5 := UnsubscribeSeparately(Up, UnsubscribeSeparately(Up, db4, 1).value, 2).value;
      && SubscribedSeparately(Up, db5, 1) == (false, None)
      && SubscribedSeparately(Up, db5, 2) == (false, None)
      && GetRememberedUser(Up, db5, 1) == Success(Some(u1))
  {
  }
}
