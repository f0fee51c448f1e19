/** The worker registry of src/workers.js over an in-memory record store. The store keeps
    its records in storage order, which is creation order: the first record a search
    returns is the oldest one. */
module Workers {
  import opened Wrappers
  import opened Strings

  /** A record's `$id` (a UUID that the store assigns). */
  type Id = string

  /** A JavaScript value as the registry receives it among its arguments and stores it in
      a record's `hostname` and `port`. An object is described by the three properties the
      registry reads from it. */
  datatype Value =
    | Undefined
    | Text(s: string)
    | Number(n: int)
    | Object(id: Option<string>, hostname: Option<string>, port: Option<int>)

  /** A record's `$type`. */
  datatype Kind = Worker | Socket | Timer | Other(name: string)

  /** A record of the store with the fields the registry reads: a Worker's address, and
      the Worker id that owns a Socket or a Timer. */
  datatype Doc = Doc(id: Id, kind: Kind, hostname: Value, port: Value, worker: Option<Id>)

  /** The `{hostname, port}` a Worker is searched by. */
  datatype Address = Address(hostname: Value, port: Value)

  /** The `TypeError`s of `register` and `unregister` and the failed assertion of `fetch`. */
  datatype ArgError = UnknownRegisterArguments | UnknownUnregisterArguments | NotUuid

  /** The record searches the registry performs, and the record sets its lemmas talk about. */
  datatype Query =
    | WorkerAt(address: Address)             // search("Worker")({hostname, port})
    | WorkerWithId(workerId: Value)          // searchSingle("Worker")({$id})
    | AllWorkers                             // search("Worker")()
    | OwnedBy(owner: Id)                     // the Sockets and Timers whose `worker` is `owner`
    | NotIn(ids: set<Id>)                    // what remains once the records `ids` are deleted
    | NotOwnedBy(owner: Id)                  // every record but those `owner` owns
    | NotDuplicateAt(address: Address, keptId: Id) // every record but the other Workers at `address`
    | Unrelated(address: Address, owner: Id) // neither a Worker at `address` nor owned by `owner`
    | Outside(addresses: set<Address>, owners: set<Id>) // neither a Worker at one of `addresses` nor owned by one of `owners`

  predicate WorkerAtAddress(d: Doc, a: Address) {
    d.kind == Worker && d.hostname == a.hostname && d.port == a.port
  }

  predicate Owned(d: Doc, owner: Id) {
    (d.kind == Socket || d.kind == Timer) && d.worker == Some(owner)
  }

  predicate Matches(q: Query, d: Doc) {
    match q
    case WorkerAt(a) => WorkerAtAddress(d, a)
    case WorkerWithId(v) => d.kind == Worker && v == Text(d.id)
    case AllWorkers => d.kind == Worker
    case OwnedBy(owner) => Owned(d, owner)
    case NotIn(ids) => d.id !in ids
    case NotOwnedBy(owner) => !Owned(d, owner)
    case NotDuplicateAt(a, keptId) => !(WorkerAtAddress(d, a) && d.id != keptId)
    case Unrelated(a, owner) => !WorkerAtAddress(d, a) && !Owned(d, owner)
    case Outside(addresses, owners) =>
      !(d.kind == Worker && Address(d.hostname, d.port) in addresses) &&
      !((d.kind == Socket || d.kind == Timer) && d.worker.Some? && d.worker.value in owners)
  }

  predicate UniqueIds(docs: seq<Doc>) {
    forall i, j :: 0 <= i < j < |docs| ==> docs[i].id != docs[j].id
  }

  /** No record of the store carries `id`. */
  predicate FreshId(docs: seq<Doc>, id: Id) {
    forall i :: 0 <= i < |docs| ==> docs[i].id != id
  }

  function IdsOf(ds: seq<Doc>): set<Id> {
    set d | d in ds :: d.id
  }

  lemma InIds(ds: seq<Doc>, d: Doc)
    ensures d in ds ==> d.id in IdsOf(ds)
  {
  }

  lemma UniqueTail(docs: seq<Doc>)
    requires UniqueIds(docs) && docs != []
    ensures UniqueIds(docs[1..])
    ensures forall e :: e in docs[1..] ==> e.id != docs[0].id
  {
    var rest := docs[1..];
    forall i, j | 0 <= i < j < |rest| ensures rest[i].id != rest[j].id {
      assert rest[i] == docs[i + 1] && rest[j] == docs[j + 1];
    }
    forall e | e in rest ensures e.id != docs[0].id {
      var k :| 0 <= k < |rest| && rest[k] == e;
      assert docs[k + 1] == e;
    }
  }

  /** Two records of a store with unique ids that share an id are the same record. */
  lemma SameId(docs: seq<Doc>, d: Doc, e: Doc)
    requires UniqueIds(docs) && d in docs && e in docs && d.id == e.id
    ensures d == e
  {
    var i :| 0 <= i < |docs| && docs[i] == d;
    var j :| 0 <= j < |docs| && docs[j] == e;
    assert i == j;
  }

  /** The records matching `q`, in storage order. */
  function Search(docs: seq<Doc>, q: Query): (r: seq<Doc>)
    ensures |r| <= |docs|
    ensures forall d {:trigger d in r} :: d in r <==> d in docs && Matches(q, d)
  {
    if docs == [] then []
    else
      var rest := Search(docs[1..], q);
      assert docs == [docs[0]] + docs[1..];
      if Matches(q, docs[0]) then [docs[0]] + rest else rest
  }

  /** A search keeps the ids unique. */
  lemma {:induction false} SearchUnique(docs: seq<Doc>, q: Query)
    requires UniqueIds(docs)
    ensures UniqueIds(Search(docs, q))
  {
    if docs != [] {
      UniqueTail(docs);
      SearchUnique(docs[1..], q);
      var rest := Search(docs[1..], q);
      if Matches(q, docs[0]) {
        var r := [docs[0]] + rest;
        forall i, j | 0 <= i < j < |r| ensures r[i].id != r[j].id {
          if i == 0 {
            assert r[j] == rest[j - 1] && rest[j - 1] in rest;
          } else {
            assert r[i] == rest[i - 1] && r[j] == rest[j - 1];
          }
        }
      }
    }
  }

  lemma {:induction false} SearchAppend(a: seq<Doc>, b: seq<Doc>, q: Query)
    ensures Search(a + b, q) == Search(a, q) + Search(b, q)
  {
    if a == [] {
      assert a + b == b;
    } else {
      assert (a + b)[1..] == a[1..] + b;
      SearchAppend(a[1..], b, q);
    }
  }

  /** A search nothing matches finds nothing. */
  lemma {:induction false} SearchNone(docs: seq<Doc>, q: Query)
    requires forall d :: d in docs ==> !Matches(q, d)
    ensures Search(docs, q) == []
  {
    if docs != [] {
      SearchNone(docs[1..], q);
    }
  }

  lemma {:induction false} SearchAll(docs: seq<Doc>, q: Query)
    requires forall d :: d in docs ==> Matches(q, d)
    ensures Search(docs, q) == docs
  {
    if docs != [] {
      SearchAll(docs[1..], q);
    }
  }

  /** Two queries that agree on every record of the store find the same records. */
  lemma {:induction false} SearchSame(docs: seq<Doc>, p: Query, q: Query)
    requires forall d :: d in docs ==> (Matches(p, d) <==> Matches(q, d))
    ensures Search(docs, p) == Search(docs, q)
  {
    if docs != [] {
      SearchSame(docs[1..], p, q);
    }
  }

  /** Searching the result of a wider search for `q` is searching for `q`. */
  lemma {:induction false} SearchNarrow(docs: seq<Doc>, wide: Query, q: Query)
    requires forall d :: d in docs && Matches(q, d) ==> Matches(wide, d)
    ensures Search(Search(docs, wide), q) == Search(docs, q)
  {
    if docs != [] {
      SearchNarrow(docs[1..], wide, q);
    }
  }

  /** Deleting the records `ids` and then the record `id` deletes the records `ids + {id}`. */
  lemma {:induction false} DeleteMore(docs: seq<Doc>, ids: set<Id>, id: Id)
    ensures Search(Search(docs, NotIn(ids)), NotIn({id})) == Search(docs, NotIn(ids + {id}))
  {
    if docs != [] {
      DeleteMore(docs[1..], ids, id);
    }
  }

  /** A search that one record `x` alone matches, in a store of unique ids, returns [x]. */
  lemma {:induction false} SingleMatch(docs: seq<Doc>, q: Query, x: Doc)
    requires UniqueIds(docs) && x in docs && Matches(q, x)
    requires forall d :: d in docs && Matches(q, d) ==> d == x
    ensures Search(docs, q) == [x]
  {
    UniqueTail(docs);
    if docs[0] == x {
      SearchNone(docs[1..], q);
    } else {
      SingleMatch(docs[1..], q, x);
    }
  }

  /** Deleting one record of a store with unique ids removes exactly that record. */
  lemma {:induction false} RemoveOne(docs: seq<Doc>, d: Doc)
    requires UniqueIds(docs) && d in docs
    ensures var after := Search(docs, NotIn({d.id}));
      |after| == |docs| - 1 && forall e :: e in docs && e != d ==> e in after
  {
    UniqueTail(docs);
    if docs[0] == d {
      SearchAll(docs[1..], NotIn({d.id}));
    } else {
      RemoveOne(docs[1..], d);
    }
    forall e | e in docs && e != d ensures e in Search(docs, NotIn({d.id})) {
      if e.id == d.id {
        SameId(docs, e, d);
      }
    }
  }

  /** Deleting the records of `Search(docs, OwnedBy(owner))` deletes what `owner` owns. */
  function ClearOwned(docs: seq<Doc>, owner: Id): seq<Doc> {
    Search(docs, NotIn(IdsOf(Search(docs, OwnedBy(owner)))))
  }

  lemma ClearOwnedMeaning(docs: seq<Doc>, owner: Id)
    requires UniqueIds(docs)
    ensures ClearOwned(docs, owner) == Search(docs, NotOwnedBy(owner))
  {
    var owned := Search(docs, OwnedBy(owner));
    forall d | d in docs ensures Matches(NotIn(IdsOf(owned)), d) <==> Matches(NotOwnedBy(owner), d) {
      InIds(owned, d);
      if d.id in IdsOf(owned) {
        var e :| e in owned && e.id == d.id;
        SameId(docs, d, e);
      }
    }
    SearchSame(docs, NotIn(IdsOf(owned)), NotOwnedBy(owner));
  }

  /** Deleting every Worker at `a` but the first deletes the duplicates of the first. */
  function DropDuplicates(docs: seq<Doc>, found: seq<Doc>): seq<Doc>
    requires |found| >= 1
  {
    Search(docs, NotIn(IdsOf(found[1..])))
  }

  /** A record's id is among the duplicates' ids exactly when it is a Worker at `a` other
      than the first one. */
  lemma DuplicateId(docs: seq<Doc>, a: Address, d: Doc)
    requires UniqueIds(docs) && |Search(docs, WorkerAt(a))| >= 1 && d in docs
    ensures var found := Search(docs, WorkerAt(a));
      d.id in IdsOf(found[1..]) <==> WorkerAtAddress(d, a) && d.id != found[0].id
  {
    var found := Search(docs, WorkerAt(a));
    assert found == [found[0]] + found[1..];
    SearchUnique(docs, WorkerAt(a));
    UniqueTail(found);
    InIds(found[1..], d);
    if d.id in IdsOf(found[1..]) {
      var e :| e in found[1..] && e.id == d.id;
      assert e in found;
      SameId(docs, d, e);
    } else if WorkerAtAddress(d, a) {
      assert d in found;
    }
  }

  lemma DropDuplicatesMeaning(docs: seq<Doc>, a: Address)
    requires UniqueIds(docs) && |Search(docs, WorkerAt(a))| >= 1
    ensures var found := Search(docs, WorkerAt(a));
      DropDuplicates(docs, found) == Search(docs, NotDuplicateAt(a, found[0].id))
  {
    var found := Search(docs, WorkerAt(a));
    forall d | d in docs ensures Matches(NotIn(IdsOf(found[1..])), d) <==> Matches(NotDuplicateAt(a, found[0].id), d) {
      DuplicateId(docs, a, d);
    }
    SearchSame(docs, NotIn(IdsOf(found[1..])), NotDuplicateAt(a, found[0].id));
  }

  /** A new Worker record. */
  function NewWorker(id: Id, a: Address): Doc {
    Doc(id, Worker, a.hostname, a.port, None)
  }

  /** The store after a registration, and the Worker record `register` resolves with. */
  datatype Registration = Registration(docs: seq<Doc>, worker: Doc)

  /** The Worker `register` keeps: the first at `input`, or a new one with the fields
      `created` and the new id `freshId`. */
  function KeptWorker(docs: seq<Doc>, input: Address, created: Address, freshId: Id): Doc {
    var found := Search(docs, WorkerAt(input));
    if |found| >= 1 then found[0] else NewWorker(freshId, created)
  }

  /** The store once the other Workers at `input` are deleted or the new Worker created. */
  function Reconciled(docs: seq<Doc>, input: Address, created: Address, freshId: Id): seq<Doc> {
    var found := Search(docs, WorkerAt(input));
    if |found| >= 1 then DropDuplicates(docs, found) else docs + [NewWorker(freshId, created)]
  }

  /** `register` on the store `docs` (lines 36-104): the first Worker at `input` is kept
      and the others deleted; if there is none, a Worker with the fields `created` and the
      new id `freshId` is created; then every Socket and Timer the kept Worker owns is
      deleted. */
  function RegisterInStore(docs: seq<Doc>, input: Address, created: Address, freshId: Id): (r: Registration)
    ensures |r.docs| <= |docs| + 1
    ensures r.worker.kind == Worker && (r.worker in docs || r.worker.id == freshId)
  {
    var found := Search(docs, WorkerAt(input));
    assert |found| >= 1 ==> found[0] in found;
    var kept := KeptWorker(docs, input, created, freshId);
    Registration(ClearOwned(Reconciled(docs, input, created, freshId), kept.id), kept)
  }

  /** Once the duplicates are removed or the Worker created, the kept Worker is the one
      Worker at `input`, and every unrelated record is as it was. */
  lemma {:induction false} ReconciledStore(docs: seq<Doc>, input: Address, freshId: Id)
    requires UniqueIds(docs) && FreshId(docs, freshId)
    ensures var kept := KeptWorker(docs, input, input, freshId);
      var reconciled := Reconciled(docs, input, input, freshId);
      && UniqueIds(reconciled)
      && Search(reconciled, WorkerAt(input)) == [kept]
      && Search(reconciled, Unrelated(input, kept.id)) == Search(docs, Unrelated(input, kept.id))
  {
    var found := Search(docs, WorkerAt(input));
    var kept := KeptWorker(docs, input, input, freshId);
    var reconciled := Reconciled(docs, input, input, freshId);
    if |found| >= 1 {
      DropDuplicatesMeaning(docs, input);
      SearchUnique(docs, NotDuplicateAt(input, kept.id));
      assert found[0] in found;
      SingleMatch(reconciled, WorkerAt(input), kept);
      SearchNarrow(docs, NotDuplicateAt(input, kept.id), Unrelated(input, kept.id));
    } else {
      assert UniqueIds(reconciled) by {
        forall i, j | 0 <= i < j < |reconciled| ensures reconciled[i].id != reconciled[j].id {
          assert reconciled[i] == docs[i];
        }
      }
      forall d | d in reconciled && Matches(WorkerAt(input), d) ensures d == kept {
        assert d !in found;
      }
      SingleMatch(reconciled, WorkerAt(input), kept);
      SearchAppend(docs, [kept], Unrelated(input, kept.id));
      assert Search([kept], Unrelated(input, kept.id)) == [];
    }
  }

  /** After `register` exactly one Worker record has the registered address, it is the
      record returned, and the store's ids are still unique. */
  lemma {:induction false} RegisterKeepsOneWorker(docs: seq<Doc>, input: Address, freshId: Id)
    requires UniqueIds(docs) && FreshId(docs, freshId)
    ensures var r := RegisterInStore(docs, input, input, freshId);
      UniqueIds(r.docs) && Search(r.docs, WorkerAt(input)) == [r.worker]
  {
    var kept := KeptWorker(docs, input, input, freshId);
    var reconciled := Reconciled(docs, input, input, freshId);
    ReconciledStore(docs, input, freshId);
    ClearOwnedMeaning(reconciled, kept.id);
    SearchUnique(reconciled, NotOwnedBy(kept.id));
    SearchNarrow(reconciled, NotOwnedBy(kept.id), WorkerAt(input));
  }

  /** The kept Worker is the first (oldest) one at the address; only when there is none is
      a Worker created, and it carries the registered hostname and port. */
  lemma RegisterReusesFirst(docs: seq<Doc>, input: Address, created: Address, freshId: Id)
    ensures var found := Search(docs, WorkerAt(input));
      var r := RegisterInStore(docs, input, created, freshId);
      && (|found| >= 1 ==> r.worker == found[0] && r.worker in docs)
      && (|found| == 0 ==> r.worker == Doc(freshId, Worker, created.hostname, created.port, None))
  {
  }

  /** After `register` no Socket and no Timer is owned by the returned Worker, whether that
      Worker was reused or created. */
  lemma RegisterClearsOwned(docs: seq<Doc>, input: Address, created: Address, freshId: Id)
    ensures var r := RegisterInStore(docs, input, created, freshId);
      Search(r.docs, OwnedBy(r.worker.id)) == []
  {
    var kept := KeptWorker(docs, input, created, freshId);
    var reconciled := Reconciled(docs, input, created, freshId);
    var owned := Search(reconciled, OwnedBy(kept.id));
    forall d | d in ClearOwned(reconciled, kept.id) ensures !Matches(OwnedBy(kept.id), d) {
      InIds(owned, d);
    }
    SearchNone(ClearOwned(reconciled, kept.id), OwnedBy(kept.id));
  }

  /** `register` touches nothing but Workers at the registered address and the records the
      returned Worker owns: every other record is still there, in the same order. */
  lemma {:induction false} RegisterTouchesNothingElse(docs: seq<Doc>, input: Address, freshId: Id)
    requires UniqueIds(docs) && FreshId(docs, freshId)
    ensures var r := RegisterInStore(docs, input, input, freshId);
      Search(r.docs, Unrelated(input, r.worker.id)) == Search(docs, Unrelated(input, r.worker.id))
  {
    var kept := KeptWorker(docs, input, input, freshId);
    var reconciled := Reconciled(docs, input, input, freshId);
    ReconciledStore(docs, input, freshId);
    ClearOwnedMeaning(reconciled, kept.id);
    SearchNarrow(reconciled, NotOwnedBy(kept.id), Unrelated(input, kept.id));
  }

  /** Registering the same address again returns the same record and changes nothing. */
  lemma {:induction false} RegisterTwice(docs: seq<Doc>, input: Address, freshId: Id, otherId: Id)
    requires UniqueIds(docs) && FreshId(docs, freshId)
    ensures var r := RegisterInStore(docs, input, input, freshId);
      RegisterInStore(r.docs, input, input, otherId) == r
  {
    var r := RegisterInStore(docs, input, input, freshId);
    RegisterKeepsOneWorker(docs, input, freshId);
    RegisterClearsOwned(docs, input, input, freshId);
    var found := Search(r.docs, WorkerAt(input));
    assert found[1..] == [];
    assert IdsOf([]) == {};
    SearchAll(r.docs, NotIn({}));
    assert Reconciled(r.docs, input, input, otherId) == r.docs;
    assert KeptWorker(r.docs, input, input, otherId) == r.worker;
  }

  /** `register` adds no record but the Worker it returns, which is either already in the
      store or the new Worker with id `freshId`. */
  lemma RegisterAddsOnlyKept(docs: seq<Doc>, input: Address, freshId: Id)
    ensures var r := RegisterInStore(docs, input, input, freshId);
      && (forall d :: d in r.docs ==> d in docs || d == r.worker)
      && (r.worker in docs || r.worker == NewWorker(freshId, input))
  {
    var found := Search(docs, WorkerAt(input));
    if |found| >= 1 {
      assert found[0] in found;
    }
  }

  /** `register` of one address leaves the Workers at any other address as they were. */
  lemma OtherAddressUnchanged(docs: seq<Doc>, input: Address, other: Address, freshId: Id)
    requires UniqueIds(docs) && FreshId(docs, freshId) && other != input
    ensures var r := RegisterInStore(docs, input, input, freshId);
      Search(r.docs, WorkerAt(other)) == Search(docs, WorkerAt(other))
  {
    var r := RegisterInStore(docs, input, input, freshId);
    RegisterTouchesNothingElse(docs, input, freshId);
    OtherAddressIsUnrelated(r.docs, input, r.worker.id, other);
    OtherAddressIsUnrelated(docs, input, r.worker.id, other);
  }

  lemma OtherAddressIsUnrelated(docs: seq<Doc>, input: Address, owner: Id, other: Address)
    requires other != input
    ensures Search(Search(docs, Unrelated(input, owner)), WorkerAt(other)) == Search(docs, WorkerAt(other))
  {
    SearchNarrow(docs, Unrelated(input, owner), WorkerAt(other));
  }

  /** `register(hostname, port)` and `register({hostname, port})` (lines 21-31): the
      address to search for, or the `TypeError` of any other call. */
  function RegisterInput(args: seq<Value>): (r: Result<Address, ArgError>)
    ensures |args| >= 2 ==> r == Ok(Address(args[0], args[1]))
    ensures r.Err? <==> (|args| < 2 &&
      !(|args| == 1 && args[0].Object? && TruthyText(args[0].hostname) && TruthyNumber(args[0].port)))
    ensures |args| < 2 && r.Ok? ==> r.value == Address(Text(args[0].hostname.value), Number(args[0].port.value))
  {
    if |args| >= 2 then Ok(Address(args[0], args[1]))
    else if |args| == 1 && args[0].Object? && TruthyText(args[0].hostname) && TruthyNumber(args[0].port) then
      Ok(Address(Text(args[0].hostname.value), Number(args[0].port.value)))
    else Err(UnknownRegisterArguments)
  }

  /** The `hostname` and `port` variables that lines 61-63 write into a created Worker: the
      call's first and second arguments, `undefined` where there is none. */
  function CreatedAsWritten(args: seq<Value>): Address {
    Address(if |args| >= 1 then args[0] else Undefined, if |args| >= 2 then args[1] else Undefined)
  }

  /** As written, `register({hostname, port})` on a store without that Worker creates a Worker
      whose hostname is the argument object and whose port is `undefined`, so the address is
      still not registered, and a second call creates another Worker. */
  lemma ObjectFormRegistersWrongAddress()
    ensures var args := [Object(None, Some("node1"), Some(3000))];
      var input := RegisterInput(args).value;
      var first := RegisterInStore([], input, CreatedAsWritten(args), "id-1");
      var second := RegisterInStore(first.docs, input, CreatedAsWritten(args), "id-2");
      && Search(first.docs, WorkerAt(input)) == []
      && second.worker.id != first.worker.id
  {
    var args := [Object(None, Some("node1"), Some(3000))];
    var input := Address(Text("node1"), Number(3000));
    var w1 := NewWorker("id-1", CreatedAsWritten(args));
    assert RegisterInStore([], input, CreatedAsWritten(args), "id-1").docs == [w1] by {
      assert Search([w1], OwnedBy("id-1")) == [];
      assert IdsOf([]) == {};
      SearchAll([w1], NotIn({}));
    }
    assert Search([w1], WorkerAt(input)) == [];
  }

  /** Which record `unregister` deletes: the Worker at an address, or the Worker with an id. */
  datatype Selector = ByAddress(address: Address) | ById(workerId: Value)

  predicate IsHexDigit(c: char) {
    '0' <= c <= '9' || 'a' <= c <= 'f' || 'A' <= c <= 'F'
  }

  /** A UUID in its textual form `xxxxxxxx-xxxx-xxxx-xxxx-xxxxxxxxxxxx`. */
  predicate IsUuid(s: string) {
    |s| == 36 &&
    forall i :: 0 <= i < 36 ==>
      if i == 8 || i == 13 || i == 18 || i == 23 then s[i] == '-' else IsHexDigit(s[i])
  }

  /** The argument dispatch of `unregister` (lines 111-124), first rule first: two
      arguments give an address; otherwise an object's truthy `$id`, then an object's truthy
      `hostname` and `port`, then a UUID string; anything else is a `TypeError`. */
  function UnregisterSelector(args: seq<Value>): (r: Result<Selector, ArgError>)
    ensures |args| >= 2 ==> r == Ok(ByAddress(Address(args[0], args[1])))
    ensures |args| == 1 && args[0].Object? && TruthyText(args[0].id) ==>
      r == Ok(ById(Text(args[0].id.value)))
    ensures (|args| == 1 && args[0].Object? && !TruthyText(args[0].id) &&
             TruthyText(args[0].hostname) && TruthyNumber(args[0].port)) ==>
      r == Ok(ByAddress(Address(Text(args[0].hostname.value), Number(args[0].port.value))))
    ensures |args| == 1 && args[0].Text? && IsUuid(args[0].s) ==> r == Ok(ById(args[0]))
    ensures r.Err? <==> (|args| < 2 && !(|args| == 1 && (
      (args[0].Object? && (TruthyText(args[0].id) || (TruthyText(args[0].hostname) && TruthyNumber(args[0].port))))
      || (args[0].Text? && IsUuid(args[0].s)))))
  {
    if |args| >= 2 then Ok(ByAddress(Address(args[0], args[1])))
    else if |args| == 1 && args[0].Object? && TruthyText(args[0].id) then Ok(ById(Text(args[0].id.value)))
    else if |args| == 1 && args[0].Object? && TruthyText(args[0].hostname) && TruthyNumber(args[0].port) then
      Ok(ByAddress(Address(Text(args[0].hostname.value), Number(args[0].port.value))))
    else if |args| == 1 && args[0].Text? && IsUuid(args[0].s) then Ok(ById(args[0]))
    else Err(UnknownUnregisterArguments)
  }

  function SelectorQuery(sel: Selector): Query {
    match sel
    case ByAddress(a) => WorkerAt(a)
    case ById(v) => WorkerWithId(v)
  }

  /** `searchSingle("Worker")(where)`: the first matching Worker, if any. */
  function FindWorker(docs: seq<Doc>, sel: Selector): (r: Option<Doc>)
    ensures r.Some? ==> r.value in docs && Matches(SelectorQuery(sel), r.value) && r.value.kind == Worker
    ensures r.None? <==> forall d :: d in docs ==> !Matches(SelectorQuery(sel), d)
  {
    var found := Search(docs, SelectorQuery(sel));
    if |found| >= 1 then assert found[0] in found; Some(found[0])
    else assert forall d :: d in docs ==> d !in found; None
  }

  /** `unregister` on the store `docs` (lines 128-133): delete the Worker found, if any. */
  function UnregisterInStore(docs: seq<Doc>, sel: Selector): (r: seq<Doc>)
    ensures |r| <= |docs| && forall d :: d in r ==> d in docs
    ensures FindWorker(docs, sel).Some? ==> FindWorker(docs, sel).value !in r
  {
    match FindWorker(docs, sel)
    case None => docs
    case Some(d) => Search(docs, NotIn({d.id}))
  }

  /** Unregistering when no Worker matches leaves the store as it was; otherwise exactly the
      Worker found is gone and every other record stays. */
  lemma {:induction false} UnregisterMeaning(docs: seq<Doc>, sel: Selector)
    requires UniqueIds(docs)
    ensures FindWorker(docs, sel).None? ==> UnregisterInStore(docs, sel) == docs
    ensures FindWorker(docs, sel).Some? ==> var d := FindWorker(docs, sel).value;
      var after := UnregisterInStore(docs, sel);
      && d !in after
      && |after| == |docs| - 1
      && forall e :: e in docs && e != d ==> e in after
  {
    if FindWorker(docs, sel).Some? {
      RemoveOne(docs, FindWorker(docs, sel).value);
    }
  }

  /** Unregistering the address of the one Worker there leaves none, and doing it again
      changes nothing. */
  lemma UnregisterSingle(docs: seq<Doc>, a: Address, x: Doc)
    requires Search(docs, WorkerAt(a)) == [x]
    ensures var after := UnregisterInStore(docs, ByAddress(a));
      Search(after, WorkerAt(a)) == [] && UnregisterInStore(after, ByAddress(a)) == after
  {
    assert x in Search(docs, WorkerAt(a));
    var after := Search(docs, NotIn({x.id}));
    assert UnregisterInStore(docs, ByAddress(a)) == after;
    forall d | d in after ensures !Matches(WorkerAt(a), d) {
      assert d in docs && d != x;
      assert d !in Search(docs, WorkerAt(a));
    }
    SearchNone(after, WorkerAt(a));
  }

  /** Registering an address and then unregistering it leaves no Worker at that address;
      a second unregistration is a no-op. */
  lemma RegisterThenUnregister(docs: seq<Doc>, input: Address, freshId: Id)
    requires UniqueIds(docs) && FreshId(docs, freshId)
    ensures var r := RegisterInStore(docs, input, input, freshId);
      var after := UnregisterInStore(r.docs, ByAddress(input));
      && Search(after, WorkerAt(input)) == []
      && UnregisterInStore(after, ByAddress(input)) == after
  {
    var r := RegisterInStore(docs, input, input, freshId);
    RegisterKeepsOneWorker(docs, input, freshId);
    UnregisterSingle(r.docs, input, r.worker);
  }

  /** The registry (the object `workers(opts)` returns), over a store of records. */
  class Registry {
    var docs: seq<Doc>

    ghost predicate Valid()
      reads this
    {
      UniqueIds(docs)
    }

    constructor (docs: seq<Doc>)
      requires UniqueIds(docs)
      ensures Valid() && this.docs == docs
    {
      this.docs := docs;
    }

    /** `db.del(d)`. */
    method Delete(d: Doc)
      modifies this
      ensures docs == Search(old(docs), NotIn({d.id}))
      ensures UniqueIds(old(docs)) ==> UniqueIds(docs)
    {
      if UniqueIds(docs) {
        SearchUnique(docs, NotIn({d.id}));
      }
      docs := Search(docs, NotIn({d.id}));
    }

    /** Deleting the records `ds` one after the other, as the promise chains of lines 45-49
        and 92-96 do. */
    method DeleteAll(ds: seq<Doc>)
      modifies this
      ensures docs == Search(old(docs), NotIn(IdsOf(ds)))
    {
      ghost var initial := docs;
      assert IdsOf(ds[..0]) == {};
      SearchAll(docs, NotIn({}));
      for i := 0 to |ds|
        invariant docs == Search(initial, NotIn(IdsOf(ds[..i])))
      {
        Delete(ds[i]);
        DeleteMore(initial, IdsOf(ds[..i]), ds[i].id);
        assert ds[..i + 1] == ds[..i] + [ds[i]];
        assert IdsOf(ds[..i + 1]) == IdsOf(ds[..i]) + {ds[i].id};
      }
      assert ds[..|ds|] == ds;
    }

    /** `register(...)`; `freshId` is the UUID the store gives a record it creates. For the
        one-object form the record is created with the searched `input`, which is what
        lines 61-63 evidently intend; `ObjectFormRegistersWrongAddress` shows the record
        those lines create as written. */
    method Register(args: seq<Value>, freshId: Id) returns (r: Result<Doc, ArgError>)
      requires Valid() && FreshId(docs, freshId)
      modifies this
      ensures Valid()
      ensures RegisterInput(args).Err? ==> r == Err(UnknownRegisterArguments) && docs == old(docs)
      ensures RegisterInput(args).Ok? ==>
        var reg := RegisterInStore(old(docs), RegisterInput(args).value, RegisterInput(args).value, freshId);
        r == Ok(reg.worker) && docs == reg.docs
    {
      var input: Address;
      match RegisterInput(args) {
        case Err(e) => return Err(e);
        case Ok(a) => input := a;
      }
      ghost var initial := docs;
      var found := Search(docs, WorkerAt(input));
      var doc: Doc;
      if |found| >= 1 {
        doc := found[0];
        DeleteAll(found[1..]);
      } else {
        doc := NewWorker(freshId, input);
        docs := docs + [doc];
      }
      assert doc == KeptWorker(initial, input, input, freshId);
      assert docs == Reconciled(initial, input, input, freshId);
      var owned := Search(docs, OwnedBy(doc.id));
      DeleteAll(owned);
      RegisterKeepsOneWorker(initial, input, freshId);
      return Ok(doc);
    }

    /** `unregister(...)`. */
    method Unregister(args: seq<Value>) returns (r: Result<(), ArgError>)
      requires Valid()
      modifies this
      ensures Valid()
      ensures UnregisterSelector(args).Err? ==> r == Err(UnknownUnregisterArguments) && docs == old(docs)
      ensures UnregisterSelector(args).Ok? ==>
        r == Ok(()) && docs == UnregisterInStore(old(docs), UnregisterSelector(args).value)
    {
      var sel: Selector;
      match UnregisterSelector(args) {
        case Err(e) => return Err(e);
        case Ok(s) => sel := s;
      }
      var doc := FindWorker(docs, sel);
      if doc.Some? {
        Delete(doc.value);
      }
      return Ok(());
    }

    /** `list()`: every Worker record, in storage order. */
    function List(): (ws: seq<Doc>)
      reads this
      ensures forall d :: d in ws <==> d in docs && d.kind == Worker
    {
      Search(docs, AllWorkers)
    }

    /** `fetch(id)`: the Worker record whose `$id` is `id`, `None` for `undefined`; an id that
        is not a UUID fails the assertion of line 150. */
    function Fetch(id: Value): (r: Result<Option<Doc>, ArgError>)
      reads this
      ensures r.Err? <==> !(id.Text? && IsUuid(id.s))
      ensures r.Ok? && r.value.Some? ==> r.value.value in docs && r.value.value.kind == Worker && id == Text(r.value.value.id)
      ensures r.Ok? && r.value.None? ==> forall d :: d in docs && d.kind == Worker ==> id != Text(d.id)
    {
      if !(id.Text? && IsUuid(id.s)) then Err(NotUuid)
      else Ok(FindWorker(docs, ById(id)))
    }
  }

}
