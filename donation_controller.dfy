/** The donation handlers of the backend: `createDonation` casts the body through
    the schema and appends it, `getAllDonations` lists the collection newest first.
    The clock that stamps `createdAt` is a parameter. */
module DonationController {
  import opened Js
  import opened Records
  import opened DonationSchema

  /** A JSON reply: `{ success: true, data }` or `{ success: false, message }`. */
  datatype Reply<T> = Ok(status: int, data: T) | Failed(status: int, message: string)

  function IdOf(d: Donation): Id { d.id }

  /** Newest first: `createdAt` never increases along the list. */
  predicate NewestFirst(s: seq<Donation>) {
    forall i, j :: 0 <= i < j < |s| ==> s[i].createdAt >= s[j].createdAt
  }

  /** A donation no older than the head of a newest-first list can go in front of it. */
  lemma ConsNewestFirst(x: Donation, s: seq<Donation>)
    requires NewestFirst(s) && (s != [] ==> x.createdAt >= s[0].createdAt)
    ensures NewestFirst([x] + s)
  {
    var r := [x] + s;
    forall i, j | 0 <= i < j < |r| ensures r[i].createdAt >= r[j].createdAt {
      if i == 0 && j > 1 {
        assert r[j] == s[j - 1] && s[0].createdAt >= s[j - 1].createdAt;
      }
    }
  }

  /** `d` placed in front of the first donation older than it. */
  function Insert(d: Donation, s: seq<Donation>): (r: seq<Donation>)
    requires NewestFirst(s)
    ensures NewestFirst(r)
    ensures |r| == |s| + 1 && (r[0] == d || (s != [] && r[0] == s[0]))
  {
    if s == [] || d.createdAt >= s[0].createdAt then
      ConsNewestFirst(d, s);
      [d] + s
    else
      var rest := Insert(d, s[1..]);
      assert NewestFirst(s[1..]) by {
        forall i, j | 0 <= i < j < |s[1..]| ensures s[1..][i].createdAt >= s[1..][j].createdAt {
          assert s[1..][i] == s[i + 1] && s[1..][j] == s[j + 1];
        }
      }
      ConsNewestFirst(s[0], rest);
      [s[0]] + rest
  }

  /** Inserting adds exactly the one donation. */
  lemma {:induction false} InsertAddsOne(d: Donation, s: seq<Donation>)
    requires NewestFirst(s)
    ensures multiset(Insert(d, s)) == multiset(s) + multiset{d}
  {
    if s != [] && d.createdAt < s[0].createdAt {
      assert s == [s[0]] + s[1..];
      InsertAddsOne(d, s[1..]);
    }
  }

  /** `.sort({ createdAt: -1 })`: the same donations, newest first. The order among
      donations with equal timestamps is one the store is free to choose. */
  function SortNewestFirst(s: seq<Donation>): (r: seq<Donation>)
    ensures NewestFirst(r)
    ensures multiset(r) == multiset(s)
    ensures |r| == |s|
  {
    if s == [] then []
    else
      assert s == [s[0]] + s[1..];
      InsertAddsOne(s[0], SortNewestFirst(s[1..]));
      Insert(s[0], SortNewestFirst(s[1..]))
  }

  /** The collection invariant: unique ids below `nextId`, every document conforming. */
  predicate StoreValid(ds: seq<Donation>, nextId: Id) {
    DistinctBy(ds, IdOf)
    && (forall i :: 0 <= i < |ds| ==> Conforms(ds[i]))
    && (forall i :: 0 <= i < |ds| ==> ds[i].id < nextId)
  }

  /** Appending a conforming document with the next id keeps the invariant. */
  lemma AppendKeepsStoreValid(ds: seq<Donation>, nextId: Id, d: Donation)
    requires StoreValid(ds, nextId) && Conforms(d) && d.id == nextId
    ensures StoreValid(ds + [d], nextId + 1)
  {
    AppendKeepsDistinct(ds, IdOf, d);
    var all := ds + [d];
    forall i | 0 <= i < |all| ensures Conforms(all[i]) && all[i].id < nextId + 1 {
      if i < |ds| {
        assert all[i] == ds[i];
      }
    }
  }

  /** Appending the cast of an accepted body with the next id keeps the invariant. */
  lemma CastKeepsStoreValid(ds: seq<Donation>, nextId: Id, body: DonationBody, createdAt: int,
                            after: seq<Donation>, next: Id)
    requires StoreValid(ds, nextId) && Accepts(body)
    requires after == ds + [Cast(body, nextId, createdAt).value] && next == nextId + 1
    ensures StoreValid(after, next)
  {
    CastConforms(body, nextId, createdAt);
    AppendKeepsStoreValid(ds, nextId, Cast(body, nextId, createdAt).value);
  }

  class DonationStore {
    var donations: seq<Donation>
    var nextId: Id

    /** Every stored donation passes the schema, and ids are unique and below the next one. */
    ghost predicate Valid()
      reads this
    {
      StoreValid(donations, nextId)
    }

    constructor ()
      ensures Valid() && donations == [] && nextId == 0
    {
      donations := [];
      nextId := 0;
    }

    /** `createDonation`: a body the schema accepts is stored, trimmed, as exactly one
        new document stamped `now`, and returned with 201; any other body is a 500
        that stores nothing. */
    method CreateDonation(body: DonationBody, now: int) returns (reply: Reply<Donation>)
      requires Valid()
      modifies this
      ensures Valid()
      ensures reply.Ok? <==> Accepts(body)
      ensures reply.Ok? ==> reply.status == 201 && Some(reply.data) == Cast(body, old(nextId), now)
                            && donations == old(donations) + [reply.data]
      ensures reply.Failed? ==> reply == Failed(500, "Failed to create donation")
                                && donations == old(donations) && nextId == old(nextId)
    {
      if !Accepts(body) {
        return Failed(500, "Failed to create donation");
      }
      var d := Cast(body, nextId, now).value;
      ghost var before, n := donations, nextId;
      donations, nextId := donations + [d], nextId + 1;
      CastKeepsStoreValid(before, n, body, now, donations, nextId);
      reply := Ok(201, d);
    }

    /** `getAllDonations`: 200 with every stored donation exactly once, newest first;
        a failed read is a 500. Nothing is written. */
    method GetAllDonations(readFails: bool) returns (reply: Reply<seq<Donation>>)
      ensures readFails ==> reply == Failed(500, "Failed to fetch donations")
      ensures !readFails ==> reply.Ok? && reply.status == 200
      ensures reply.Ok? ==> multiset(reply.data) == multiset(donations) && NewestFirst(reply.data)
    {
      if readFails {
        return Failed(500, "Failed to fetch donations");
      }
      reply := Ok(200, SortNewestFirst(donations));
    }
  }

  /** In a newest-first list a strictly older donation comes later. */
  lemma OlderComesLater(s: seq<Donation>, i: nat, j: nat)
    requires NewestFirst(s) && i < |s| && j < |s| && s[i].createdAt < s[j].createdAt
    ensures j < i
  {
  }

  /** A listing made after a create shows the new donation, and it comes before every
      donation stamped strictly earlier. */
  lemma ListingShowsNewDonation(before: seq<Donation>, d: Donation)
    ensures d in SortNewestFirst(before + [d])
    ensures var r := SortNewestFirst(before + [d]);
            forall i, j :: 0 <= i < |r| && 0 <= j < |r| && r[j] == d && r[i].createdAt < d.createdAt ==> j < i
  {
    var r := SortNewestFirst(before + [d]);
    assert d in multiset(before + [d]);
    assert d in multiset(r);
    forall i, j | 0 <= i < |r| && 0 <= j < |r| && r[j] == d && r[i].createdAt < d.createdAt
      ensures j < i
    {
      OlderComesLater(r, i, j);
    }
  }
}
