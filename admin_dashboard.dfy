/** The admin dashboard: the fetched lists (each falling back to an empty list),
    the number of admins and of other users, and the number of homes of each type,
    tallied by a reduce into an object whose entries keep first-insertion order. */
module AdminDashboard {
  import opened Js
  import opened Records
  import UserSchema
  import HomeSchema
  import DonationSchema

  /** One entry of `Object.entries(orgSummary)`: a type and its count. */
  datatype Entry = Entry(key: string, count: nat)

  function EntryKey(e: Entry): string { e.key }

  /** `list || []`: a missing payload is an empty list. */
  function OrEmpty<T>(list: Option<seq<T>>): (r: seq<T>)
    ensures list.Some? ==> r == list.value
    ensures list.None? ==> r == []
  {
    if list.Some? then list.value else []
  }

  /** `users.filter(u => u.role === "admin")`. */
  function Admins(users: seq<UserSchema.User>): (r: seq<UserSchema.User>)
    ensures |r| <= |users|
    ensures forall i :: 0 <= i < |r| ==> r[i] in users && r[i].role == "admin"
    ensures forall u :: u in users && u.role == "admin" ==> u in r
  {
    if users == [] then []
    else (if users[0].role == "admin" then [users[0]] else []) + Admins(users[1..])
  }

  /** `users.filter(u => u.role !== "admin")`. */
  function Regulars(users: seq<UserSchema.User>): (r: seq<UserSchema.User>)
    ensures |r| <= |users|
    ensures forall i :: 0 <= i < |r| ==> r[i] in users && r[i].role != "admin"
    ensures forall u :: u in users && u.role != "admin" ==> u in r
  {
    if users == [] then []
    else (if users[0].role != "admin" then [users[0]] else []) + Regulars(users[1..])
  }

  /** `userSummary`: every user is counted exactly once, as an admin or as a regular user. */
  lemma {:induction false} UserSummaryCoversAll(users: seq<UserSchema.User>)
    ensures |Admins(users)| + |Regulars(users)| == |users|
  {
    if users != [] {
      UserSummaryCoversAll(users[1..]);
    }
  }

  /** The number of homes whose type is `t`. */
  function CountType(homes: seq<HomeSchema.Home>, t: string): (n: nat)
    ensures n <= |homes|
  {
    if homes == [] then 0
    else CountType(homes[..|homes| - 1], t) + (if homes[|homes| - 1].homeType == t then 1 else 0)
  }

  /** Counting over one more home adds one exactly when it has the type. */
  lemma CountTypeAppend(homes: seq<HomeSchema.Home>, h: HomeSchema.Home, t: string)
    ensures CountType(homes + [h], t) == CountType(homes, t) + (if h.homeType == t then 1 else 0)
  {
    assert (homes + [h])[..|homes|] == homes;
  }

  /** One step of the reduce, `sum[type] = (sum[type] || 0) + 1`: the entry of the
      type goes up by one, or a new entry with count 1 is added at the end. */
  function Bump(entries: seq<Entry>, t: string): seq<Entry> {
    match FindKey(entries, EntryKey, t)
    case Some(k) => entries[k := Entry(t, entries[k].count + 1)]
    case None => entries + [Entry(t, 1)]
  }

  /** The summary object after the reduce has seen `homes`. */
  function Tally(homes: seq<HomeSchema.Home>): seq<Entry> {
    if homes == [] then []
    else Bump(Tally(homes[..|homes| - 1]), homes[|homes| - 1].homeType)
  }

  /** The sum of the counts. */
  function Total(entries: seq<Entry>): nat {
    if entries == [] then 0 else entries[0].count + Total(entries[1..])
  }

  lemma {:induction false} TotalAppend(entries: seq<Entry>, e: Entry)
    ensures Total(entries + [e]) == Total(entries) + e.count
  {
    if entries != [] {
      assert (entries + [e])[1..] == entries[1..] + [e];
      TotalAppend(entries[1..], e);
    }
  }

  lemma {:induction false} TotalBumpOne(entries: seq<Entry>, k: nat, t: string)
    requires k < |entries|
    ensures Total(entries[k := Entry(t, entries[k].count + 1)]) == Total(entries) + 1
  {
    if k > 0 {
      assert entries[k := Entry(t, entries[k].count + 1)][1..] == entries[1..][k - 1 := Entry(t, entries[k].count + 1)];
      TotalBumpOne(entries[1..], k - 1, t);
    }
  }

  /** The `orgSummary` reduce, step by step over the homes. */
  method OrgSummary(homes: seq<HomeSchema.Home>) returns (entries: seq<Entry>)
    ensures entries == Tally(homes)
    ensures Total(entries) == |homes|
    ensures DistinctBy(entries, EntryKey)
  {
    entries := [];
    var i := 0;
    while i < |homes|
      invariant 0 <= i <= |homes|
      invariant entries == Tally(homes[..i])
    {
      assert homes[..i + 1][..i] == homes[..i];
      entries := Bump(entries, homes[i].homeType);
      i := i + 1;
    }
    assert homes[..i] == homes;
    TallyTotal(homes);
    TallyDistinct(homes);
  }

  /** The counts add up to the number of homes. */
  lemma {:induction false} TallyTotal(homes: seq<HomeSchema.Home>)
    ensures Total(Tally(homes)) == |homes|
  {
    if homes != [] {
      var prev := homes[..|homes| - 1];
      var t := homes[|homes| - 1].homeType;
      TallyTotal(prev);
      match FindKey(Tally(prev), EntryKey, t)
      case Some(k) => TotalBumpOne(Tally(prev), k, t);
      case None => TotalAppend(Tally(prev), Entry(t, 1));
    }
  }

  /** Each type has one entry. */
  lemma {:induction false} TallyDistinct(homes: seq<HomeSchema.Home>)
    ensures DistinctBy(Tally(homes), EntryKey)
  {
    if homes != [] {
      var prev := homes[..|homes| - 1];
      var t := homes[|homes| - 1].homeType;
      var e := Tally(prev);
      TallyDistinct(prev);
      match FindKey(e, EntryKey, t)
      case Some(k) =>
        var r := e[k := Entry(t, e[k].count + 1)];
        forall i, j | 0 <= i < j < |r| ensures EntryKey(r[i]) != EntryKey(r[j]) {
          assert EntryKey(r[i]) == EntryKey(e[i]) && EntryKey(r[j]) == EntryKey(e[j]);
        }
      case None => AppendKeepsDistinct(e, EntryKey, Entry(t, 1));
    }
  }

  /** The summary has an entry for a type exactly when some home has that type, and
      the entry's count is the number of homes of that type. */
  lemma {:induction false} TallyCounts(homes: seq<HomeSchema.Home>, t: string)
    ensures HasKey(Tally(homes), EntryKey, t) <==> CountType(homes, t) > 0
    ensures forall i :: 0 <= i < |Tally(homes)| && Tally(homes)[i].key == t ==>
              Tally(homes)[i].count == CountType(homes, t)
  {
    if homes != [] {
      var prev := homes[..|homes| - 1];
      var u := homes[|homes| - 1].homeType;
      var e := Tally(prev);
      TallyCounts(prev, t);
      TallyDistinct(prev);
      var r := Tally(homes);
      match FindKey(e, EntryKey, u)
      case Some(k) =>
        assert r == e[k := Entry(u, e[k].count + 1)];
        assert HasKey(r, EntryKey, t) <==> HasKey(e, EntryKey, t) by {
          if HasKey(e, EntryKey, t) {
            var i :| 0 <= i < |e| && EntryKey(e[i]) == t;
            assert EntryKey(r[i]) == t;
          }
          if HasKey(r, EntryKey, t) {
            var i :| 0 <= i < |r| && EntryKey(r[i]) == t;
            assert EntryKey(e[i]) == t;
          }
        }
        forall i | 0 <= i < |r| && r[i].key == t ensures r[i].count == CountType(homes, t) {
          if i == k {
            assert e[k].key == u;
          } else {
            assert r[i] == e[i];
          }
        }
      case None =>
        assert r == e + [Entry(u, 1)];
        if u == t {
          assert CountType(prev, t) == 0;
          assert EntryKey(r[|e|]) == t;
          forall i | 0 <= i < |r| && r[i].key == t ensures r[i].count == CountType(homes, t) {
            if i < |e| {
              assert false;
            }
          }
        } else {
          assert HasKey(r, EntryKey, t) <==> HasKey(e, EntryKey, t) by {
            if HasKey(r, EntryKey, t) {
              var i :| 0 <= i < |r| && EntryKey(r[i]) == t;
              assert i < |e| && EntryKey(e[i]) == t;
            }
            if HasKey(e, EntryKey, t) {
              var i :| 0 <= i < |e| && EntryKey(e[i]) == t;
              assert EntryKey(r[i]) == t;
            }
          }
          forall i | 0 <= i < |r| && r[i].key == t ensures r[i].count == CountType(homes, t) {
            assert i < |e| && r[i] == e[i];
          }
        }
    }
  }

  class DashboardPage {
    var users: seq<UserSchema.User>
    var homes: seq<HomeSchema.Home>
    var donations: seq<DonationSchema.Donation>
    var loading: bool

    constructor ()
      ensures users == [] && homes == [] && donations == [] && loading
    {
      users := [];
      homes := [];
      donations := [];
      loading := true;
    }

    /** `fetchData`, given the three payloads when all three requests succeed (a
        missing payload is absent) and nothing when any of them fails: every list
        falls back to empty, a failure leaves the lists as they were, and `loading`
        ends false. */
    method FetchData(payloads: Option<(Option<seq<UserSchema.User>>, Option<seq<HomeSchema.Home>>,
                                       Option<seq<DonationSchema.Donation>>)>)
      modifies this
      ensures !loading
      ensures payloads.None? ==>
                users == old(users) && homes == old(homes) && donations == old(donations)
      ensures payloads.Some? ==>
                homes == OrEmpty(payloads.value.1) && users == OrEmpty(payloads.value.0)
                && donations == OrEmpty(payloads.value.2)
    {
      loading := true;
      if payloads.Some? {
        homes := OrEmpty(payloads.value.1);
        users := OrEmpty(payloads.value.0);
        donations := OrEmpty(payloads.value.2);
      }
      loading := false;
    }
  }
}
