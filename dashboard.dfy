/**
 * The staff dashboard: normalising the member list fetched from the
 * registry, the paid/sponsored totals, the paid-member count and merging an
 * edited member back into the list.
 */
module Dashboard {
  import opened Wrappers
  import opened Http
  import opened Text

  datatype Status = Active | Paid | Pending | Sponsored

  datatype CapturedStatus = Valid | Invalid | CapturePending

  datatype Member = Member(
    id: int,
    index: int,
    name: string,
    first_name: string,
    last_name: string,
    email: string,
    mobile_number: string,
    batch_year: string,
    status: Status,
    paid_amount: int,
    sponsored_amount: int,
    captured_status: CapturedStatus,
    captured_at_timestamp: string)

  /** The body of the update request sent by the editing dialog. */
  datatype FormFields = FormFields(
    first_name: string,
    last_name: string,
    batch_year: string,
    status: Status,
    amount_paid: int,
    amount_sponsored: int)

  datatype Totals = Totals(totalPaid: int, totalSponsored: int)

  // ---------------------------------------------------------------------
  // The normalisation pipeline: name, sort, drop duplicates, number rows.
  // ---------------------------------------------------------------------

  /** The display name of a member. */
  function DisplayName(m: Member): string {
    m.first_name + " " + m.last_name
  }

  /** Step 1: every member gets its display name. */
  function WithNames(data: seq<Member>): (r: seq<Member>)
    ensures |r| == |data|
    ensures forall k :: 0 <= k < |r| ==> r[k] == data[k].(name := DisplayName(data[k]))
  {
    seq(|data|, k requires 0 <= k < |data| => data[k].(name := DisplayName(data[k])))
  }

  /** The comparison used by the sort: names in string order. */
  predicate NameLe(a: Member, b: Member) {
    StrLe(a.name, b.name)
  }

  predicate SortedByName(s: seq<Member>) {
    forall i, j :: 0 <= i < j < |s| ==> NameLe(s[i], s[j])
  }

  function Insert(x: Member, s: seq<Member>): seq<Member> {
    if s == [] then [x]
    else if NameLe(x, s[0]) then [x] + s
    else [s[0]] + Insert(x, s[1..])
  }

  /** Step 2: a stable sort by name. */
  function SortByName(s: seq<Member>): seq<Member> {
    if s == [] then [] else Insert(s[0], SortByName(s[1..]))
  }

  lemma {:induction false} InsertPermutes(x: Member, s: seq<Member>)
    ensures multiset(Insert(x, s)) == multiset([x] + s)
  {
    if s != [] && !NameLe(x, s[0]) {
      InsertPermutes(x, s[1..]);
      assert s == [s[0]] + s[1..];
    }
  }

  /** A member no greater than anything in a sorted list can lead it. */
  lemma PrependSorted(m: Member, s: seq<Member>)
    requires SortedByName(s)
    requires forall j :: 0 <= j < |s| ==> NameLe(m, s[j])
    ensures SortedByName([m] + s)
  {
    var r := [m] + s;
    forall i, j | 0 <= i < j < |r| ensures NameLe(r[i], r[j]) {
      assert r[j] == s[j - 1];
      if i > 0 { assert r[i] == s[i - 1]; }
    }
  }

  lemma {:induction false} InsertSorted(x: Member, s: seq<Member>)
    requires SortedByName(s)
    ensures SortedByName(Insert(x, s))
  {
    if s == [] {
    } else if NameLe(x, s[0]) {
      forall j | 0 <= j < |s| ensures NameLe(x, s[j]) {
        if j > 0 { StrLeTrans(x.name, s[0].name, s[j].name); }
      }
      PrependSorted(x, s);
    } else {
      StrLeTotal(x.name, s[0].name);
      InsertSorted(x, s[1..]);
      InsertPermutes(x, s[1..]);
      var t := Insert(x, s[1..]);
      forall j | 0 <= j < |t| ensures NameLe(s[0], t[j]) {
        assert t[j] in multiset([x] + s[1..]);
        if t[j] != x {
          assert t[j] in s[1..];
          var k :| 0 <= k < |s[1..]| && s[1..][k] == t[j];
          assert s[k + 1] == t[j];
        }
      }
      PrependSorted(s[0], t);
    }
  }

  /** The members of `s` whose name is exactly `n`, in their order in `s`. */
  function WithName(s: seq<Member>, n: string): (r: seq<Member>)
    ensures |r| <= |s|
    ensures forall x :: x in r ==> x in s && x.name == n
  {
    if s == [] then [] else (if s[0].name == n then [s[0]] else []) + WithName(s[1..], n)
  }

  /** Inserting a member puts it ahead of every member with the same name, and moves no other. */
  lemma {:induction false} InsertWithName(x: Member, s: seq<Member>, n: string)
    ensures WithName(Insert(x, s), n) == if x.name == n then [x] + WithName(s, n) else WithName(s, n)
  {
    if s == [] {
      assert [x][1..] == [];
    } else if NameLe(x, s[0]) {
      assert ([x] + s)[1..] == s;
    } else {
      StrLeTotal(x.name, x.name);
      InsertWithName(x, s[1..], n);
      assert ([s[0]] + Insert(x, s[1..]))[1..] == Insert(x, s[1..]);
    }
  }

  /**
   * The sort is stable: the members sharing any one name come out in the
   * order they came in, so the first one fetched stays first.
   */
  lemma {:induction false} SortByNameStable(s: seq<Member>, n: string)
    ensures WithName(SortByName(s), n) == WithName(s, n)
  {
    if s != [] {
      SortByNameStable(s[1..], n);
      InsertWithName(s[0], SortByName(s[1..]), n);
    }
  }

  /** The sort yields the same members, ordered by name. */
  lemma {:induction false} SortByNameCorrect(s: seq<Member>)
    ensures SortedByName(SortByName(s))
    ensures multiset(SortByName(s)) == multiset(s)
  {
    if s != [] {
      SortByNameCorrect(s[1..]);
      InsertSorted(s[0], SortByName(s[1..]));
      InsertPermutes(s[0], SortByName(s[1..]));
      assert s == [s[0]] + s[1..];
    }
  }

  /** The key that decides duplicates: the lower-cased name. */
  function Key(m: Member): string {
    Lower(m.name)
  }

  /** `self.findIndex(m => m.name.toLowerCase() === k)`: the first position with key `k`, or -1. */
  function FindIndex(self: seq<Member>, k: string): (r: int)
    ensures -1 <= r < |self|
    ensures r >= 0 ==> Key(self[r]) == k
    ensures r >= 0 ==> forall j :: 0 <= j < r ==> Key(self[j]) != k
    ensures r == -1 ==> forall j :: 0 <= j < |self| ==> Key(self[j]) != k
  {
    if self == [] then -1
    else if Key(self[0]) == k then 0
    else
      var r := FindIndex(self[1..], k);
      if r == -1 then -1 else r + 1
  }

  /**
   * `self.filter((m, index) => index === FindIndex(self, Key(m)))`, from
   * position `i` on: the members that are the first of their key.
   */
  function KeepFirstsFrom(self: seq<Member>, i: nat): seq<Member>
    requires i <= |self|
    decreases |self| - i
  {
    if i == |self| then []
    else (if FindIndex(self, Key(self[i])) == i then [self[i]] else []) + KeepFirstsFrom(self, i + 1)
  }

  /** Step 3: drop case-insensitive duplicate names, keeping the first. */
  function Dedupe(self: seq<Member>): seq<Member> {
    KeepFirstsFrom(self, 0)
  }

  /** Every member kept from position `i` on is the first of its key, at or after `i`. */
  lemma {:induction false} KeptAreFirsts(self: seq<Member>, i: nat)
    requires i <= |self|
    decreases |self| - i
    ensures forall x :: x in KeepFirstsFrom(self, i) ==>
      i <= FindIndex(self, Key(x)) && self[FindIndex(self, Key(x))] == x
  {
    if i < |self| {
      KeptAreFirsts(self, i + 1);
    }
  }

  /** The members of `r` appear in `self` in the order of their first positions. */
  predicate InFirstOrder(self: seq<Member>, r: seq<Member>) {
    forall p, q :: 0 <= p < q < |r| ==> FindIndex(self, Key(r[p])) < FindIndex(self, Key(r[q]))
  }

  /** A member whose first position precedes every first position in an ordered list can lead it. */
  lemma PrependInFirstOrder(self: seq<Member>, m: Member, rest: seq<Member>)
    requires InFirstOrder(self, rest)
    requires forall j :: 0 <= j < |rest| ==> FindIndex(self, Key(m)) < FindIndex(self, Key(rest[j]))
    ensures InFirstOrder(self, [m] + rest)
  {
    var r := [m] + rest;
    forall p, q | 0 <= p < q < |r|
      ensures FindIndex(self, Key(r[p])) < FindIndex(self, Key(r[q]))
    {
      assert r[q] == rest[q - 1];
      if p > 0 {
        assert r[p] == rest[p - 1];
      }
    }
  }

  /** The members kept from position `i` on appear in the order of their first positions. */
  lemma {:induction false} KeptOrdered(self: seq<Member>, i: nat)
    requires i <= |self|
    decreases |self| - i
    ensures InFirstOrder(self, KeepFirstsFrom(self, i))
  {
    if i < |self| {
      KeptOrdered(self, i + 1);
      KeptAreFirsts(self, i + 1);
      var rest := KeepFirstsFrom(self, i + 1);
      if FindIndex(self, Key(self[i])) == i {
        forall j | 0 <= j < |rest| ensures i < FindIndex(self, Key(rest[j])) {
          assert rest[j] in rest;
        }
        PrependInFirstOrder(self, self[i], rest);
      }
    }
  }

  /** The members kept have pairwise different keys. */
  lemma KeptDistinct(self: seq<Member>, i: nat)
    requires i <= |self|
    ensures Distinct(KeepFirstsFrom(self, i))
  {
    KeptOrdered(self, i);
  }

  /** No two members have names that are equal after lower-casing. */
  predicate Distinct(s: seq<Member>) {
    forall p, q :: 0 <= p < q < |s| ==> Key(s[p]) != Key(s[q])
  }

  /** The first member of every key found from position `i` on is kept. */
  lemma {:induction false} KeptCovers(self: seq<Member>, i: nat)
    requires i <= |self|
    decreases |self| - i
    ensures forall j :: i <= j < |self| && i <= FindIndex(self, Key(self[j])) ==>
      self[FindIndex(self, Key(self[j]))] in KeepFirstsFrom(self, i)
  {
    if i < |self| {
      KeptCovers(self, i + 1);
      var r := KeepFirstsFrom(self, i);
      var rest := KeepFirstsFrom(self, i + 1);
      assert r == (if FindIndex(self, Key(self[i])) == i then [self[i]] else []) + rest;
      forall j | i <= j < |self| && i <= FindIndex(self, Key(self[j]))
        ensures self[FindIndex(self, Key(self[j]))] in r
      {
        var f := FindIndex(self, Key(self[j]));
        if f == i {
          assert Key(self[i]) == Key(self[j]);
          assert r[0] == self[i];
        } else {
          assert i + 1 <= f <= j;
          assert self[f] in rest;
        }
      }
    }
  }

  /** The members kept from a sorted list are still sorted. */
  lemma KeptSorted(self: seq<Member>, i: nat)
    requires i <= |self|
    requires SortedByName(self)
    ensures SortedByName(KeepFirstsFrom(self, i))
  {
    var r := KeepFirstsFrom(self, i);
    KeptOrdered(self, i);
    KeptAreFirsts(self, i);
    forall p, q | 0 <= p < q < |r| ensures NameLe(r[p], r[q]) {
      assert r[p] in r && r[q] in r;
      var a, b := FindIndex(self, Key(r[p])), FindIndex(self, Key(r[q]));
      assert self[a] == r[p] && self[b] == r[q] && a < b;
    }
  }

  /** Step 4: rows are numbered 1..n in list order. */
  function Reindex(s: seq<Member>): (r: seq<Member>)
    ensures |r| == |s|
    ensures forall k :: 0 <= k < |r| ==> r[k] == s[k].(index := k + 1)
  {
    seq(|s|, k requires 0 <= k < |s| => s[k].(index := k + 1))
  }

  /** The whole pipeline applied to the members fetched from the registry. */
  function Normalize(data: seq<Member>): seq<Member> {
    Reindex(Dedupe(SortByName(WithNames(data))))
  }

  /** Every member of the named list carries its display name. */
  lemma NamedCarryDisplayName(data: seq<Member>, x: Member)
    requires x in multiset(WithNames(data))
    ensures x.name == DisplayName(x)
  {
    var named := WithNames(data);
    assert x in named;
    var j :| 0 <= j < |named| && named[j] == x;
  }

  /** The de-duplicated list of a sorted list is sorted, free of duplicate keys and keeps the first of every key. */
  lemma DedupeCorrect(sorted: seq<Member>)
    requires SortedByName(sorted)
    ensures var d := Dedupe(sorted);
      && SortedByName(d)
      && (forall p, q :: 0 <= p < q < |d| ==> Key(d[p]) != Key(d[q]))
      && (forall x :: x in d ==> 0 <= FindIndex(sorted, Key(x)) && sorted[FindIndex(sorted, Key(x))] == x)
      && (forall j :: 0 <= j < |sorted| ==> sorted[FindIndex(sorted, Key(sorted[j]))] in d)
  {
    KeptAreFirsts(sorted, 0);
    KeptDistinct(sorted, 0);
    KeptCovers(sorted, 0);
    KeptSorted(sorted, 0);
    forall j | 0 <= j < |sorted|
      ensures 0 <= FindIndex(sorted, Key(sorted[j])) && sorted[FindIndex(sorted, Key(sorted[j]))] in Dedupe(sorted)
    {
      assert 0 <= FindIndex(sorted, Key(sorted[j]));
    }
  }

  /** Rows are numbered 1..n and every row carries its display name. */
  lemma NormalizeRows(data: seq<Member>)
    ensures var r := Normalize(data);
      && (forall k :: 0 <= k < |r| ==> r[k].index == k + 1)
      && (forall k :: 0 <= k < |r| ==> r[k].name == DisplayName(r[k]))
  {
    var named := WithNames(data);
    var sorted := SortByName(named);
    var d := Dedupe(sorted);
    var r := Normalize(data);
    SortByNameCorrect(named);
    KeptAreFirsts(sorted, 0);
    forall k | 0 <= k < |r| ensures r[k].name == DisplayName(r[k]) {
      assert d[k] in d;
      assert d[k] in multiset(sorted);
      NamedCarryDisplayName(data, d[k]);
    }
  }

  /** The list is sorted by name and no two names are equal after lower-casing. */
  lemma NormalizeOrderedDistinct(data: seq<Member>)
    ensures var r := Normalize(data);
      && SortedByName(r)
      && (forall p, q :: 0 <= p < q < |r| ==> Key(r[p]) != Key(r[q]))
  {
    var sorted := SortByName(WithNames(data));
    var d := Dedupe(sorted);
    var r := Normalize(data);
    SortByNameCorrect(WithNames(data));
    DedupeCorrect(sorted);
    forall p, q | 0 <= p < q < |r| ensures Key(r[p]) != Key(r[q]) && NameLe(r[p], r[q]) {
      assert Key(r[p]) == Key(d[p]) && Key(r[q]) == Key(d[q]);
    }
  }

  /**
   * Every row is the first member, in sorted order, of its case-insensitive
   * group, and every fetched member's group has a row.
   */
  lemma NormalizeKeepsFirsts(data: seq<Member>)
    ensures var sorted := SortByName(WithNames(data));
      var r := Normalize(data);
      && multiset(sorted) == multiset(WithNames(data))
      && (forall k :: 0 <= k < |r| ==>
            0 <= FindIndex(sorted, Key(r[k])) && r[k] == sorted[FindIndex(sorted, Key(r[k]))].(index := k + 1))
      && (forall j :: 0 <= j < |sorted| ==> exists k :: 0 <= k < |r| && Key(r[k]) == Key(sorted[j]))
  {
    var sorted := SortByName(WithNames(data));
    var d := Dedupe(sorted);
    var r := Normalize(data);
    SortByNameCorrect(WithNames(data));
    DedupeCorrect(sorted);
    forall k | 0 <= k < |r|
      ensures 0 <= FindIndex(sorted, Key(r[k])) && r[k] == sorted[FindIndex(sorted, Key(r[k]))].(index := k + 1)
    {
      assert d[k] in d;
      assert Key(r[k]) == Key(d[k]);
    }
    forall j | 0 <= j < |sorted| ensures exists k :: 0 <= k < |r| && Key(r[k]) == Key(sorted[j]) {
      var f := FindIndex(sorted, Key(sorted[j]));
      assert sorted[f] in d;
      var k :| 0 <= k < |d| && d[k] == sorted[f];
      assert Key(r[k]) == Key(d[k]);
    }
  }

  // ---------------------------------------------------------------------
  // Totals, paid count and the merge of an edited member.
  // ---------------------------------------------------------------------

  function SumPaid(ms: seq<Member>): int {
    if ms == [] then 0 else SumPaid(ms[..|ms| - 1]) + ms[|ms| - 1].paid_amount
  }

  function SumSponsored(ms: seq<Member>): int {
    if ms == [] then 0 else SumSponsored(ms[..|ms| - 1]) + ms[|ms| - 1].sponsored_amount
  }

  /** `calculateAccountedMoney`'s fold: both running totals start at 0 and grow member by member. */
  method AccountedMoney(ms: seq<Member>) returns (totals: Totals)
    ensures totals == Totals(SumPaid(ms), SumSponsored(ms))
  {
    var totalPaid, totalSponsored := 0, 0;
    var i := 0;
    while i < |ms|
      invariant 0 <= i <= |ms|
      invariant totalPaid == SumPaid(ms[..i])
      invariant totalSponsored == SumSponsored(ms[..i])
    {
      assert ms[..i + 1][..i] == ms[..i];
      totalPaid := totalPaid + ms[i].paid_amount;
      totalSponsored := totalSponsored + ms[i].sponsored_amount;
      i := i + 1;
    }
    assert ms[..i] == ms;
    totals := Totals(totalPaid, totalSponsored);
  }

  /** The totals of a concatenation are the sums of the parts' totals. */
  lemma {:induction false} SumsAppend(a: seq<Member>, b: seq<Member>)
    ensures SumPaid(a + b) == SumPaid(a) + SumPaid(b)
    ensures SumSponsored(a + b) == SumSponsored(a) + SumSponsored(b)
  {
    if b == [] {
      assert a + b == a;
    } else {
      SumsAppend(a, b[..|b| - 1]);
      assert (a + b)[..|a + b| - 1] == a + b[..|b| - 1];
    }
  }

  predicate IsPaid(m: Member) {
    m.status == Paid || m.status == Sponsored
  }

  /** `members.filter(m => m.status === "paid" || m.status === "sponsored")`. */
  function PaidMembers(ms: seq<Member>): (r: seq<Member>)
    ensures |r| <= |ms|
    ensures forall x :: x in r ==> x in ms && IsPaid(x)
  {
    if ms == [] then []
    else PaidMembers(ms[..|ms| - 1]) + (if IsPaid(ms[|ms| - 1]) then [ms[|ms| - 1]] else [])
  }

  /** The paid-member count: the number of positions holding a paid or sponsored member. */
  lemma {:induction false} PaidCountIsPositions(ms: seq<Member>)
    ensures |PaidMembers(ms)| == |set i | 0 <= i < |ms| && IsPaid(ms[i])|
  {
    if ms != [] {
      var n := |ms| - 1;
      PaidCountIsPositions(ms[..n]);
      var front := set i | 0 <= i < |ms[..n]| && IsPaid(ms[..n][i]);
      var all := set i | 0 <= i < |ms| && IsPaid(ms[i]);
      assert front == set i | 0 <= i < n && IsPaid(ms[i]);
      if IsPaid(ms[n]) {
        assert all == front + {n};
      } else {
        assert all == front;
      }
    }
  }

  /** One member overwritten by the server's answer: the seven returned fields are taken, the rest kept. */
  function Merged(m: Member, data: Member): (r: Member)
    ensures r.id == m.id && r.index == m.index
    ensures r.email == m.email && r.mobile_number == m.mobile_number
    ensures r.captured_status == m.captured_status && r.captured_at_timestamp == m.captured_at_timestamp
    ensures r.name == data.name && r.first_name == data.first_name && r.last_name == data.last_name
    ensures r.batch_year == data.batch_year && r.status == data.status
    ensures r.paid_amount == data.paid_amount && r.sponsored_amount == data.sponsored_amount
  {
    m.(name := data.name, first_name := data.first_name, last_name := data.last_name,
       batch_year := data.batch_year, status := data.status,
       paid_amount := data.paid_amount, sponsored_amount := data.sponsored_amount)
  }

  /** The members as changed by the server's answer to an update: the members with the answer's id are merged, the others kept. */
  function MergeUpdated(ms: seq<Member>, data: Member): (r: seq<Member>)
    ensures |r| == |ms|
    ensures forall k :: 0 <= k < |ms| && ms[k].id != data.id ==> r[k] == ms[k]
    ensures forall k :: 0 <= k < |ms| && ms[k].id == data.id ==> r[k] == Merged(ms[k], data)
  {
    seq(|ms|, k requires 0 <= k < |ms| => if ms[k].id == data.id then Merged(ms[k], data) else ms[k])
  }

  /** Applying the same answer twice changes nothing more. */
  lemma MergeUpdatedIdempotent(ms: seq<Member>, data: Member)
    ensures MergeUpdated(MergeUpdated(ms, data), data) == MergeUpdated(ms, data)
  {
  }

  /**
   * When exactly the member at position `k` carries the answer's id, the
   * totals move by the difference between the answer's amounts and that
   * member's old amounts.
   */
  lemma MergeUpdatedTotals(ms: seq<Member>, data: Member, k: nat)
    requires k < |ms| && ms[k].id == data.id
    requires forall j :: 0 <= j < |ms| && j != k ==> ms[j].id != data.id
    ensures SumPaid(MergeUpdated(ms, data)) == SumPaid(ms) - ms[k].paid_amount + data.paid_amount
    ensures SumSponsored(MergeUpdated(ms, data)) == SumSponsored(ms) - ms[k].sponsored_amount + data.sponsored_amount
  {
    MergeUpdatedOnlyAt(ms, data, k);
    SumsAt(ms, k);
    SumsAt(MergeUpdated(ms, data), k);
  }

  /** With one member carrying the answer's id, the merge changes that position only. */
  lemma MergeUpdatedOnlyAt(ms: seq<Member>, data: Member, k: nat)
    requires k < |ms| && ms[k].id == data.id
    requires forall j :: 0 <= j < |ms| && j != k ==> ms[j].id != data.id
    ensures var r := MergeUpdated(ms, data);
      r[..k] == ms[..k] && r[k] == Merged(ms[k], data) && r[k + 1..] == ms[k + 1..]
  {
    var r := MergeUpdated(ms, data);
    assert r[..k] == ms[..k];
    assert r[k + 1..] == ms[k + 1..];
  }

  /** The totals of a list with the member at position `k` singled out. */
  lemma SumsAt(ms: seq<Member>, k: nat)
    requires k < |ms|
    ensures SumPaid(ms) == SumPaid(ms[..k]) + ms[k].paid_amount + SumPaid(ms[k + 1..])
    ensures SumSponsored(ms) == SumSponsored(ms[..k]) + ms[k].sponsored_amount + SumSponsored(ms[k + 1..])
  {
    assert ms == ms[..k + 1] + ms[k + 1..];
    SumsAppend(ms[..k + 1], ms[k + 1..]);
    assert ms[..k + 1][..k] == ms[..k];
  }

  // ---------------------------------------------------------------------
  // The component's state.
  // ---------------------------------------------------------------------

  class DashboardState {
    var members: seq<Member>
    var fetching: bool
    var member: Option<Member>
    var openEditing: bool
    var isUpdating: bool
    var totals: Totals

    constructor ()
      ensures members == [] && !fetching && member == None && !openEditing && !isUpdating
      ensures totals == Totals(0, 0)
    {
      members := [];
      fetching := false;
      member := None;
      openEditing := false;
      isUpdating := false;
      totals := Totals(0, 0);
    }

    /** The effect on `members`: totals are recomputed only for a non-empty list. */
    method MembersChanged()
      modifies this`totals
      ensures members != [] ==> totals == Totals(SumPaid(members), SumSponsored(members))
      ensures members == [] ==> totals == old(totals)
    {
      if |members| > 0 {
        totals := AccountedMoney(members);
      }
    }

    /** `fetchMembers` up to the request. */
    method BeginFetchMembers()
      modifies this`fetching
      ensures fetching
    {
      fetching := true;
    }

    /**
     * `fetchMembers` after the request. There is no catch: a failed request
     * leaves everything as it was, `fetching` included.
     */
    method FinishFetchMembers(response: Response<seq<Member>>)
      modifies this`fetching, this`members, this`totals
      ensures response.Ok? ==> !fetching && members == Normalize(response.data)
      ensures response.Ok? && members != [] ==> totals == Totals(SumPaid(members), SumSponsored(members))
      ensures response.Ok? && members == [] ==> totals == old(totals)
      ensures !response.Ok? ==> fetching == old(fetching) && members == old(members) && totals == old(totals)
    {
      if response.Ok? {
        fetching := false;
        members := Normalize(response.data);
        MembersChanged();
      }
    }

    /** `onStatusUpdate` up to the request. */
    method BeginStatusUpdate()
      modifies this`isUpdating
      ensures isUpdating
    {
      isUpdating := true;
    }

    /**
     * `onStatusUpdate` after the request: a 200 answer selects the returned
     * member and merges it into the list; any other outcome changes nothing
     * but `isUpdating`, which ends false either way.
     */
    method FinishStatusUpdate(response: Response<Member>)
      modifies this`member, this`openEditing, this`members, this`totals, this`isUpdating
      ensures !isUpdating
      ensures response.Ok? && response.status == 200 ==>
        && member == Some(response.data) && openEditing
        && members == MergeUpdated(old(members), response.data)
        && (members != [] ==> totals == Totals(SumPaid(members), SumSponsored(members)))
        && (members == [] ==> totals == old(totals))
      ensures !(response.Ok? && response.status == 200) ==>
        member == old(member) && openEditing == old(openEditing)
        && members == old(members) && totals == old(totals)
    {
      if response.Ok? && response.status == 200 {
        member := Some(response.data);
        openEditing := true;
        members := MergeUpdated(members, response.data);
        MembersChanged();
      }
      isUpdating := false;
    }
  }
}
