/** The paginated, filtered user list against the plain filtered list. The table is one snapshot, listed
    in the order the query asks for. */
module Pagination {
  import opened Domain
  import Schemas

  datatype UserRow = UserRow(id: Uuid, email: string, username: string, role: Role)

  datatype Where = Where(search: Option<string>, role: Option<Role>)

  datatype Page = Page(data: seq<UserRow>, page: nat, limit: nat, total: nat, totalPages: nat)

  /** `contains` with `mode: 'insensitive'`. */
  predicate Contains(text: string, part: string) {
    exists k :: 0 <= k <= |text| - |part| && OccursAt(text, part, k)
  }

  predicate OccursAt(text: string, part: string, k: int) requires 0 <= k <= |text| - |part| {
    Schemas.Lower(text)[k..k + |part|] == Schemas.Lower(part)
  }

  predicate Matches(cond: Where, row: UserRow) {
    && (cond.search.Some? ==> Contains(row.email, cond.search.value) || Contains(row.username, cond.search.value))
    && (cond.role.Some? ==> row.role == cond.role.value)
  }

  /** The rows that satisfy the condition, in table order: what `findMany` and `count` work on. */
  function Filter(rows: seq<UserRow>, cond: Where): (kept: seq<UserRow>)
    ensures forall row :: row in kept <==> row in rows && Matches(cond, row)
  {
    if rows == [] then []
    else
      var rest := Filter(rows[1..], cond);
      if Matches(cond, rows[0]) then [rows[0]] + rest else rest
  }

  function Min(a: nat, b: nat): nat { if a < b then a else b }

  /** `findMany` with `skip` and `take`. */
  function FindMany(rows: seq<UserRow>, cond: Where, skip: nat, take: nat): seq<UserRow> {
    var found := Filter(rows, cond);
    found[Min(skip, |found|)..Min(skip + take, |found|)]
  }

  /** `Math.ceil(total / limit)`. */
  function CeilDiv(total: nat, limit: nat): nat requires limit > 0 { (total + limit - 1) / limit }

  // ---- the reference: the plain list, and its pages ----

  /** Some stretch of the text equals the term but for the case of letters. */
  ghost predicate Found(text: string, term: string) {
    exists before, stretch, after :: SplitsAt(text, before, stretch, after) && Schemas.CaseVariant(stretch, term)
  }

  ghost predicate SplitsAt(text: string, before: string, stretch: string, after: string) {
    text == before + stretch + after
  }

  /** What a query asks for: an absent or empty search term, or an absent role, filters nothing. */
  ghost predicate Wanted(search: Option<string>, role: Option<Role>, row: UserRow) {
    && (search.None? || search.value == "" || Found(row.email, search.value) || Found(row.username, search.value))
    && (role.None? || row.role == role.value)
  }

  /** The plain filtered list, in table order. */
  ghost function Listed(rows: seq<UserRow>, search: Option<string>, role: Option<Role>): seq<UserRow> {
    if rows == [] then []
    else (if Wanted(search, role, rows[0]) then [rows[0]] else []) + Listed(rows[1..], search, role)
  }

  function PageOf(list: seq<UserRow>, page: nat, limit: nat): Page
    requires page >= 1 && limit >= 1
  {
    Page(list[Min((page - 1) * limit, |list|)..Min((page - 1) * limit + limit, |list|)], page, limit, |list|,
         CeilDiv(|list|, limit))
  }

  lemma LowerOfSlice(text: string, i: nat, j: nat)
    requires i <= j <= |text|
    ensures Schemas.Lower(text)[i..j] == Schemas.Lower(text[i..j])
  {
  }

  /** `contains` finds exactly the texts with a stretch that is a case variant of the term. */
  lemma ContainsIffFound(text: string, term: string)
    ensures Contains(text, term) <==> Found(text, term)
  {
    if Contains(text, term) {
      var k :| 0 <= k <= |text| - |term| && OccursAt(text, term, k);
      var stretch := text[k..k + |term|];
      LowerOfSlice(text, k, k + |term|);
      Schemas.LowerIffCaseVariant(stretch, term);
      assert SplitsAt(text, text[..k], stretch, text[k + |term|..]);
    }
    if before, stretch, after :| SplitsAt(text, before, stretch, after) && Schemas.CaseVariant(stretch, term) {
      var k := |before|;
      assert text[k..k + |term|] == stretch;
      LowerOfSlice(text, k, k + |term|);
      Schemas.LowerIffCaseVariant(stretch, term);
      assert OccursAt(text, term, k);
    }
  }

  lemma MatchesIsWanted(cond: Where, search: Option<string>, role: Option<Role>)
    requires cond.role == role && cond.search == if search == Some("") then None else search
    ensures forall row :: Matches(cond, row) <==> Wanted(search, role, row)
  {
    if search.Some? {
      forall row: UserRow
        ensures Contains(row.email, search.value) <==> Found(row.email, search.value)
        ensures Contains(row.username, search.value) <==> Found(row.username, search.value)
      {
        ContainsIffFound(row.email, search.value);
        ContainsIffFound(row.username, search.value);
      }
    }
  }

  lemma {:induction false} FilterIsListed(rows: seq<UserRow>, cond: Where, search: Option<string>, role: Option<Role>)
    requires forall row :: Matches(cond, row) <==> Wanted(search, role, row)
    ensures Filter(rows, cond) == Listed(rows, search, role)
  {
    if rows != [] { FilterIsListed(rows[1..], cond, search, role); }
  }

  /** `at` runs upwards through the table and meets every row that satisfies the condition, once, and no
      other; `found` are the rows it meets. */
  ghost predicate Picks(rows: seq<UserRow>, cond: Where, found: seq<UserRow>, at: seq<nat>) {
    && |at| == |found|
    && (forall k :: 0 <= k < |at| ==> at[k] < |rows| && found[k] == rows[at[k]])
    && (forall j, k :: 0 <= j < k < |at| ==> at[j] < at[k])
    && (forall i :: 0 <= i < |rows| ==> (Matches(cond, rows[i]) <==> i in at))
  }

  function Up(at: seq<nat>): (moved: seq<nat>)
    ensures |moved| == |at| && forall k :: 0 <= k < |at| ==> moved[k] == at[k] + 1
  {
    seq(|at|, k requires 0 <= k < |at| => at[k] + 1)
  }

  lemma UpMoves(at: seq<nat>, i: nat)
    ensures i in Up(at) <==> i > 0 && i - 1 in at
  {
    if i > 0 && i - 1 in at {
      var k :| 0 <= k < |at| && at[k] == i - 1;
      assert Up(at)[k] == i;
    }
  }

  lemma PicksDropped(rows: seq<UserRow>, cond: Where, found: seq<UserRow>, at: seq<nat>)
    requires rows != [] && Picks(rows[1..], cond, found, at) && !Matches(cond, rows[0])
    ensures Picks(rows, cond, found, Up(at))
  {
    forall i | 0 <= i < |rows| ensures Matches(cond, rows[i]) <==> i in Up(at) {
      UpMoves(at, i);
      if i > 0 { assert rows[1..][i - 1] == rows[i]; }
    }
  }

  lemma PicksTaken(rows: seq<UserRow>, cond: Where, found: seq<UserRow>, at: seq<nat>)
    requires rows != [] && Picks(rows[1..], cond, found, at) && Matches(cond, rows[0])
    ensures Picks(rows, cond, [rows[0]] + found, [0] + Up(at))
  {
    var at', found' := [0] + Up(at), [rows[0]] + found;
    forall k | 0 <= k < |at'| ensures at'[k] < |rows| && found'[k] == rows[at'[k]] {
      if k > 0 { assert found[k - 1] == rows[1..][at[k - 1]]; }
    }
    forall j, k | 0 <= j < k < |at'| ensures at'[j] < at'[k] {
      if j > 0 { assert at[j - 1] < at[k - 1]; }
    }
    TakenMeetsAll(rows, cond, found, at);
  }

  lemma TakenMeetsAll(rows: seq<UserRow>, cond: Where, found: seq<UserRow>, at: seq<nat>)
    requires rows != [] && Picks(rows[1..], cond, found, at) && Matches(cond, rows[0])
    ensures forall i :: 0 <= i < |rows| ==> (Matches(cond, rows[i]) <==> i in [0] + Up(at))
  {
    forall i | 0 <= i < |rows| ensures Matches(cond, rows[i]) <==> i in [0] + Up(at) {
      UpMoves(at, i);
      if i > 0 { assert rows[1..][i - 1] == rows[i]; }
    }
  }

  /** The rows found are the rows that satisfy the condition, each as often and in the order as in the
      table. */
  lemma {:induction false} FilterPicks(rows: seq<UserRow>, cond: Where) returns (at: seq<nat>)
    ensures Picks(rows, cond, Filter(rows, cond), at)
  {
    if rows == [] {
      at := [];
    } else {
      var rest := FilterPicks(rows[1..], cond);
      if Matches(cond, rows[0]) {
        PicksTaken(rows, cond, Filter(rows[1..], cond), rest);
        at := [0] + Up(rest);
      } else {
        PicksDropped(rows, cond, Filter(rows[1..], cond), rest);
        at := Up(rest);
      }
    }
  }

  /** `getUsers`: builds the condition step by step, then reads one page and the count. */
  method GetUsers(rows: seq<UserRow>, page: nat, limit: nat, search: Option<string>, role: Option<Role>)
    returns (result: Page)
    requires page >= 1 && limit >= 1
    ensures result == PageOf(Listed(rows, search, role), page, limit)
  {
    var skip := (page - 1) * limit;
    var cond := Where(None, None);
    if search.Some? && search.value != "" { cond := cond.(search := search); }
    if role.Some? { cond := cond.(role := role); }
    var data := FindMany(rows, cond, skip, limit);
    var total := |Filter(rows, cond)|;
    MatchesIsWanted(cond, search, role);
    FilterIsListed(rows, cond, search, role);
    result := Page(data, page, limit, total, CeilDiv(total, limit));
  }

  function Pages(list: seq<UserRow>, limit: nat, upTo: nat): seq<UserRow> requires limit >= 1 {
    if upTo == 0 then [] else Pages(list, limit, upTo - 1) + PageOf(list, upTo, limit).data
  }

  lemma NextPage(list: seq<UserRow>, skip: nat, limit: nat)
    ensures list[..Min(skip, |list|)] + list[Min(skip, |list|)..Min(skip + limit, |list|)]
         == list[..Min(skip + limit, |list|)]
  {
  }

  lemma {:induction false} PagesArePrefix(list: seq<UserRow>, limit: nat, n: nat)
    requires limit >= 1
    ensures Pages(list, limit, n) == list[..Min(n * limit, |list|)]
  {
    if n > 0 {
      PagesArePrefix(list, limit, n - 1);
      assert (n - 1) * limit + limit == n * limit;
      NextPage(list, (n - 1) * limit, limit);
    }
  }

  lemma CeilDivBounds(total: nat, limit: nat)
    requires limit >= 1
    ensures total <= CeilDiv(total, limit) * limit < total + limit
  {
    var q := CeilDiv(total, limit);
    assert total + limit - 1 == q * limit + (total + limit - 1) % limit;
  }

  /** Pages 1 to `totalPages` laid end to end are the filtered list, no row lost or repeated. */
  lemma {:induction false} PagesPartitionTheList(list: seq<UserRow>, limit: nat)
    requires limit >= 1
    ensures Pages(list, limit, PageOf(list, 1, limit).totalPages) == list
  {
    PagesArePrefix(list, limit, CeilDiv(|list|, limit));
    CeilDivBounds(|list|, limit);
  }

  lemma TimesMonotone(a: nat, b: nat, limit: nat)
    requires a <= b
    ensures a * limit <= b * limit
  {
    assert b * limit == a * limit + (b - a) * limit;
  }

  /** Every page before the last is full, the last one is not empty, later ones are, and all report the
      same totals. */
  lemma {:induction false} PageSizes(list: seq<UserRow>, limit: nat, page: nat)
    requires limit >= 1 && page >= 1
    ensures var p := PageOf(list, page, limit);
      && p.total == |list| && p.totalPages == PageOf(list, 1, limit).totalPages
      && (page < p.totalPages ==> |p.data| == limit)
      && (page == p.totalPages ==> 1 <= |p.data| <= limit)
      && (page > p.totalPages ==> p.data == [])
  {
    var q := CeilDiv(|list|, limit);
    CeilDivBounds(|list|, limit);
    assert (page - 1) * limit + limit == page * limit;
    assert (q - 1) * limit + limit == q * limit;
    if page < q { TimesMonotone(page, q - 1, limit); }
    if page > q { TimesMonotone(q, page - 1, limit); }
  }
}
