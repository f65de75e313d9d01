/**
 Pages of a result set: the size a server uses, the links it announces, what following
 them visits, and what a client reads that asks page after page.
 */
module Pagination {
  import opened Common
  import opened Naming

  const DEFAULT_LIMIT := 25
  const MAX_LIMIT := 100
  const UNLIMITED := 0

  /** The page size for what a client asked for; a `maximum` of zero imposes none. */
  function ClampLimit(limit: Option<int>, maximum: nat, default: nat): (size: nat)
    ensures maximum > 0 && default <= maximum ==> size <= maximum
    ensures default > 0 ==> size > 0
    ensures limit.Some? && 0 < limit.value ==>
      size == if maximum == 0 || limit.value <= maximum then limit.value else maximum
    ensures limit.None? || limit.value <= 0 ==> size == default
  {
    match limit
    case None => default
    case Some(n) =>
      if maximum != 0 && n > maximum then maximum
      else if n <= 0 then default
      else n
  }

  // ------------------------------------------------------------------ links

  type Query = seq<(string, string)>

  datatype Rel = First | Prev | Next | Last

  function Preserved(query: Query): Query {
    if query == [] then []
    else if query[0].0 == "start" || query[0].0 == "limit" then Preserved(query[1..])
    else [query[0]] + Preserved(query[1..])
  }

  /** The parameters of a page's address: the others as they were, then the limit and the start. */
  function PageQuery(query: Query, start: nat, limit: nat): Query {
    Preserved(query) + [("limit", Decimal(limit))] + if start == 0 then [] else [("start", Decimal(start))]
  }

  /** The last value given for a parameter. */
  function Parameter(query: Query, name: string): Option<string> {
    if query == [] then None
    else if query[|query| - 1].0 == name then Some(query[|query| - 1].1)
    else Parameter(query[..|query| - 1], name)
  }

  /** Where a page's address says the page starts. */
  function StartOf(query: Query): Option<nat> {
    match Parameter(query, "start")
    case None => Some(0)
    case Some(digits) => DecimalValue(digits)
  }

  function LimitOf(query: Query): Option<nat> {
    match Parameter(query, "limit")
    case None => None
    case Some(digits) => DecimalValue(digits)
  }

  lemma {:induction false} PreservedHasNeither(query: Query)
    ensures Parameter(Preserved(query), "start") == None && Parameter(Preserved(query), "limit") == None
    ensures forall p :: p in Preserved(query) <==> p in query && p.0 != "start" && p.0 != "limit"
  {
    if query != [] {
      PreservedHasNeither(query[1..]);
      assert forall p :: p in query <==> p == query[0] || p in query[1..];
      if query[0].0 != "start" && query[0].0 != "limit" {
        ParameterPrepended(query[0], Preserved(query[1..]), "start");
        ParameterPrepended(query[0], Preserved(query[1..]), "limit");
      }
    }
  }

  lemma {:induction false} ParameterPrepended(first: (string, string), query: Query, name: string)
    requires first.0 != name
    ensures Parameter([first] + query, name) == Parameter(query, name)
    decreases |query|
  {
    var all := [first] + query;
    if query == [] {
      assert all[..|all| - 1] == [];
    } else {
      assert all[..|all| - 1] == [first] + query[..|query| - 1];
      ParameterPrepended(first, query[..|query| - 1], name);
    }
  }

  /** A page's address says where it starts and how many it holds, and keeps what else was asked. */
  lemma PageQueryReadsBack(query: Query, start: nat, limit: nat)
    ensures StartOf(PageQuery(query, start, limit)) == Some(start)
    ensures LimitOf(PageQuery(query, start, limit)) == Some(limit)
    ensures Preserved(PageQuery(query, start, limit)) == Preserved(query)
  {
    hide Decimal;
    PreservedHasNeither(query);
    DecimalReadsBack(start);
    DecimalReadsBack(limit);
    var kept := Preserved(query);
    var sized := kept + [("limit", Decimal(limit))];
    assert sized[..|sized| - 1] == kept;
    if start == 0 {
      assert PageQuery(query, start, limit) == sized;
    } else {
      var page := sized + [("start", Decimal(start))];
      assert PageQuery(query, start, limit) == page && page[..|page| - 1] == sized;
      assert "start"[0] != "limit"[0];
      assert Parameter(page, "limit") == Parameter(sized, "limit");
    }
    PreservedAgain(query, [("limit", Decimal(limit))] + if start == 0 then [] else [("start", Decimal(start))]);
    assert PageQuery(query, start, limit)
        == kept + ([("limit", Decimal(limit))] + if start == 0 then [] else [("start", Decimal(start))]);
  }

  lemma {:induction false} PreservedAgain(query: Query, more: Query)
    requires forall i :: 0 <= i < |more| ==> more[i].0 == "start" || more[i].0 == "limit"
    ensures Preserved(Preserved(query) + more) == Preserved(query)
    decreases |query|
  {
    var kept := Preserved(query);
    if query == [] {
      assert kept + more == more;
      NonePreserved(more);
    } else if query[0].0 == "start" || query[0].0 == "limit" {
      PreservedAgain(query[1..], more);
    } else {
      assert (kept + more)[0] == query[0] && (kept + more)[1..] == Preserved(query[1..]) + more;
      PreservedAgain(query[1..], more);
    }
  }

  lemma {:induction false} NonePreserved(query: Query)
    requires forall i :: 0 <= i < |query| ==> query[i].0 == "start" || query[i].0 == "limit"
    ensures Preserved(query) == []
  {
    if query != [] {
      NonePreserved(query[1..]);
    }
  }

  /** Where the last page of `total` results starts. */
  function LastStart(limit: nat, total: nat): nat
    requires limit > 0 && total > 0
  {
    ((total - 1) / limit) * limit
  }

  /** The pages a page announces, by where they start. */
  method BuildPageLinks(query: Query, start: nat, limit: nat, total: nat) returns (links: map<Rel, Query>)
    ensures limit == UNLIMITED ==> links == map[]
    ensures limit != UNLIMITED ==>
      && (First in links <==> start > 0) && (Prev in links <==> start > 0)
      && (Next in links <==> start + limit < total) && (Last in links <==> start + limit < total)
    ensures First in links ==> StartOf(links[First]) == Some(0)
    ensures Prev in links ==> StartOf(links[Prev]) == Some(if start > limit then start - limit else 0)
    ensures Next in links ==> StartOf(links[Next]) == Some(start + limit)
    ensures limit > 0 && Last in links ==> StartOf(links[Last]) == Some(LastStart(limit, total))
    ensures forall rel :: rel in links ==>
      LimitOf(links[rel]) == Some(limit) && Preserved(links[rel]) == Preserved(query)
  {
    hide StartOf, LimitOf, PageQuery, Preserved;
    links := map[];
    if limit == UNLIMITED {
      return;
    }
    if start > 0 {
      PageQueryReadsBack(query, 0, limit);
      PageQueryReadsBack(query, if start > limit then start - limit else 0, limit);
      links := links[First := PageQuery(query, 0, limit)];
      links := links[Prev := PageQuery(query, if start > limit then start - limit else 0, limit)];
    }
    if total > 0 && start + limit < total {
      PageQueryReadsBack(query, start + limit, limit);
      PageQueryReadsBack(query, LastStart(limit, total), limit);
      links := links[Next := PageQuery(query, start + limit, limit)];
      links := links[Last := PageQuery(query, LastStart(limit, total), limit)];
    }
  }

  // -------------------------------------------------------------- following

  /** One page of the results; a size of zero is all of them. */
  function Page<T>(results: seq<T>, start: nat, size: nat): seq<T> {
    if start >= |results| then []
    else if size == UNLIMITED || start + size >= |results| then results[start..]
    else results[start..start + size]
  }

  /** Where the pages start that following `next` visits. */
  function Follow(start: nat, limit: nat, total: nat): seq<nat>
    requires limit > 0
    decreases total - start
  {
    [start] + if start + limit < total then Follow(start + limit, limit, total) else []
  }

  function Pages<T>(results: seq<T>, starts: seq<nat>, limit: nat): seq<T> {
    if starts == [] then [] else Page(results, starts[0], limit) + Pages(results, starts[1..], limit)
  }

  lemma PageThenRest<T>(results: seq<T>, start: nat, limit: nat, more: seq<nat>)
    requires limit > 0 && start <= |results|
    requires if start + limit < |results| then Pages(results, more, limit) == results[start + limit..]
             else more == []
    ensures Pages(results, [start] + more, limit) == results[start..]
  {
  }

  lemma {:induction false} FollowReads<T>(results: seq<T>, start: nat, limit: nat)
    requires limit > 0 && start <= |results|
    ensures Pages(results, Follow(start, limit, |results|), limit) == results[start..]
    decreases |results| - start
  {
    hide Pages;
    if start + limit < |results| {
      FollowReads(results, start + limit, limit);
      PageThenRest(results, start, limit, Follow(start + limit, limit, |results|));
    } else {
      PageThenRest(results, start, limit, []);
    }
  }

  lemma {:induction false} FollowEnds(k: nat, limit: nat, total: nat)
    requires limit > 0 && total > 0 && k * limit < total
    ensures var starts := Follow(k * limit, limit, total);
            starts[|starts| - 1] == LastStart(limit, total)
    decreases total - k * limit
  {
    var start := k * limit;
    assert (k + 1) * limit == start + limit;
    if start + limit < total {
      FollowEnds(k + 1, limit, total);
    } else {
      LastIs(k, limit, total);
    }
  }

  lemma LastIs(k: nat, limit: nat, total: nat)
    requires limit > 0 && total > 0 && k * limit < total <= k * limit + limit
    ensures LastStart(limit, total) == k * limit
  {
    var q, r := (total - 1) / limit, (total - 1) % limit;
    assert q * limit + r == total - 1;
    assert (q + 1) * limit == q * limit + limit && (k + 1) * limit == k * limit + limit;
    if q < k {
      TimesMonotone(q + 1, k, limit);
    } else if q > k {
      TimesMonotone(k + 1, q, limit);
    }
  }

  /**
   Following `next` from the first page visits pages that together are the results, each
   once and in order, and ends on the page that was announced as the last.
   */
  lemma FollowingPartitions<T>(results: seq<T>, limit: nat)
    requires limit > 0
    ensures var starts := Follow(0, limit, |results|);
            && Pages(results, starts, limit) == results
            && (results != [] ==> starts[|starts| - 1] == LastStart(limit, |results|))
  {
    FollowReads(results, 0, limit);
    if results != [] {
      assert 0 * limit == 0;
      FollowEnds(0, limit, |results|);
    }
  }

  /** Where the pages start that are left after the one at `start`. */
  function Later(start: nat, limit: nat, total: nat): seq<nat>
    requires limit > 0
  {
    if start + limit < total then Follow(start + limit, limit, total) else []
  }

  /** The results up to the end of the page at `start`. */
  function Upto<T>(results: seq<T>, start: nat, limit: nat): seq<T> {
    if start + limit < |results| then results[..start + limit] else results
  }

  lemma OnePageMore<T>(results: seq<T>, start: nat, limit: nat)
    requires limit > 0 && start + limit < |results|
    ensures Upto(results, start, limit) + Page(results, start + limit, limit) == Upto(results, start + limit, limit)
  {
  }

  lemma OneStartMore(starts: seq<nat>, start: nat, limit: nat, total: nat)
    requires limit > 0 && start + limit < total
    ensures (starts + [start + limit]) + Later(start + limit, limit, total) == starts + Later(start, limit, total)
  {
  }

  /** What a page tells a client: the next one's address, and the last one's while there is a next. */
  predicate Announces(links: map<Rel, Query>, start: nat, limit: nat, total: nat, last: Option<nat>) {
    && (Next in links <==> start + limit < total) && (Last in links <==> start + limit < total)
    && (Next in links ==> StartOf(links[Next]) == Some(start + limit) && LimitOf(links[Next]) == Some(limit))
    && (Last in links ==> StartOf(links[Last]) == last)
  }

  lemma FirstPage<T>(results: seq<T>, limit: nat)
    requires limit > 0
    ensures Page(results, 0, limit) == Upto(results, 0, limit)
    ensures [0] + Later(0, limit, |results|) == Follow(0, limit, |results|)
  {
  }

  lemma LastPage<T>(results: seq<T>, start: nat, limit: nat, starts: seq<nat>)
    requires limit > 0 && start + limit >= |results|
    requires starts + Later(start, limit, |results|) == Follow(0, limit, |results|)
    ensures Upto(results, start, limit) == results && starts == Follow(0, limit, |results|)
    ensures starts[|starts| - 1] == if limit < |results| then LastStart(limit, |results|) else 0
  {
    FollowingPartitions(results, limit);
    assert starts + [] == starts;
  }

  /**
   A client that is given the first page of `limit` results and goes on to the address of
   each `next` it is given, asking for what that address says. It gets every result once
   and in order, and stops on the page that every page before it announced as the last.
   */
  method FollowLinks<T>(results: seq<T>, query: Query, limit: nat)
    returns (all: seq<T>, starts: seq<nat>, announced: Option<nat>)
    requires limit > 0
    ensures all == results
    ensures starts == Follow(0, limit, |results|)
    ensures announced.Some? <==> limit < |results|
    ensures starts[|starts| - 1] == if announced.Some? then announced.value else 0
  {
    hide StartOf, LimitOf, PageQuery, Page, Follow, LastStart, Upto, Later;
    var address := PageQuery(query, 0, limit);
    PageQueryReadsBack(query, 0, limit);
    var start, size := StartOf(address).value, LimitOf(address).value;
    all, starts := Page(results, start, size), [start];
    FirstPage(results, limit);
    var links := BuildPageLinks(address, start, size, |results|);
    announced := if Last in links then StartOf(links[Last]) else None;
    while Next in links
      invariant size == limit && starts != [] && starts[|starts| - 1] == start
      invariant all == Upto(results, start, limit)
      invariant starts + Later(start, limit, |results|) == Follow(0, limit, |results|)
      invariant Announces(links, start, limit, |results|, announced)
      invariant limit < |results| ==> announced == Some(LastStart(limit, |results|))
      invariant limit >= |results| ==> announced == None
      decreases |results| - start
    {
      OnePageMore(results, start, limit);
      OneStartMore(starts, start, limit, |results|);
      address := links[Next];
      start, size := StartOf(address).value, LimitOf(address).value;
      all, starts := all + Page(results, start, size), starts + [start];
      links := BuildPageLinks(address, start, size, |results|);
    }
    LastPage(results, start, limit, starts);
  }

  // ------------------------------------------------------------------ client

  const PAGE := 100

  /**
   The client that asks for a hundred at a time until a page comes back short. It reads
   everything exactly when the server grants the hundred, or a single page holds it all.
   */
  method ReadPaged<T>(results: seq<T>, maximum: nat) returns (all: seq<T>)
    ensures maximum == 0 || maximum >= PAGE ==> all == results
    ensures 0 < maximum < PAGE ==> all == Page(results, 0, maximum)
    ensures all == results <==> maximum == 0 || maximum >= PAGE || |results| <= maximum
  {
    all := [];
    var start := 0;
    var size := ClampLimit(Some(PAGE), maximum, DEFAULT_LIMIT);
    while true
      invariant start > 0 ==> size == PAGE
      invariant size == if 0 < maximum < PAGE then maximum else PAGE
      invariant start <= |results| && all == results[..start]
      decreases |results| - start
    {
      var page := Page(results, start, size);
      all := all + page;
      if |page| < PAGE {
        assert start + |page| <= |results| && all == results[..start + |page|];
        return;
      }
      start := start + PAGE;
    }
  }

  /** The server's own maximum grants what the client asks for. */
  lemma HundredSurvives()
    ensures ClampLimit(Some(PAGE), MAX_LIMIT, DEFAULT_LIMIT) == PAGE
  {
  }
}
