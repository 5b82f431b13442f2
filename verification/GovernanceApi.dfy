/** Bounded pagination of the API, and the actor who introduced the head. */
module GovernanceApi {
  import Lexical
  import opened Governance
  import opened Optional

  const MAX_PAGES := 100
  const PAGE := 100

  /** What the server answers for page 1, 2, ...; None for an answer that is not a list of objects. */
  type Pages<T> = nat -> Option<seq<T>>

  function Join<T>(head: seq<T>, rest: Result<seq<T>>): (r: Result<seq<T>>)
  {
    match rest
    case Err => Err
    case Ok(items) => Ok(head + items)
  }

  /** The items of pages `from + 1` on, up to the first page that is not full. */
  function Collect<T>(pages: Pages<T>, from: nat): (r: Result<seq<T>>)
    requires from <= MAX_PAGES
    decreases MAX_PAGES - from
  {
    if from == MAX_PAGES then Err
    else
      match pages(from + 1)
      case None => Err
      case Some(items) =>
        if |items| < PAGE then Ok(items) else Join(items, Collect(pages, from + 1))
  }

  method GetAll<T>(pages: Pages<T>) returns (r: Result<seq<T>>)
    ensures r == Collect(pages, 0)
  {
    var collected: seq<T> := [];
    JoinJoin([], [], Collect(pages, 0));
    for page := 0 to MAX_PAGES
      invariant Collect(pages, 0) == Join(collected, Collect(pages, page))
    {
      var payload := pages(page + 1);
      if payload.None? {
        return Err;
      }
      JoinJoin(collected, payload.value, Collect(pages, page + 1));
      collected := collected + payload.value;
      if |payload.value| < PAGE {
        return Ok(collected);
      }
    }
    return Err;
  }

  lemma JoinJoin<T>(a: seq<T>, b: seq<T>, rest: Result<seq<T>>)
    ensures Join(a, Join(b, rest)) == Join(a + b, rest)
    ensures Join([], rest) == rest
  {
    if rest.Ok? {
      assert a + (b + rest.value) == a + b + rest.value;
      assert [] + rest.value == rest.value;
    }
  }

  /** Page `n` of a list served in pages of a hundred. */
  function Served<T>(list: seq<T>, n: nat): (page: Option<seq<T>>)
  {
    var low := if n == 0 then 0 else (n - 1) * PAGE;
    if low >= |list| then Some([]) else Some(list[low..if low + PAGE < |list| then low + PAGE else |list|])
  }

  lemma {:induction false} CollectServed<T>(pages: Pages<T>, list: seq<T>, from: nat)
    requires from <= MAX_PAGES && from * PAGE <= |list| && forall n :: pages(n) == Served(list, n)
    ensures Collect(pages, from) == if |list| < MAX_PAGES * PAGE then Ok(list[from * PAGE..]) else Err
    decreases MAX_PAGES - from
  {
    if from < MAX_PAGES {
      assert pages(from + 1) == Served(list, from + 1);
      if (from + 1) * PAGE <= |list| {
        CollectServed(pages, list, from + 1);
        var items := list[from * PAGE..(from + 1) * PAGE];
        assert list[from * PAGE..] == items + list[(from + 1) * PAGE..];
      } else {
        assert list[from * PAGE..|list|] == list[from * PAGE..];
      }
    }
  }

  /** A list served in pages of a hundred is returned whole when it has fewer than ten thousand items, and
      is an error otherwise. */
  lemma PagingIsFaithful<T>(pages: Pages<T>, list: seq<T>)
    requires forall n :: pages(n) == Served(list, n)
    ensures Collect(pages, 0) == if |list| < 10000 then Ok(list) else Err
  {
    CollectServed(pages, list, 0);
  }

  // ---------------------------------------------------------------- who introduced the head

  /** A workflow run as the API returns it; None where a field is missing or of another type. */
  datatype Run = Run(
    head: Option<string>, created: Option<string>, branch: Option<string>, repository: Option<Option<int>>,
    id: Option<int>, actor: Option<Option<string>>, pulls: Option<seq<Option<int>>>)

  datatype Query = Query(head: string, pull: int, repository: int, ref: string, since: string)

  datatype Candidate = Candidate(time: string, login: string)

  datatype Finding = Broken | Unrelated | Related(candidate: Candidate)

  predicate IsWhole(q: Query, r: Run) {
    && Required(r.head) && r.head.value == q.head
    && Required(r.created) && Required(r.branch)
    && r.repository.Some? && r.repository.value.Some? && r.repository.value.value > 0
    && r.id.Some? && r.id.value >= 0
    && r.actor.Some? && Required(r.actor.value)
    && r.pulls.Some? && (forall i :: 0 <= i < |r.pulls.value| ==> r.pulls.value[i].Some? && r.pulls.value[i].value > 0)
  }

  function Examine(q: Query, r: Run): (f: Finding)
  {
    if !IsWhole(q, r) then Broken
    else if r.pulls.value != [] && Some(q.pull) !in r.pulls.value then Unrelated
    else if r.repository.value.value != q.repository || r.branch.value != q.ref
            || Lexical.Less(r.created.value, q.since)
    then Unrelated
    else Related(Candidate(r.created.value, r.actor.value.value))
  }

  /** The candidates among the runs; an error if any run cannot be trusted. */
  function Gather(q: Query, runs: seq<Run>): (r: Result<seq<Candidate>>)
  {
    if runs == [] then Ok([])
    else
      var n := |runs| - 1;
      match Gather(q, runs[..n])
      case Err => Err
      case Ok(found) =>
        match Examine(q, runs[n])
        case Broken => Err
        case Unrelated => Ok(found)
        case Related(c) => Ok(found + [c])
  }

  lemma {:induction false} GatherMeans(q: Query, runs: seq<Run>)
    ensures Gather(q, runs).Err? <==> exists i :: 0 <= i < |runs| && Examine(q, runs[i]).Broken?
    ensures Gather(q, runs).Ok? ==>
              forall c :: c in Gather(q, runs).value
                <==> exists i :: 0 <= i < |runs| && Examine(q, runs[i]) == Related(c)
  {
    if runs != [] {
      var n := |runs| - 1;
      GatherMeans(q, runs[..n]);
      forall i | 0 <= i < n ensures runs[..n][i] == runs[i] {}
    }
  }

  /** The candidates of `runs`, found one page after another. */
  lemma {:induction false} GatherAppend(q: Query, runs: seq<Run>, more: seq<Run>)
    ensures Gather(q, runs + more) == if Gather(q, runs).Err? then Err else Join(Gather(q, runs).value, Gather(q, more))
  {
    if more == [] {
      assert runs + more == runs;
      if Gather(q, runs).Ok? { assert Gather(q, runs).value + [] == Gather(q, runs).value; }
    } else {
      var n := |more| - 1;
      assert (runs + more)[..|runs + more| - 1] == runs + more[..n];
      GatherAppend(q, runs, more[..n]);
      if Gather(q, runs).Ok? && Gather(q, more[..n]).Ok? && Examine(q, more[n]).Related? {
        var found, rest, c := Gather(q, runs).value, Gather(q, more[..n]).value, Examine(q, more[n]).candidate;
        assert found + rest + [c] == found + (rest + [c]);
      }
    }
  }

  /** The least time among the candidates. */
  function Earliest(found: seq<Candidate>): (time: string)
    requires found != []
    ensures exists c :: c in found && c.time == time
    ensures forall c :: c in found ==> !Lexical.Less(c.time, time)
  {
    var n := |found| - 1;
    var last := found[n].time;
    assert found[n] in found;
    assert found == found[..n] + [found[n]];
    if n == 0 then Lexical.Irreflexive(last); last
    else
      var before := Earliest(found[..n]);
      if Lexical.Less(last, before) then
        EarliestStep(found[..n], before, last);
        last
      else
        before
  }

  lemma EarliestStep(found: seq<Candidate>, before: string, last: string)
    requires Lexical.Less(last, before) && forall c :: c in found ==> !Lexical.Less(c.time, before)
    ensures forall c :: c in found ==> !Lexical.Less(c.time, last)
    ensures !Lexical.Less(last, last)
  {
    Lexical.Irreflexive(last);
    forall c | c in found ensures !Lexical.Less(c.time, last) {
      if Lexical.Less(c.time, last) { Lexical.Transitive(c.time, last, before); }
    }
  }

  /** `login` is the one actor of all candidate runs at the earliest time. */
  ghost predicate Introduces(found: seq<Candidate>, login: string) {
    exists c :: && c in found && c.login == login
                && forall d :: d in found ==> !Lexical.Less(d.time, c.time) && (d.time == c.time ==> d.login == login)
  }

  ghost function ActorsAt(found: seq<Candidate>, time: string): (actors: set<string>)
  {
    set c | c in found && c.time == time :: c.login
  }

  lemma OneActor(found: seq<Candidate>, time: string, login: string)
    requires exists c :: c in found && c.time == time
    requires forall c :: c in found ==> !Lexical.Less(c.time, time)
    ensures Introduces(found, login) <==> ActorsAt(found, time) == {login}
  {
    if Introduces(found, login) {
      var c :| c in found && c.login == login
               && forall d :: d in found ==> !Lexical.Less(d.time, c.time) && (d.time == c.time ==> d.login == login);
      Lexical.Total(c.time, time);
      assert c.time == time;
    }
    if ActorsAt(found, time) == {login} {
      var c :| c in found && c.time == time;
      assert c.login in ActorsAt(found, time);
      forall d | d in found && d.time == c.time ensures d.login == login { assert d.login in ActorsAt(found, time); }
    }
  }

  /** The actor, or an error when there is no candidate or the earliest ones disagree. */
  method Decide(found: seq<Candidate>) returns (r: Result<string>)
    ensures r.Ok? <==> exists login :: Introduces(found, login)
    ensures r.Ok? ==> Introduces(found, r.value)
  {
    if found == [] {
      return Err;
    }
    var time := Earliest(found);
    var actors := set c | c in found && c.time == time :: c.login;
    assert actors == ActorsAt(found, time);
    forall login ensures Introduces(found, login) <==> actors == {login} { OneActor(found, time, login); }
    if |actors| != 1 {
      return Err;
    }
    var login :| login in actors;
    Singleton(actors, login);
    return Ok(login);
  }

  lemma Singleton(actors: set<string>, x: string)
    requires |actors| == 1 && x in actors
    ensures actors == {x}
  {
    assert |actors - {x}| == 0;
  }

  /** The candidates among all the runs the server serves. */
  function Candidates(q: Query, pages: Pages<Run>): (r: Result<seq<Candidate>>)
  {
    if Collect(pages, 0).Err? then Err else Gather(q, Collect(pages, 0).value)
  }

  /** Over all pages together: the one actor of the earliest candidate runs, and an error if a page or a
      run cannot be trusted, if there is no candidate, or if two actors tie. */
  method GetIntroducer(q: Query, pages: Pages<Run>) returns (r: Result<string>)
    ensures r.Ok? <==> Candidates(q, pages).Ok? && exists login :: Introduces(Candidates(q, pages).value, login)
    ensures r.Ok? ==> Introduces(Candidates(q, pages).value, r.value)
  {
    var found := CollectCandidates(q, pages);
    if found.Err? {
      return Err;
    }
    r := Decide(found.value);
  }

  method CollectCandidates(q: Query, pages: Pages<Run>) returns (r: Result<seq<Candidate>>)
    ensures r == Candidates(q, pages)
  {
    var found: seq<Candidate> := [];
    ghost var runs: seq<Run> := [];
    JoinJoin([], [], Collect(pages, 0));
    for page := 0 to MAX_PAGES
      invariant Collect(pages, 0) == Join(runs, Collect(pages, page))
      invariant Gather(q, runs) == Ok(found)
    {
      var payload := pages(page + 1);
      if payload.None? {
        return Err;
      }
      var more := GatherPage(q, payload.value);
      GatherAppend(q, runs, payload.value);
      if more.Err? {
        BrokenPage(q, pages, page, runs, payload.value);
        return Err;
      }
      if |payload.value| < PAGE {
        return Ok(found + more.value);
      }
      JoinJoin(runs, payload.value, Collect(pages, page + 1));
      runs := runs + payload.value;
      found := found + more.value;
    }
    return Err;
  }

  method GatherPage(q: Query, runs: seq<Run>) returns (r: Result<seq<Candidate>>)
    ensures r == Gather(q, runs)
  {
    var found: seq<Candidate> := [];
    for i := 0 to |runs|
      invariant Gather(q, runs[..i]) == Ok(found)
    {
      assert runs[..i + 1][..i] == runs[..i];
      match Examine(q, runs[i]) {
        case Broken =>
          assert runs == runs[..i + 1] + runs[i + 1..];
          GatherAppend(q, runs[..i + 1], runs[i + 1..]);
          return Err;
        case Unrelated =>
        case Related(c) => found := found + [c];
      }
    }
    assert runs[..|runs|] == runs;
    return Ok(found);
  }

  lemma BrokenPage(q: Query, pages: Pages<Run>, page: nat, runs: seq<Run>, items: seq<Run>)
    requires page < MAX_PAGES && pages(page + 1) == Some(items) && Gather(q, items).Err? && Gather(q, runs).Ok?
    requires Collect(pages, 0) == Join(runs, Collect(pages, page))
    ensures Candidates(q, pages) == Err
  {
    if Collect(pages, page).Ok? {
      var rest := Collect(pages, page).value;
      assert items <= rest && rest == items + rest[|items|..];
      GatherAppend(q, items, rest[|items|..]);
      GatherAppend(q, runs, rest);
    }
  }

  /** For a list of runs served in pages: an actor is returned exactly when every run can be trusted and
      that actor alone made the earliest run of this pull request. */
  lemma IntroducerIsEarliest(q: Query, pages: Pages<Run>, runs: seq<Run>, login: string)
    requires |runs| < 10000 && forall n :: pages(n) == Served(runs, n)
    ensures Candidates(q, pages).Ok? && Introduces(Candidates(q, pages).value, login)
            <==> && (forall i :: 0 <= i < |runs| ==> !Examine(q, runs[i]).Broken?)
                 && exists i :: && 0 <= i < |runs| && Examine(q, runs[i]).Related?
                                && Examine(q, runs[i]).candidate.login == login
                                && IsFirst(q, runs, Examine(q, runs[i]).candidate)
  {
    PagingIsFaithful(pages, runs);
    GatherMeans(q, runs);
    if Gather(q, runs).Ok? {
      FirstOfList(q, runs, Gather(q, runs).value, login);
    }
  }

  ghost predicate IsFirst(q: Query, runs: seq<Run>, c: Candidate) {
    forall j :: 0 <= j < |runs| && Examine(q, runs[j]).Related? ==>
      var d := Examine(q, runs[j]).candidate;
      !Lexical.Less(d.time, c.time) && (d.time == c.time ==> d.login == c.login)
  }

  lemma FirstOfList(q: Query, runs: seq<Run>, found: seq<Candidate>, login: string)
    requires forall c :: c in found <==> exists i :: 0 <= i < |runs| && Examine(q, runs[i]) == Related(c)
    ensures Introduces(found, login)
            <==> exists i :: && 0 <= i < |runs| && Examine(q, runs[i]).Related?
                             && Examine(q, runs[i]).candidate.login == login
                             && IsFirst(q, runs, Examine(q, runs[i]).candidate)
  {
    if Introduces(found, login) {
      var c :| c in found && c.login == login
               && forall d :: d in found ==> !Lexical.Less(d.time, c.time) && (d.time == c.time ==> d.login == login);
      var i :| 0 <= i < |runs| && Examine(q, runs[i]) == Related(c);
      forall j | 0 <= j < |runs| && Examine(q, runs[j]).Related? ensures Examine(q, runs[j]).candidate in found {
        assert Examine(q, runs[j]) == Related(Examine(q, runs[j]).candidate);
      }
      assert IsFirst(q, runs, c);
    }
    if i :| 0 <= i < |runs| && Examine(q, runs[i]).Related? && Examine(q, runs[i]).candidate.login == login
            && IsFirst(q, runs, Examine(q, runs[i]).candidate) {
      var c := Examine(q, runs[i]).candidate;
      assert Examine(q, runs[i]) == Related(c);
      assert c in found;
      forall d | d in found ensures !Lexical.Less(d.time, c.time) && (d.time == c.time ==> d.login == login) {
        var j :| 0 <= j < |runs| && Examine(q, runs[j]) == Related(d);
      }
    }
  }
}
