/** The change-governance decision: whose last decisive review of the exact head stands. */
module Governance {
  import Lexical
  import opened Optional

  datatype Result<T> = Ok(value: T) | Err

  const THRESHOLD := 5000
  const REQUIRED_APPROVALS := 1
  const CORE_MAINTAINERS: set<string> := {"feichai0017", "wchwawa"}

  /** The library's case mappings. */
  datatype Casing = Casing(fold: string -> string, upper: string -> string)

  datatype User = User(login: Option<string>, kind: Option<string>)

  /** A review as the API returns it; None where a field is missing or of another type. */
  datatype Review = Review(
    state: Option<string>, user: Option<User>, commit: Option<string>, submitted: Option<string>, id: Option<int>)

  predicate Required(field: Option<string>) {
    field.Some? && field.value != ""
  }

  // ---------------------------------------------------------------- one review

  datatype Verdict = Malformed | Skipped | Decisive(key: string, login: string, approved: bool)

  /** Who may not approve, and the head that must be approved. */
  datatype Scope = Scope(casing: Casing, excluded: set<string>, head: string)

  predicate IsDecisive(state: string) {
    state == "APPROVED" || state == "CHANGES_REQUESTED" || state == "DISMISSED"
  }

  function Judge(scope: Scope, r: Review): (v: Verdict)
  {
    if r.state.None? then Malformed
    else
      var state := scope.casing.upper(r.state.value);
      if !IsDecisive(state) then Skipped
      else if r.user.None? || !Required(r.user.value.login) || !Required(r.user.value.kind) then Malformed
      else
        var login := r.user.value.login.value;
        var key := scope.casing.fold(login);
        if r.user.value.kind.value != "User" || key in scope.excluded || key !in CORE_MAINTAINERS then Skipped
        else if !Required(r.commit) then Malformed
        else if r.commit.value != scope.head then Skipped
        else Decisive(key, login, state == "APPROVED")
  }

  // ---------------------------------------------------------------- the order of reviews

  datatype Order = Order(time: string, id: int)

  function OrderOf(r: Review): (o: Order)
  {
    Order(if r.submitted.Some? then r.submitted.value else "", if r.id.Some? then r.id.value else -1)
  }

  predicate Earlier(a: Order, b: Order) {
    Lexical.Less(a.time, b.time) || (a.time == b.time && a.id < b.id)
  }

  /** Position `i` comes before `j` in the sorted reviews: sorting keeps the given order of equal keys. */
  predicate Before(reviews: seq<Review>, i: nat, j: nat)
    requires i < |reviews| && j < |reviews|
  {
    Earlier(OrderOf(reviews[i]), OrderOf(reviews[j])) || (OrderOf(reviews[i]) == OrderOf(reviews[j]) && i < j)
  }

  lemma EarlierIsStrict(a: Order, b: Order, c: Order)
    ensures !Earlier(a, a)
    ensures Earlier(a, b) && Earlier(b, c) ==> Earlier(a, c)
    ensures Earlier(a, b) || a == b || Earlier(b, a)
    ensures !(Earlier(a, b) && Earlier(b, a))
  {
    Lexical.Irreflexive(a.time);
    Lexical.Total(a.time, b.time);
    if Lexical.Less(a.time, b.time) && Lexical.Less(b.time, c.time) { Lexical.Transitive(a.time, b.time, c.time); }
    if Lexical.Less(a.time, b.time) && Lexical.Less(b.time, a.time) { Lexical.Transitive(a.time, b.time, a.time); }
  }

  predicate Positions(reviews: seq<Review>, s: seq<nat>) {
    forall k :: 0 <= k < |s| ==> s[k] < |reviews|
  }

  /** Puts position `i` behind all that come before it. */
  function Insert(reviews: seq<Review>, i: nat, s: seq<nat>): (r: seq<nat>)
    requires i < |reviews| && Positions(reviews, s)
    ensures Positions(reviews, r)
    ensures forall k :: k in r <==> k == i || k in s
  {
    if s == [] || Before(reviews, i, s[0]) then [i] + s
    else
      var rest := Insert(reviews, i, s[1..]);
      assert s == [s[0]] + s[1..];
      [s[0]] + rest
  }

  /** The positions of the first `n` reviews in the order they are looked at. */
  function Sorted(reviews: seq<Review>, n: nat): (s: seq<nat>)
    requires n <= |reviews|
    ensures Positions(reviews, s)
    ensures forall k :: k in s <==> 0 <= k < n
  {
    if n == 0 then [] else Insert(reviews, n - 1, Sorted(reviews, n - 1))
  }

  ghost predicate Ascending(reviews: seq<Review>, s: seq<nat>)
    requires Positions(reviews, s)
  {
    forall a, b :: 0 <= a < b < |s| ==> Before(reviews, s[a], s[b])
  }

  lemma BeforeIsStrict(reviews: seq<Review>, i: nat, j: nat, k: nat)
    requires i < |reviews| && j < |reviews| && k < |reviews|
    ensures !Before(reviews, i, i)
    ensures Before(reviews, i, j) && Before(reviews, j, k) ==> Before(reviews, i, k)
    ensures i != j ==> Before(reviews, i, j) || Before(reviews, j, i)
    ensures !(Before(reviews, i, j) && Before(reviews, j, i))
  {
    EarlierIsStrict(OrderOf(reviews[i]), OrderOf(reviews[j]), OrderOf(reviews[k]));
    EarlierIsStrict(OrderOf(reviews[j]), OrderOf(reviews[i]), OrderOf(reviews[k]));
  }

  lemma {:induction false} InsertAscends(reviews: seq<Review>, i: nat, s: seq<nat>)
    requires i < |reviews| && Positions(reviews, s) && i !in s && Ascending(reviews, s)
    ensures Ascending(reviews, Insert(reviews, i, s))
  {
    if s == [] {
    } else if Before(reviews, i, s[0]) {
      forall b | 0 < b < |s| ensures Before(reviews, i, s[b]) { BeforeIsStrict(reviews, i, s[0], s[b]); }
    } else {
      InsertAscends(reviews, i, s[1..]);
      FirstStaysFirst(reviews, i, s, Insert(reviews, i, s[1..]));
    }
  }

  lemma FirstStaysFirst(reviews: seq<Review>, i: nat, s: seq<nat>, rest: seq<nat>)
    requires i < |reviews| && Positions(reviews, s) && i !in s && s != [] && Ascending(reviews, s)
    requires !Before(reviews, i, s[0]) && Positions(reviews, rest) && Ascending(reviews, rest)
    requires forall k :: k in rest ==> k == i || k in s[1..]
    ensures Ascending(reviews, [s[0]] + rest)
  {
    forall b | 0 <= b < |rest| ensures Before(reviews, s[0], rest[b]) {
      assert rest[b] in rest;
      if rest[b] == i {
        BeforeIsStrict(reviews, s[0], i, i);
      } else {
        var k :| 0 <= k < |s[1..]| && s[1..][k] == rest[b];
        assert s[k + 1] == rest[b];
      }
    }
  }

  lemma {:induction false} SortedAscends(reviews: seq<Review>, n: nat)
    requires n <= |reviews|
    ensures Ascending(reviews, Sorted(reviews, n))
  {
    if n > 0 {
      var s := Sorted(reviews, n - 1);
      SortedAscends(reviews, n - 1);
      assert n - 1 !in s;
      InsertAscends(reviews, n - 1, s);
    }
  }

  // ---------------------------------------------------------------- the standing decisions

  /** The decision each maintainer is left with after looking at the reviews `s` in turn. */
  function Decided(scope: Scope, reviews: seq<Review>, s: seq<nat>): (m: map<string, (string, bool)>)
    requires Positions(reviews, s)
  {
    if s == [] then map[]
    else
      var n := |s| - 1;
      var m := Decided(scope, reviews, s[..n]);
      match Judge(scope, reviews[s[n]])
      case Decisive(key, login, approved) => m[key := (login, approved)]
      case _ => m
  }

  predicate SameReviewer(a: Verdict, b: Verdict) {
    a.Decisive? && b.Decisive? && a.key == b.key
  }

  /** Review `i` is the last decisive one of its reviewer among `s`. */
  ghost predicate LastIn(scope: Scope, reviews: seq<Review>, s: seq<nat>, i: nat)
    requires Positions(reviews, s)
  {
    && i in s && Judge(scope, reviews[i]).Decisive?
    && (forall j :: j in s && j != i && SameReviewer(Judge(scope, reviews[j]), Judge(scope, reviews[i]))
                    ==> Before(reviews, j, i))
  }

  /** Review `i` is the last decisive one of its reviewer. */
  ghost predicate Stands(scope: Scope, reviews: seq<Review>, i: nat)
    requires i < |reviews|
  {
    && Judge(scope, reviews[i]).Decisive?
    && (forall j :: 0 <= j < |reviews| && j != i && SameReviewer(Judge(scope, reviews[j]), Judge(scope, reviews[i]))
                    ==> Before(reviews, j, i))
  }

  /** The maintainers whose last decisive review of the head approves it, by the login it names. */
  ghost function Approvers(scope: Scope, reviews: seq<Review>): (logins: set<string>)
  {
    set i | 0 <= i < |reviews| && Stands(scope, reviews, i) && Judge(scope, reviews[i]).approved
      :: Judge(scope, reviews[i]).login
  }

  lemma PrefixAscends(reviews: seq<Review>, s: seq<nat>, n: nat)
    requires Positions(reviews, s) && Ascending(reviews, s) && n < |s|
    ensures Positions(reviews, s[..n]) && Ascending(reviews, s[..n])
    ensures forall j :: j in s[..n] ==> j < |reviews| && Before(reviews, j, s[n])
  {
  }

  lemma {:induction false} DecidedIsLast(scope: Scope, reviews: seq<Review>, s: seq<nat>, i: nat)
    requires Positions(reviews, s) && Ascending(reviews, s) && LastIn(scope, reviews, s, i)
    ensures var v := Judge(scope, reviews[i]);
            var m := Decided(scope, reviews, s);
            v.key in m && m[v.key] == (v.login, v.approved)
  {
    var n := |s| - 1;
    if i != s[n] {
      assert s == s[..n] + [s[n]];
      PrefixAscends(reviews, s, n);
      BeforeIsStrict(reviews, i, s[n], i);
      DecidedIsLast(scope, reviews, s[..n], i);
    }
  }

  lemma {:induction false} DecidedHasLast(scope: Scope, reviews: seq<Review>, s: seq<nat>, key: string) returns (i: nat)
    requires Positions(reviews, s) && Ascending(reviews, s) && key in Decided(scope, reviews, s)
    ensures LastIn(scope, reviews, s, i) && Judge(scope, reviews[i]).key == key
  {
    var n := |s| - 1;
    assert s == s[..n] + [s[n]];
    PrefixAscends(reviews, s, n);
    var v := Judge(scope, reviews[s[n]]);
    if v.Decisive? && v.key == key {
      i := s[n];
    } else {
      i := DecidedHasLast(scope, reviews, s[..n], key);
    }
  }

  function Logins(m: map<string, (string, bool)>): (logins: set<string>)
  {
    set key | key in m && m[key].1 :: m[key].0
  }

  lemma DecidedAreApprovers(scope: Scope, reviews: seq<Review>, s: seq<nat>)
    requires s == Sorted(reviews, |reviews|)
    ensures Logins(Decided(scope, reviews, s)) == Approvers(scope, reviews)
  {
    SortedAscends(reviews, |reviews|);
    var m := Decided(scope, reviews, s);
    forall login | login in Logins(m) ensures login in Approvers(scope, reviews) {
      var key :| key in m && m[key].1 && m[key].0 == login;
      var i := DecidedHasLast(scope, reviews, s, key);
      DecidedIsLast(scope, reviews, s, i);
      assert Stands(scope, reviews, i);
    }
    forall login | login in Approvers(scope, reviews) ensures login in Logins(m) {
      var i :| 0 <= i < |reviews| && Stands(scope, reviews, i) && Judge(scope, reviews[i]).approved
               && Judge(scope, reviews[i]).login == login;
      assert LastIn(scope, reviews, s, i);
      DecidedIsLast(scope, reviews, s, i);
    }
  }

  lemma DecidedStep(scope: Scope, reviews: seq<Review>, order: seq<nat>, k: nat)
    requires Positions(reviews, order) && k < |order|
    ensures Decided(scope, reviews, order[..k + 1]) ==
            var m := Decided(scope, reviews, order[..k]);
            match Judge(scope, reviews[order[k]])
            case Decisive(key, login, approved) => m[key := (login, approved)]
            case _ => m
  {
    assert order[..k + 1][..k] == order[..k];
  }

  ghost predicate Untrusted(scope: Scope, reviews: seq<Review>) {
    exists i :: 0 <= i < |reviews| && Judge(scope, reviews[i]).Malformed?
  }

  lemma AllTrusted(scope: Scope, reviews: seq<Review>, order: seq<nat>)
    requires order == Sorted(reviews, |reviews|)
    requires forall j :: 0 <= j < |order| ==> !Judge(scope, reviews[order[j]]).Malformed?
    ensures !Untrusted(scope, reviews)
  {
    forall i: nat | i < |reviews| ensures !Judge(scope, reviews[i]).Malformed? {
      assert i in order;
    }
  }

  /** Fails exactly when some review cannot be trusted, in whatever place; otherwise returns the
      maintainers whose last decisive review of the head approves it. */
  method CurrentApprovals(scope: Scope, reviews: seq<Review>) returns (r: Result<set<string>>)
    ensures r.Err? <==> Untrusted(scope, reviews)
    ensures r.Ok? ==> r.value == Approvers(scope, reviews)
  {
    var order := Sorted(reviews, |reviews|);
    var decisive: map<string, (string, bool)> := map[];
    for k := 0 to |order|
      invariant decisive == Decided(scope, reviews, order[..k])
      invariant forall j :: 0 <= j < k ==> !Judge(scope, reviews[order[j]]).Malformed?
    {
      DecidedStep(scope, reviews, order, k);
      match Judge(scope, reviews[order[k]]) {
        case Malformed =>
          assert order[k] in order;
          return Err;
        case Skipped =>
        case Decisive(key, login, approved) => decisive := decisive[key := (login, approved)];
      }
    }
    assert order[..|order|] == order;
    AllTrusted(scope, reviews, order);
    DecidedAreApprovers(scope, reviews, order);
    return Ok(Logins(decisive));
  }

  // ---------------------------------------------------------------- what the decision depends on

  /** Only core maintainers other than the author and the introducers ever count. */
  lemma ApproversAreEligible(scope: Scope, reviews: seq<Review>, login: string)
    requires login in Approvers(scope, reviews)
    ensures scope.casing.fold(login) in CORE_MAINTAINERS - scope.excluded
  {
  }

  ghost predicate DistinctOrders(reviews: seq<Review>) {
    forall i, j :: 0 <= i < j < |reviews| ==> OrderOf(reviews[i]) != OrderOf(reviews[j])
  }

  lemma StandsElsewhere(scope: Scope, a: seq<Review>, b: seq<Review>, i: nat, j: nat)
    requires DistinctOrders(a) && DistinctOrders(b) && (forall r :: r in b ==> r in a)
    requires i < |a| && j < |b| && a[i] == b[j] && Stands(scope, a, i)
    ensures Stands(scope, b, j)
  {
    forall k | 0 <= k < |b| && k != j && SameReviewer(Judge(scope, b[k]), Judge(scope, b[j])) ensures Before(b, k, j) {
      assert b[k] in a;
      var l :| 0 <= l < |a| && a[l] == b[k];
      assert l != i && Before(a, l, i);
    }
  }

  lemma ApproversWithin(scope: Scope, a: seq<Review>, b: seq<Review>)
    requires DistinctOrders(a) && DistinctOrders(b) && (forall r :: r in a <==> r in b)
    ensures Approvers(scope, a) <= Approvers(scope, b)
  {
    forall login | login in Approvers(scope, a) ensures login in Approvers(scope, b) {
      var i :| 0 <= i < |a| && Stands(scope, a, i) && Judge(scope, a[i]).approved && Judge(scope, a[i]).login == login;
      assert a[i] in b;
      var j :| 0 <= j < |b| && b[j] == a[i];
      StandsElsewhere(scope, a, b, i, j);
    }
  }

  /** With distinct times or ids, the order in which the reviews are given does not matter. */
  lemma OrderDoesNotMatter(scope: Scope, a: seq<Review>, b: seq<Review>)
    requires DistinctOrders(a) && multiset(a) == multiset(b)
    ensures Approvers(scope, a) == Approvers(scope, b)
  {
    forall r ensures r in a <==> r in b {
      assert r in a <==> r in multiset(a);
      assert r in b <==> r in multiset(b);
    }
    PermutedOrders(a, b);
    ApproversWithin(scope, a, b);
    ApproversWithin(scope, b, a);
  }

  lemma PermutedOrders(a: seq<Review>, b: seq<Review>)
    requires DistinctOrders(a) && multiset(a) == multiset(b)
    ensures DistinctOrders(b)
  {
    forall i, j | 0 <= i < j < |b| ensures OrderOf(b[i]) != OrderOf(b[j]) {
      assert b[i] in multiset(b) && b[j] in multiset(b);
      assert b[i] in a && b[j] in a;
      var k :| 0 <= k < |a| && a[k] == b[i];
      var l :| 0 <= l < |a| && a[l] == b[j];
      if k == l {
        TwiceInSequence(b, i, j);
        OnceInSequence(a, k);
      }
    }
  }

  lemma TwiceInSequence(s: seq<Review>, i: nat, j: nat)
    requires i < j < |s| && s[i] == s[j]
    ensures multiset(s)[s[i]] >= 2
  {
    assert s == s[..j] + [s[j]] + s[j + 1..];
    assert s[i] in s[..j];
    assert multiset(s) == multiset(s[..j]) + multiset{s[j]} + multiset(s[j + 1..]);
  }

  lemma OnceInSequence(s: seq<Review>, k: nat)
    requires DistinctOrders(s) && k < |s|
    ensures multiset(s)[s[k]] == 1
  {
    assert s == s[..k] + [s[k]] + s[k + 1..];
    assert s[k] !in s[..k] && s[k] !in s[k + 1..];
    assert multiset(s) == multiset(s[..k]) + multiset{s[k]} + multiset(s[k + 1..]);
  }

  // ---------------------------------------------------------------- other reviews, later reviews

  function Without(reviews: seq<Review>, p: nat): (rest: seq<Review>)
    requires p < |reviews|
  {
    reviews[..p] + reviews[p + 1..]
  }

  /** Where position `i` of the shorter list was. */
  function Original(p: nat, i: nat): (j: nat)
  {
    if i < p then i else i + 1
  }

  lemma StandsWithout(scope: Scope, reviews: seq<Review>, p: nat, i: nat)
    requires p < |reviews| && i < |reviews| - 1 && Judge(scope, reviews[p]).Skipped?
    ensures Without(reviews, p)[i] == reviews[Original(p, i)]
    ensures Stands(scope, Without(reviews, p), i) <==> Stands(scope, reviews, Original(p, i))
  {
    var rest := Without(reviews, p);
    forall k: nat | k < |rest| ensures rest[k] == reviews[Original(p, k)] {}
    forall k: nat | k < |rest| ensures Before(rest, k, i) <==> Before(reviews, Original(p, k), Original(p, i)) {}
    if Stands(scope, rest, i) {
      forall j | 0 <= j < |reviews| && j != Original(p, i)
                 && SameReviewer(Judge(scope, reviews[j]), Judge(scope, reviews[Original(p, i)]))
        ensures Before(reviews, j, Original(p, i))
      {
        var k := if j < p then j else j - 1;
        assert Original(p, k) == j && Before(rest, k, i);
      }
    }
  }

  /** A review that is not a decisive one of an eligible maintainer on the head changes nothing. */
  lemma OthersAreIgnored(scope: Scope, reviews: seq<Review>, p: nat)
    requires p < |reviews| && Judge(scope, reviews[p]).Skipped?
    ensures Approvers(scope, Without(reviews, p)) == Approvers(scope, reviews)
  {
    var rest := Without(reviews, p);
    forall login | login in Approvers(scope, rest) ensures login in Approvers(scope, reviews) {
      var i :| 0 <= i < |rest| && Stands(scope, rest, i) && Judge(scope, rest[i]).approved
        && Judge(scope, rest[i]).login == login;
      StandsWithout(scope, reviews, p, i);
    }
    forall login | login in Approvers(scope, reviews) ensures login in Approvers(scope, rest) {
      var j :| 0 <= j < |reviews| && Stands(scope, reviews, j) && Judge(scope, reviews[j]).approved
        && Judge(scope, reviews[j]).login == login;
      var i := if j < p then j else j - 1;
      StandsWithout(scope, reviews, p, i);
    }
  }

  /** A review of another commit is such a review, whoever wrote it. */
  lemma OtherCommitsAreSkipped(scope: Scope, r: Review)
    requires Required(r.commit) && r.commit.value != scope.head && !Judge(scope, r).Malformed?
    ensures Judge(scope, r).Skipped?
  {
  }

  /** A later decisive review replaces every earlier one of the same maintainer: an approval adds them, a
      dismissal or a change request takes them off. */
  lemma LaterReviewDecides(scope: Scope, reviews: seq<Review>, r: Review)
    requires Judge(scope, r).Decisive?
    requires forall q :: q in reviews ==> !Earlier(OrderOf(r), OrderOf(q))
    ensures var v := Judge(scope, r);
            var after := Approvers(scope, reviews + [r]);
            && (v.approved <==> exists login :: login in after && scope.casing.fold(login) == v.key)
            && (v.approved ==> v.login in after)
  {
    var all, n := reviews + [r], |reviews|;
    forall j | 0 <= j < n ensures Before(all, j, n) {
      assert reviews[j] in reviews;
      EarlierIsStrict(OrderOf(reviews[j]), OrderOf(r), OrderOf(r));
    }
    assert Stands(scope, all, n);
    forall login | login in Approvers(scope, all) && scope.casing.fold(login) == Judge(scope, r).key
      ensures Judge(scope, r).approved
    {
      var i :| 0 <= i < |all| && Stands(scope, all, i) && Judge(scope, all[i]).approved
        && Judge(scope, all[i]).login == login;
      BeforeIsStrict(all, i, n, i);
      assert i == n;
    }
  }

  // ---------------------------------------------------------------- the policy

  /** A pull request as the API returns it; the author and the head are objects with a login and a hash. */
  datatype PullRequest = PullRequest(
    additions: Option<int>, deletions: Option<int>, changedFiles: Option<int>,
    author: Option<Option<string>>, head: Option<Option<string>>)

  datatype Decision = Decision(changedLines: nat, required: nat, approvals: set<string>, head: string)

  predicate Counts(field: Option<int>) {
    field.Some? && field.value >= 0
  }

  predicate IsReadable(pr: PullRequest) {
    && Counts(pr.additions) && Counts(pr.deletions) && Counts(pr.changedFiles)
    && pr.author.Some? && Required(pr.author.value) && pr.head.Some? && Required(pr.head.value)
  }

  function ScopeOf(casing: Casing, pr: PullRequest, introducers: seq<string>): (scope: Scope)
    requires IsReadable(pr)
  {
    Scope(casing,
          {casing.fold(pr.author.value.value)} + (set i | 0 <= i < |introducers| :: casing.fold(introducers[i])),
          pr.head.value.value)
  }

  predicate IsLarge(pr: PullRequest)
    requires IsReadable(pr)
  {
    pr.additions.value + pr.deletions.value > THRESHOLD
  }

  predicate Allowed(d: Decision) {
    |d.approvals| >= d.required
  }

  /** A small change is allowed; a large one needs a standing approval by someone who neither wrote nor
      introduced it. Unreadable input, and a large change without introducers, fail. */
  method EvaluatePolicy(casing: Casing, pr: PullRequest, reviews: seq<Review>, introducers: seq<string>)
    returns (r: Result<Decision>)
    ensures r.Ok? <==>
              && IsReadable(pr)
              && (IsLarge(pr) ==> introducers != [])
              && forall i :: 0 <= i < |reviews| ==> !Judge(ScopeOf(casing, pr, introducers), reviews[i]).Malformed?
    ensures r.Ok? ==>
              var scope := ScopeOf(casing, pr, introducers);
              && r.value.approvals == Approvers(scope, reviews)
              && (Allowed(r.value) <==>
                    !IsLarge(pr)
                    || exists i :: 0 <= i < |reviews| && Stands(scope, reviews, i) && Judge(scope, reviews[i]).approved)
  {
    if !IsReadable(pr) {
      return Err;
    }
    var lines := pr.additions.value + pr.deletions.value;
    var required := if lines > THRESHOLD then REQUIRED_APPROVALS else 0;
    if required > 0 && introducers == [] {
      return Err;
    }
    var scope := ScopeOf(casing, pr, introducers);
    var approvals := CurrentApprovals(scope, reviews);
    if approvals.Err? {
      return Err;
    }
    ApproversExist(scope, reviews);
    return Ok(Decision(lines, required, approvals.value, scope.head));
  }

  lemma ApproversExist(scope: Scope, reviews: seq<Review>)
    ensures |Approvers(scope, reviews)| >= 1 <==>
              exists i :: 0 <= i < |reviews| && Stands(scope, reviews, i) && Judge(scope, reviews[i]).approved
  {
    if i :| 0 <= i < |reviews| && Stands(scope, reviews, i) && Judge(scope, reviews[i]).approved {
      assert Judge(scope, reviews[i]).login in Approvers(scope, reviews);
    } else {
      assert Approvers(scope, reviews) == {};
    }
  }
}
