/**
 * The viewer's session list: the sorted, de-duplicated application names
 * offered in the filter dropdown, the sessions that pass the user and
 * application filters, and the message shown when none is listed.
 */
module SessionList {
  import opened Wrappers
  import opened Text
  import opened Sequences

  /** A session as the list receives it (display-only fields are not modelled). */
  datatype Session = Session(
    id: string,
    startTime: int,
    eventCount: int,
    userId: Option<string>,
    userEmail: Option<string>,
    userName: Option<string>,
    appName: Option<string>)

  /** Every name comes before the next one: sorted and free of duplicates. */
  predicate StrictlySorted(xs: seq<string>) {
    forall i :: 0 < i < |xs| ==> Less(xs[i - 1], xs[i])
  }

  /** Some session carries the non-empty application name `a`. */
  predicate HasApp(sessions: seq<Session>, a: string) {
    a != "" && exists s :: s in sessions && s.appName == Some(a)
  }

  /** Adds `a` to a sorted list of distinct names, keeping it sorted and distinct. */
  function InsertSorted(xs: seq<string>, a: string): (r: seq<string>)
    requires StrictlySorted(xs)
    ensures StrictlySorted(r)
    ensures forall x :: x in r <==> x in xs || x == a
    ensures r != [] && (r[0] == a || (xs != [] && r[0] == xs[0]))
  {
    if xs == [] then [a]
    else if a == xs[0] then xs
    else if Less(a, xs[0]) then [a] + xs
    else
      LessTotal(a, xs[0]);
      [xs[0]] + InsertSorted(xs[1..], a)
  }

  /** `uniqueApps`: `Array.from(new Set(sessions.map(s => s.appName).filter(Boolean))).sort()`. */
  function UniqueApps(sessions: seq<Session>): (r: seq<string>)
    ensures StrictlySorted(r)
    ensures forall a :: a in r <==> HasApp(sessions, a)
  {
    if sessions == [] then []
    else
      var rest := UniqueApps(sessions[1..]);
      assert forall s :: s in sessions <==> s == sessions[0] || s in sessions[1..];
      var app := sessions[0].appName;
      if app.Some? && app.value != "" then InsertSorted(rest, app.value) else rest
  }

  lemma {:induction false} StrictlySortedOrdersAll(xs: seq<string>, i: nat, j: nat)
    requires StrictlySorted(xs) && i < j < |xs|
    ensures Less(xs[i], xs[j])
    decreases j - i
  {
    if i + 1 < j {
      StrictlySortedOrdersAll(xs, i + 1, j);
      LessTransitive(xs[i], xs[i + 1], xs[j]);
    }
  }

  /** A strictly sorted list holds no name twice. */
  lemma StrictlySortedDistinct(xs: seq<string>, i: nat, j: nat)
    requires StrictlySorted(xs) && i < j < |xs|
    ensures xs[i] != xs[j]
  {
    StrictlySortedOrdersAll(xs, i, j);
    LessIrreflexive(xs[i]);
  }

  /** Two strictly sorted lists with the same names are the same list. */
  lemma {:induction false} SortedListingUnique(xs: seq<string>, ys: seq<string>)
    requires StrictlySorted(xs) && StrictlySorted(ys)
    requires forall x :: x in xs <==> x in ys
    ensures xs == ys
  {
    assert xs != [] ==> xs[0] in ys;
    assert ys != [] ==> ys[0] in xs;
    if xs != [] && ys != [] {
      if xs[0] != ys[0] {
        assert ys[0] in xs && xs[0] in ys;
        var i :| 0 <= i < |xs| && xs[i] == ys[0];
        var j :| 0 <= j < |ys| && ys[j] == xs[0];
        assert i > 0 && j > 0;
        StrictlySortedOrdersAll(xs, 0, i);
        StrictlySortedOrdersAll(ys, 0, j);
        LessTransitive(xs[0], ys[0], xs[0]);
        LessIrreflexive(xs[0]);
        assert false;
      }
      forall x
        ensures x in xs[1..] <==> x in ys[1..]
      {
        if x in xs[1..] {
          var i :| 1 <= i < |xs| && xs[i] == x;
          StrictlySortedDistinct(xs, 0, i);
          assert x in ys && x != ys[0];
          assert ys == [ys[0]] + ys[1..];
        }
        if x in ys[1..] {
          var j :| 1 <= j < |ys| && ys[j] == x;
          StrictlySortedDistinct(ys, 0, j);
          assert x in xs && x != xs[0];
          assert xs == [xs[0]] + xs[1..];
        }
      }
      SortedListingUnique(xs[1..], ys[1..]);
      assert xs == [xs[0]] + xs[1..] && ys == [ys[0]] + ys[1..];
    }
  }

  /**
   * The dropdown lists each distinct non-empty application name exactly once,
   * in sort order: it is the only sorted duplicate-free listing of those names.
   */
  lemma UniqueAppsIsSortedListing(sessions: seq<Session>, listing: seq<string>)
    requires StrictlySorted(listing)
    requires forall a :: a in listing <==> HasApp(sessions, a)
    ensures UniqueApps(sessions) == listing
  {
    SortedListingUnique(UniqueApps(sessions), listing);
  }

  // ---------------------------------------------------------------------------
  // Filtering

  /** One user field matches: it is present and contains the filter, both lower-cased. */
  predicate FieldMatches(field: Option<string>, filter: string) {
    field.Some? && Contains(Lower(field.value), Lower(filter))
  }

  /** `matchesUser`: an empty filter, or a match in the user's name, e-mail or id. */
  predicate MatchesUser(s: Session, userFilter: string) {
    userFilter == ""
    || FieldMatches(s.userName, userFilter)
    || FieldMatches(s.userEmail, userFilter)
    || FieldMatches(s.userId, userFilter)
  }

  /** `matchesApp`: an empty filter, or exactly the session's application. */
  predicate MatchesApp(s: Session, appFilter: string) {
    appFilter == "" || s.appName == Some(appFilter)
  }

  predicate Shown(s: Session, userFilter: string, appFilter: string) {
    MatchesUser(s, userFilter) && MatchesApp(s, appFilter)
  }

  /** `filteredSessions`: `sessions.filter(session => matchesUser && matchesApp)`. */
  function FilterSessions(sessions: seq<Session>, userFilter: string, appFilter: string): (r: seq<Session>)
    ensures forall x :: x in r ==> Shown(x, userFilter, appFilter)
  {
    if sessions == [] then []
    else
      var rest := FilterSessions(sessions[1..], userFilter, appFilter);
      if Shown(sessions[0], userFilter, appFilter) then [sessions[0]] + rest else rest
  }

  /** The listed sessions keep the order they arrived in. */
  lemma {:induction false} FilterIsSubsequence(sessions: seq<Session>, userFilter: string, appFilter: string)
    ensures IsSubsequence(FilterSessions(sessions, userFilter, appFilter), sessions)
  {
    if sessions != [] {
      FilterIsSubsequence(sessions[1..], userFilter, appFilter);
      var r := FilterSessions(sessions, userFilter, appFilter);
      if Shown(sessions[0], userFilter, appFilter) {
        assert r[0] == sessions[0] && r[1..] == FilterSessions(sessions[1..], userFilter, appFilter);
      }
    }
  }

  /** A session is listed exactly when it is one of the sessions and passes both filters. */
  lemma {:induction false} FilterSelectsExactly(sessions: seq<Session>, userFilter: string, appFilter: string)
    ensures forall x :: x in FilterSessions(sessions, userFilter, appFilter)
                        <==> x in sessions && Shown(x, userFilter, appFilter)
  {
    if sessions != [] {
      FilterSelectsExactly(sessions[1..], userFilter, appFilter);
      assert forall x :: x in sessions <==> x == sessions[0] || x in sessions[1..];
    }
  }

  /** Every copy of a session that passes is kept, and no copy of one that fails. */
  lemma {:induction false} FilterKeepsEveryCopy(sessions: seq<Session>, userFilter: string, appFilter: string)
    ensures forall x :: multiset(FilterSessions(sessions, userFilter, appFilter))[x]
                        == if Shown(x, userFilter, appFilter) then multiset(sessions)[x] else 0
  {
    if sessions != [] {
      FilterKeepsEveryCopy(sessions[1..], userFilter, appFilter);
      assert sessions == [sessions[0]] + sessions[1..];
      assert multiset(sessions) == multiset([sessions[0]]) + multiset(sessions[1..]);
    }
  }

  /** With both filters empty every session is listed, in order. */
  lemma {:induction false} NoFilterListsAll(sessions: seq<Session>)
    ensures FilterSessions(sessions, "", "") == sessions
  {
    if sessions != [] {
      NoFilterListsAll(sessions[1..]);
      assert sessions == [sessions[0]] + sessions[1..];
    }
  }

  /** With no user filter, a session passes exactly when the application filter is empty or names its application. */
  lemma AppFilterOnly(s: Session, appFilter: string)
    ensures Shown(s, "", appFilter) <==> appFilter == "" || s.appName == Some(appFilter)
  {
  }

  /** The user filter ignores ASCII case: filters equal up to case select the same sessions. */
  lemma UserFilterIgnoresCase(s: Session, f1: string, f2: string)
    requires Lower(f1) == Lower(f2)
    ensures MatchesUser(s, f1) <==> MatchesUser(s, f2)
  {
    assert |f1| == |Lower(f1)| && |f2| == |Lower(f2)|;
  }

  /** Typing a session's own user name, in any case, keeps that session listed. */
  lemma OwnNameMatches(s: Session, f: string)
    requires s.userName.Some? && Lower(f) == Lower(s.userName.value)
    ensures MatchesUser(s, f)
  {
    assert Lower(f) <= Lower(s.userName.value)[0..];
  }

  // ---------------------------------------------------------------------------
  // The empty-list message

  const NothingRecorded: string := "No sessions recorded yet"
  const NothingMatches: string := "No sessions match filters"

  /** The message shown instead of the list, if the filtered list is empty. */
  function EmptyMessage(sessions: seq<Session>, userFilter: string, appFilter: string): (m: Option<string>)
    ensures m == Some(NothingRecorded) <==> sessions == []
    ensures m.Some? ==> m.value == NothingRecorded || m.value == NothingMatches
  {
    if |FilterSessions(sessions, userFilter, appFilter)| == 0 then
      Some(if |sessions| == 0 then NothingRecorded else NothingMatches)
    else None
  }

  /**
   * "No sessions recorded yet" exactly when there are no sessions; "No sessions
   * match filters" exactly when there are sessions and none passes the filters.
   */
  lemma EmptyMessageCases(sessions: seq<Session>, userFilter: string, appFilter: string)
    ensures EmptyMessage(sessions, userFilter, appFilter) == Some(NothingRecorded) <==> sessions == []
    ensures EmptyMessage(sessions, userFilter, appFilter) == Some(NothingMatches)
            <==> sessions != [] && forall s :: s in sessions ==> !Shown(s, userFilter, appFilter)
    ensures EmptyMessage(sessions, userFilter, appFilter).None?
            <==> exists s :: s in sessions && Shown(s, userFilter, appFilter)
  {
    FilterSelectsExactly(sessions, userFilter, appFilter);
    var r := FilterSessions(sessions, userFilter, appFilter);
    if r != [] {
      assert r[0] in r;
    }
  }
}
