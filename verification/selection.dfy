/** List operations behind the check boxes and the searchable department
    picker. */
module Selection {
  import opened Wrappers
  import opened Text

  /** `b` contains the elements of `a` in the same relative order. */
  predicate Subsequence<T(==,!new)>(a: seq<T>, b: seq<T>)
    decreases |b|
  {
    if |a| == 0 then true
    else if |b| == 0 then false
    else (a[0] == b[0] && Subsequence(a[1..], b[1..])) || Subsequence(a, b[1..])
  }

  /** `xs.filter(p)`: the elements that satisfy `p`, in their original order. */
  function Keep<T(==,!new)>(xs: seq<T>, p: T -> bool): (r: seq<T>)
    ensures forall x :: x in r <==> x in xs && p(x)
    ensures forall x :: multiset(r)[x] == (if p(x) then multiset(xs)[x] else 0)
    ensures Subsequence(r, xs)
    decreases |xs|
  {
    if |xs| == 0 then []
    else
      assert xs == [xs[0]] + xs[1..];
      if p(xs[0]) then [xs[0]] + Keep(xs[1..], p)
      else Keep(xs[1..], p)
  }

  /** When every element passes, the filter keeps the whole list. */
  lemma {:induction false} KeepAll<T(!new)>(xs: seq<T>, p: T -> bool)
    requires forall i | 0 <= i < |xs| :: p(xs[i])
    ensures Keep(xs, p) == xs
    decreases |xs|
  {
    if |xs| > 0 {
      KeepAll(xs[1..], p);
    }
  }

  /** When no element passes, the filter keeps nothing. */
  lemma {:induction false} KeepNone<T(!new)>(xs: seq<T>, p: T -> bool)
    requires forall i | 0 <= i < |xs| :: !p(xs[i])
    ensures Keep(xs, p) == []
    decreases |xs|
  {
    if |xs| > 0 {
      KeepNone(xs[1..], p);
    }
  }

  /** Filtering distributes over appending one element. */
  lemma {:induction false} KeepSnoc<T(!new)>(xs: seq<T>, y: T, p: T -> bool)
    ensures Keep(xs + [y], p) == Keep(xs, p) + (if p(y) then [y] else [])
    decreases |xs|
  {
    if |xs| == 0 {
      assert xs + [y] == [y];
    } else {
      assert (xs + [y])[1..] == xs[1..] + [y];
      KeepSnoc(xs[1..], y, p);
    }
  }

  /** Filtering twice with the same test is filtering once. */
  lemma KeepIdempotent<T(!new)>(xs: seq<T>, p: T -> bool)
    ensures Keep(Keep(xs, p), p) == Keep(xs, p)
  {
    var r := Keep(xs, p);
    assert forall i | 0 <= i < |r| :: r[i] in r;
    KeepAll(r, p);
  }

  /** A list without repeated elements. */
  predicate Distinct<T(==,!new)>(xs: seq<T>) {
    forall i, j | 0 <= i < j < |xs| :: xs[i] != xs[j]
  }

  /** Filtering a list without repeats leaves a list without repeats. */
  lemma {:induction false} KeepDistinct<T(!new)>(xs: seq<T>, p: T -> bool)
    requires Distinct(xs)
    ensures Distinct(Keep(xs, p))
    decreases |xs|
  {
    if |xs| > 0 {
      assert Distinct(xs[1..]);
      KeepDistinct(xs[1..], p);
      if p(xs[0]) {
        assert xs[0] !in xs[1..];
        assert xs[0] !in Keep(xs[1..], p);
      }
    }
  }

  function NotEqualTo<T(==,!new)>(o: T): T -> bool {
    x => x != o
  }

  /** A check-box press: the option is removed (every copy of it) when it is
      selected and appended at the end when it is not. */
  function Toggle<T(==,!new)>(xs: seq<T>, o: T): (r: seq<T>)
    ensures o in r <==> o !in xs
    ensures forall x | x != o :: x in r <==> x in xs
    ensures o in xs ==> Subsequence(r, xs)
    ensures o in xs ==> forall x :: multiset(r)[x] == (if x == o then 0 else multiset(xs)[x])
    ensures o !in xs ==> |r| == |xs| + 1 && r[..|xs|] == xs && r[|xs|] == o
  {
    if o in xs then Keep(xs, NotEqualTo(o)) else xs + [o]
  }

  /** Pressing an unselected option twice restores the selection. */
  lemma {:induction false} ToggleTwiceRestores<T(!new)>(xs: seq<T>, o: T)
    requires o !in xs
    ensures Toggle(Toggle(xs, o), o) == xs
  {
    KeepSnoc(xs, o, NotEqualTo(o));
    KeepAll(xs, NotEqualTo(o));
  }

  /** Toggling never introduces a repeat. */
  lemma {:induction false} ToggleKeepsDistinct<T(!new)>(xs: seq<T>, o: T)
    requires Distinct(xs)
    ensures Distinct(Toggle(xs, o))
  {
    if o in xs {
      KeepDistinct(xs, NotEqualTo(o));
    } else {
      var r := xs + [o];
      forall i, j | 0 <= i < j < |r|
        ensures r[i] != r[j]
      {
        if j == |xs| {
          assert r[i] == xs[i];
        }
      }
    }
  }

  /** The departments the picker offers by default. */
  const Departments: seq<string> := [
    "FINANCE", "HUMAN_RESOURCES", "MARKETING", "RESEARCH_AND_DEVELOPMENT",
    "IT", "CUSTOMER_SERVICE", "OPERATIONS_MANAGEMENT", "ADMINISTRATION",
    "PURCHASING", "PRODUCTION", "SALES", "ACCOUNTING", "MAINTENANCE_DEPARTMENT",
    "DESIGN", "QUALITY_MANAGEMENT", "BUSINESS_DEVELOPMENT", "LAW",
    "PRODUCT_DEVELOPMENT", "HUMAN_RESOURCE_DEVELOPMENT", "DISTRIBUTION",
    "DISPATCH_DEPARTMENT", "STORE_DEPARTMENT", "MANAGEMENT"]

  /** The text a department is searched by: lower case, underscores as spaces. */
  function SearchKey(dept: string): string {
    ReplaceAll(LowerCase(dept), '_', ' ')
  }

  /** A department is listed when its search key contains the lower-cased query. */
  predicate MatchesQuery(dept: string, query: string) {
    Includes(SearchKey(dept), LowerCase(query))
  }

  /** The search key never contains an underscore. */
  lemma SearchKeyHasNoUnderscore(dept: string)
    ensures '_' !in SearchKey(dept)
  {
    var k := SearchKey(dept);
    forall i | 0 <= i < |k|
      ensures k[i] != '_'
    {
    }
  }

  /** The departments listed for a query. */
  function FilterDepartments(depts: seq<string>, query: string): (r: seq<string>)
    ensures forall d :: d in r <==> d in depts && MatchesQuery(d, query)
    ensures forall d :: multiset(r)[d] == (if MatchesQuery(d, query) then multiset(depts)[d] else 0)
    ensures Subsequence(r, depts)
  {
    Keep(depts, d => MatchesQuery(d, query))
  }

  /** An empty query lists every department, in order. */
  lemma EmptyQueryListsAll(depts: seq<string>)
    ensures FilterDepartments(depts, "") == depts
  {
    forall i | 0 <= i < |depts|
      ensures MatchesQuery(depts[i], "")
    {
      IncludesEmpty(SearchKey(depts[i]));
    }
    KeepAll(depts, d => MatchesQuery(d, ""));
  }

  /** A query with an underscore lists nothing: names lose their underscores
      before the comparison but the query keeps its own. */
  lemma UnderscoreQueryListsNothing(depts: seq<string>, query: string)
    requires '_' in query
    ensures FilterDepartments(depts, query) == []
  {
    var q := LowerCase(query);
    var k :| 0 <= k < |query| && query[k] == '_';
    assert q[k] == '_';
    forall i | 0 <= i < |depts|
      ensures !MatchesQuery(depts[i], query)
    {
      SearchKeyHasNoUnderscore(depts[i]);
      MissingCharExcludes(SearchKey(depts[i]), q, '_');
    }
    KeepNone(depts, d => MatchesQuery(d, query));
  }

  /** The picker button's label: the chosen department with spaces for
      underscores, or a prompt when nothing is chosen. */
  function Label(value: Option<string>): (r: string)
    ensures '_' !in r
    ensures (value.None? || value.value == "") ==> r == "Select Department"
    ensures value.Some? && value.value != "" ==> |r| == |value.value|
    ensures value.Some? && value.value != "" ==>
      forall i | 0 <= i < |r| :: r[i] == (if value.value[i] == '_' then ' ' else value.value[i])
  {
    match value
    case Some(v) =>
      if v == "" then "Select Department"
      else
        var r := ReplaceAll(v, '_', ' ');
        assert forall i | 0 <= i < |r| :: r[i] != '_';
        r
    case None => "Select Department"
  }

  /** The label shown for a chosen department, typed into the search, lists
      that department again. */
  lemma {:induction false} LabelFindsItsDepartment(dept: string)
    requires dept != ""
    ensures MatchesQuery(dept, Label(Some(dept)))
  {
    var k := SearchKey(dept);
    var q := LowerCase(Label(Some(dept)));
    forall i | 0 <= i < |k|
      ensures k[i] == q[i]
    {
    }
    assert k == q;
    assert OccursAt(k, q, 0);
  }

  /** The picker's own state: whether the list is open and what is typed. */
  datatype Picker = Picker(modalVisible: bool, searchQuery: string)

  const PickerInitial := Picker(false, "")

  function Open(p: Picker): Picker {
    p.(modalVisible := true)
  }

  function Type(p: Picker, text: string): Picker {
    p.(searchQuery := text)
  }

  /** Choosing a department hands it to the parent, closes the list and
      clears the search. */
  function Choose(p: Picker, dept: string): (r: (Picker, string))
    ensures r.1 == dept
    ensures !r.0.modalVisible && r.0.searchQuery == ""
  {
    (Picker(false, ""), dept)
  }

  /** The close button also clears the search. */
  function Close(p: Picker): (r: Picker)
    ensures !r.modalVisible && r.searchQuery == ""
  {
    Picker(false, "")
  }

  /** Whatever was typed before, reopening after a choice or a close lists
      every department again. */
  lemma ReopenListsAll(p: Picker, dept: string, depts: seq<string>)
    ensures FilterDepartments(depts, Open(Choose(p, dept).0).searchQuery) == depts
    ensures FilterDepartments(depts, Open(Close(p)).searchQuery) == depts
  {
    EmptyQueryListsAll(depts);
  }
}
