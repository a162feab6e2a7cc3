/**
 * The public projects section: the category filter list built from the
 * fetched (or bundled) projects, the filtered project list, and the fetch
 * with its fallback.
 */
module PublicProjects {
  import opened Wrappers
  import opened TagList
  import opened TokenStore
  import opened Api

  const ALL: string := "All"
  const OTHER: string := "Other"

  // ---------------------------------------------------------------------------
  // Insertion-ordered sets

  /** `set.add(x)` on a set kept as its insertion-ordered list. */
  function Insert(acc: seq<string>, x: string): (r: seq<string>)
    ensures x in acc ==> r == acc
    ensures x !in acc ==> r == acc + [x]
  {
    if x in acc then acc else acc + [x]
  }

  /** Adding every element of `xs` in turn. */
  function InsertAll(acc: seq<string>, xs: seq<string>): seq<string> {
    if xs == [] then acc else Insert(InsertAll(acc, xs[..|xs| - 1]), xs[|xs| - 1])
  }

  /** `Array.from(new Set(xs))`: each value once, in order of first occurrence. */
  function Dedup(xs: seq<string>): seq<string> {
    InsertAll([], xs)
  }

  /** Position of the first occurrence of `x`. */
  function FirstIndex(xs: seq<string>, x: string): (i: nat)
    requires x in xs
    ensures i < |xs| && xs[i] == x && x !in xs[..i]
  {
    if xs[0] == x then 0 else 1 + FirstIndex(xs[1..], x)
  }

  /** Adding the elements of `a + b` is adding those of `a`, then those of `b`. */
  lemma {:induction false} InsertAllConcat(acc: seq<string>, a: seq<string>, b: seq<string>)
    ensures InsertAll(acc, a + b) == InsertAll(InsertAll(acc, a), b)
    decreases |b|
  {
    if b == [] {
      assert a + b == a;
    } else {
      var init := b[..|b| - 1];
      assert (a + b)[..|a + b| - 1] == a + init;
      assert (a + b)[|a + b| - 1] == b[|b| - 1];
      InsertAllConcat(acc, a, init);
    }
  }

  /** Adding never reorders or drops what is already there. */
  lemma {:induction false} InsertAllExtends(acc: seq<string>, xs: seq<string>)
    ensures |acc| <= |InsertAll(acc, xs)| && InsertAll(acc, xs)[..|acc|] == acc
    decreases |xs|
  {
    if xs != [] {
      InsertAllExtends(acc, xs[..|xs| - 1]);
    }
  }

  /** The values present afterwards are those before plus those added. */
  lemma {:induction false} InsertAllElements(acc: seq<string>, xs: seq<string>)
    ensures forall x :: x in InsertAll(acc, xs) <==> x in acc || x in xs
    decreases |xs|
  {
    if xs != [] {
      var init := xs[..|xs| - 1];
      InsertAllElements(acc, init);
      assert xs == init + [xs[|xs| - 1]];
    }
  }

  /** Adding to a list without repeats keeps it without repeats. */
  lemma {:induction false} InsertAllNoDuplicates(acc: seq<string>, xs: seq<string>)
    requires NoDuplicates(acc)
    ensures NoDuplicates(InsertAll(acc, xs))
    decreases |xs|
  {
    if xs != [] {
      InsertAllNoDuplicates(acc, xs[..|xs| - 1]);
    }
  }

  /** The first occurrence of a value already present does not move when more is appended. */
  lemma FirstIndexAppend(xs: seq<string>, ys: seq<string>, y: string)
    requires y in xs
    ensures FirstIndex(xs + ys, y) == FirstIndex(xs, y)
  {
    var i := FirstIndex(xs, y);
    var j := FirstIndex(xs + ys, y);
    assert (xs + ys)[i] == y;
    forall k | 0 <= k < j ensures (xs + ys)[k] != y {
      assert (xs + ys)[..j][k] == (xs + ys)[k];
    }
    forall k | 0 <= k < i ensures xs[k] != y {
      assert xs[..i][k] == xs[k];
    }
  }

  /** The list is ordered by first occurrence in `xs`. */
  predicate InFirstOccurrenceOrder(r: seq<string>, xs: seq<string>)
    requires forall x :: x in r ==> x in xs
  {
    forall i, j :: 0 <= i < j < |r| ==> FirstIndex(xs, r[i]) < FirstIndex(xs, r[j])
  }

  /**
   * `Dedup` is characterised completely: no value twice, exactly the values
   * of the input, in order of first occurrence.
   */
  lemma {:induction false} DedupCharacterised(xs: seq<string>)
    ensures NoDuplicates(Dedup(xs))
    ensures forall x :: x in Dedup(xs) <==> x in xs
    ensures InFirstOccurrenceOrder(Dedup(xs), xs)
    decreases |xs|
  {
    InsertAllNoDuplicates([], xs);
    InsertAllElements([], xs);
    if xs != [] {
      var init, last := xs[..|xs| - 1], xs[|xs| - 1];
      assert xs == init + [last];
      DedupCharacterised(init);
      var d := Dedup(init);
      assert Dedup(xs) == Insert(d, last);
      forall y | y in d ensures FirstIndex(xs, y) == FirstIndex(init, y) {
        FirstIndexAppend(init, [last], y);
      }
      if last !in d {
        assert last !in init;
        assert FirstIndex(xs, last) == |init|;
        forall i | 0 <= i < |d| ensures FirstIndex(xs, d[i]) < FirstIndex(xs, last) {
          assert d[i] in d;
        }
      }
    }
  }

  // ---------------------------------------------------------------------------
  // Category extraction

  /** Every project's categories, one project after the other. */
  function CategoriesOf(projects: seq<ProjectData>): seq<string> {
    if projects == [] then [] else CategoriesOf(projects[..|projects| - 1]) + projects[|projects| - 1].category
  }

  /** The filter list: `All`, then every category in order of first use, then `Other` unless already used. */
  function FilterList(projects: seq<ProjectData>): seq<string> {
    Dedup([ALL] + CategoriesOf(projects) + [OTHER])
  }

  /** The filter list starts with `All` and holds no value twice. */
  lemma FilterListShape(projects: seq<ProjectData>)
    ensures |FilterList(projects)| > 0 && FilterList(projects)[0] == ALL
    ensures NoDuplicates(FilterList(projects))
  {
    var flat := CategoriesOf(projects);
    InsertAllConcat([], [ALL], flat + [OTHER]);
    assert [ALL] + flat + [OTHER] == [ALL] + (flat + [OTHER]);
    assert InsertAll([], [ALL]) == [ALL] by {
      assert [ALL][..0] == [];
    }
    InsertAllExtends([ALL], flat + [OTHER]);
    DedupCharacterised([ALL] + flat + [OTHER]);
  }

  /** It lists exactly `All`, `Other` and the categories some project uses, in order of first use. */
  lemma FilterListContents(projects: seq<ProjectData>)
    ensures forall c :: c in FilterList(projects) <==> c == ALL || c == OTHER || c in CategoriesOf(projects)
    ensures InFirstOccurrenceOrder(FilterList(projects), [ALL] + CategoriesOf(projects) + [OTHER])
  {
    DedupCharacterised([ALL] + CategoriesOf(projects) + [OTHER]);
  }

  /** `Other` comes last unless a project already used it; then it keeps its earlier place. */
  lemma OtherPlacement(projects: seq<ProjectData>)
    ensures OTHER !in CategoriesOf(projects) ==>
      FilterList(projects) == Dedup([ALL] + CategoriesOf(projects)) + [OTHER]
    ensures OTHER in CategoriesOf(projects) ==>
      FilterList(projects) == Dedup([ALL] + CategoriesOf(projects))
  {
    var front := [ALL] + CategoriesOf(projects);
    InsertAllConcat([], front, [OTHER]);
    InsertAllElements([], front);
    assert [OTHER][..0] == [];
  }

  /** `categoriesSet` built project by project and category by category, as `fetchProjects` does. */
  method ExtractCategories(projects: seq<ProjectData>) returns (categories: seq<string>)
    ensures categories == FilterList(projects)
  {
    categories := [ALL];
    assert categories == Dedup([ALL] + CategoriesOf(projects[..0])) by {
      assert projects[..0] == [];
      assert CategoriesOf(projects[..0]) == [];
      assert [ALL] + [] == [ALL];
      assert [ALL][..0] == [];
      assert InsertAll([], []) == [];
    }
    var i := 0;
    while i < |projects|
      invariant 0 <= i <= |projects|
      invariant categories == Dedup([ALL] + CategoriesOf(projects[..i]))
    {
      var cats := projects[i].category;
      assert projects[..i + 1][..i] == projects[..i];
      ghost var before := [ALL] + CategoriesOf(projects[..i]);
      if |cats| > 0 {
        var j := 0;
        assert before + cats[..0] == before;
        while j < |cats|
          invariant 0 <= j <= |cats|
          invariant categories == Dedup(before + cats[..j])
        {
          assert (before + cats[..j + 1])[..|before + cats[..j + 1]| - 1] == before + cats[..j];
          if cats[j] !in categories {
            categories := categories + [cats[j]];
          }
          j := j + 1;
        }
        assert cats[..j] == cats;
      } else {
        assert before + cats == before;
      }
      assert [ALL] + CategoriesOf(projects[..i + 1]) == before + cats;
      i := i + 1;
    }
    assert projects[..i] == projects;
    InsertAllConcat([], [ALL] + CategoriesOf(projects), [OTHER]);
    assert [OTHER][..0] == [];
    if OTHER !in categories {
      categories := categories + [OTHER];
    }
  }

  // ---------------------------------------------------------------------------
  // Filtering

  /** `projects.filter(p => p.category.includes(f))`. */
  function WithCategory(projects: seq<ProjectData>, f: string): (r: seq<ProjectData>)
    ensures |r| <= |projects|
    ensures forall p :: p in r <==> p in projects && f in p.category
  {
    if projects == [] then []
    else
      var init, last := projects[..|projects| - 1], projects[|projects| - 1];
      assert projects == init + [last];
      WithCategory(init, f) + (if f in last.category then [last] else [])
  }

  /** Filtering keeps the projects' order: it distributes over concatenation. */
  lemma {:induction false} WithCategoryConcat(a: seq<ProjectData>, b: seq<ProjectData>, f: string)
    ensures WithCategory(a + b, f) == WithCategory(a, f) + WithCategory(b, f)
    decreases |b|
  {
    if b == [] {
      assert a + b == a;
    } else {
      var init := b[..|b| - 1];
      assert (a + b)[..|a + b| - 1] == a + init;
      assert (a + b)[|a + b| - 1] == b[|b| - 1];
      WithCategoryConcat(a, init, f);
    }
  }

  /** `filteredProjects`: every project under `All`, otherwise those tagged with the filter. */
  function FilteredProjects(projects: seq<ProjectData>, activeFilter: string): (r: seq<ProjectData>)
    ensures activeFilter == ALL ==> r == projects
    ensures activeFilter != ALL ==> forall p :: p in r <==> p in projects && activeFilter in p.category
  {
    if activeFilter == ALL then projects else WithCategory(projects, activeFilter)
  }

  /** A filter every project carries shows every project. */
  lemma {:induction false} FilterAllMatch(projects: seq<ProjectData>, f: string)
    requires forall p :: p in projects ==> f in p.category
    ensures WithCategory(projects, f) == projects
    decreases |projects|
  {
    if projects != [] {
      var init, last := projects[..|projects| - 1], projects[|projects| - 1];
      assert projects == init + [last];
      assert forall p :: p in init ==> p in projects;
      FilterAllMatch(init, f);
    }
  }

  // ---------------------------------------------------------------------------
  // The component

  /** What the section shows. */
  datatype View = LoadingView | ErrorView(message: string) | Grid(filters: seq<string>, active: string, shown: seq<ProjectData>)

  /** `Projects`' state, with the token store its request passes through and the bundled projects. */
  class Projects {
    const store: Storage
    const localProjects: seq<ProjectData>
    var projects: seq<ProjectData>
    var categories: seq<string>
    var activeFilter: string
    var loading: bool
    var error: Option<string>
    var usingLocalData: bool

    /** No projects yet, only the `All` filter, loading, no error, not on local data. */
    constructor (store: Storage, localProjects: seq<ProjectData>)
      ensures this.store == store && this.localProjects == localProjects
      ensures projects == [] && categories == [ALL] && activeFilter == ALL
      ensures loading && error.None? && !usingLocalData
    {
      this.store := store;
      this.localProjects := localProjects;
      projects, categories := [], [ALL];
      activeFilter := ALL;
      loading := true;
      error := None;
      usingLocalData := false;
    }

    /** `fetchProjects` up to the `await`: loading, and the request for every project. */
    method StartFetch() returns (call: Call)
      modifies this
      ensures loading && call == GetAllCall(Projects)
      ensures projects == old(projects) && categories == old(categories) && activeFilter == old(activeFilter)
      ensures error == old(error) && usingLocalData == old(usingLocalData)
    {
      loading := true;
      call := GetAllCall(Projects);
    }

    /**
     * `fetchProjects` after the `await`: the server's projects, or the bundled
     * ones on failure, with their filter list. Nothing ever sets the error, so
     * the error view cannot be reached.
     */
    method SettleFetch(reply: Settled<seq<ProjectData>>)
      modifies this, store
      ensures reply.Fulfilled? ==> projects == reply.value && usingLocalData == old(usingLocalData) && error.None?
      ensures reply.Rejected? ==> projects == localProjects && usingLocalData && error == old(error)
      ensures categories == FilterList(projects)
      ensures !loading && activeFilter == old(activeFilter)
      ensures store.items == StorageAfter(old(store.items), reply)
    {
      var result := InterceptResponse(store, reply);
      if result.Fulfilled? {
        projects := result.value;
        categories := ExtractCategories(result.value);
        error := None;
      } else {
        projects := localProjects;
        categories := ExtractCategories(localProjects);
        usingLocalData := true;
      }
      loading := false;
    }

    /** The toggle group's `onValueChange`: an empty value (a deselection) is ignored. */
    method OnValueChange(value: string)
      modifies this
      ensures activeFilter == if value == "" then old(activeFilter) else value
      ensures projects == old(projects) && categories == old(categories)
      ensures loading == old(loading) && error == old(error) && usingLocalData == old(usingLocalData)
    {
      if value != "" {
        activeFilter := value;
      }
    }

    /**
     * The component's output: loading first, then the error, then the filtered grid.
     * The error view is unreachable: the constructor starts with no error and
     * `SettleFetch` only ever clears it, as the bundled projects replace a failed fetch.
     */
    function Render(): (v: View)
      reads this
      ensures loading ==> v == LoadingView
      ensures !loading && error.None? ==> v == Grid(categories, activeFilter, FilteredProjects(projects, activeFilter))
      ensures !loading && error.Some? && error.value != "" ==> v == ErrorView(error.value)
    {
      if loading then LoadingView
      else if error.Some? && error.value != "" then ErrorView(error.value)
      else Grid(categories, activeFilter, FilteredProjects(projects, activeFilter))
    }
  }
}
