/**
 * The list edits both admin forms apply to their string lists (technologies,
 * categories, description points): trimmed additions, with or without a
 * duplicate check, and removal of every equal entry.
 */
module TagList {
  import opened JsStrings

  predicate NoDuplicates(s: seq<string>) {
    forall i, j :: 0 <= i < j < |s| ==> s[i] != s[j]
  }

  /** Every entry is already trimmed and non-empty: what the add handlers put in a list. */
  predicate AllTrimmed(s: seq<string>) {
    forall i :: 0 <= i < |s| ==> s[i] != "" && Trim(s[i]) == s[i]
  }

  /** A list together with the text of its input box. */
  datatype Edit = Edit(list: seq<string>, input: string)

  /** The add handler with a duplicate check accepts the input. */
  predicate AcceptsUnique(list: seq<string>, input: string) {
    Trim(input) != "" && Trim(input) !in list
  }

  /**
   * `handleAddTechnology` / `handleAddCategory`: append the trimmed input and
   * clear the box when it is non-empty and not yet listed; otherwise change nothing.
   */
  function AddUnique(list: seq<string>, input: string): Edit {
    if AcceptsUnique(list, input) then Edit(list + [Trim(input)], "") else Edit(list, input)
  }

  /** `handleAddDescription`: append the trimmed input and clear the box when it is non-empty. */
  function AddNonBlank(list: seq<string>, input: string): Edit {
    if Trim(input) != "" then Edit(list + [Trim(input)], "") else Edit(list, input)
  }

  /** `list.filter(t => t !== x)`: every entry equal to `x` goes, the others stay. */
  function RemoveAll(list: seq<string>, x: string): (r: seq<string>)
    ensures x !in r
    ensures multiset(r) == multiset(list)[x := 0]
  {
    if list == [] then []
    else
      var init, last := list[..|list| - 1], list[|list| - 1];
      assert list == init + [last];
      RemoveAll(init, x) + (if last == x then [] else [last])
  }

  /** Removal keeps the surviving entries in their order: it distributes over concatenation. */
  lemma {:induction false} RemoveAllConcat(a: seq<string>, b: seq<string>, x: string)
    ensures RemoveAll(a + b, x) == RemoveAll(a, x) + RemoveAll(b, x)
    decreases |b|
  {
    if b == [] {
      assert a + b == a;
    } else {
      var init, last := b[..|b| - 1], b[|b| - 1];
      assert (a + b)[..|a + b| - 1] == a + init;
      assert (a + b)[|a + b| - 1] == last;
      RemoveAllConcat(a, init, x);
    }
  }

  /** Removing an entry that is not listed changes nothing. */
  lemma {:induction false} RemoveAllAbsent(list: seq<string>, x: string)
    requires x !in list
    ensures RemoveAll(list, x) == list
    decreases |list|
  {
    if list != [] {
      var init := list[..|list| - 1];
      assert list == init + [list[|list| - 1]];
      RemoveAllAbsent(init, x);
    }
  }

  /** Removal never creates a duplicate. */
  lemma {:induction false} RemoveAllKeepsNoDuplicates(list: seq<string>, x: string)
    requires NoDuplicates(list)
    ensures NoDuplicates(RemoveAll(list, x))
    decreases |list|
  {
    if list != [] {
      var init, last := list[..|list| - 1], list[|list| - 1];
      RemoveAllKeepsNoDuplicates(init, x);
      if last != x {
        var r := RemoveAll(init, x);
        assert last !in init by {
          forall i | 0 <= i < |init| ensures init[i] != last {
            assert init[i] == list[i];
          }
        }
        assert last !in multiset(init);
        assert last !in r by {
          assert multiset(r)[last] == multiset(init)[last] == 0;
        }
        assert RemoveAll(list, x) == r + [last];
      }
    }
  }

  /** Removal keeps every entry trimmed and non-empty. */
  lemma {:induction false} RemoveAllKeepsTrimmed(list: seq<string>, x: string)
    requires AllTrimmed(list)
    ensures AllTrimmed(RemoveAll(list, x))
    decreases |list|
  {
    if list != [] {
      var init, last := list[..|list| - 1], list[|list| - 1];
      assert AllTrimmed(init) by {
        forall i | 0 <= i < |init| ensures init[i] != "" && Trim(init[i]) == init[i] {
          assert init[i] == list[i];
        }
      }
      RemoveAllKeepsTrimmed(init, x);
    }
  }

  /**
   * The duplicate-checked add keeps a list free of duplicates and of untrimmed
   * or empty entries, and grows it by exactly the trimmed input when it accepts.
   */
  lemma AddUniqueKeepsInvariant(list: seq<string>, input: string)
    requires NoDuplicates(list) && AllTrimmed(list)
    ensures var e := AddUnique(list, input);
      NoDuplicates(e.list) && AllTrimmed(e.list) &&
      (AcceptsUnique(list, input) <==> |e.list| == |list| + 1) &&
      (AcceptsUnique(list, input) ==> e.list[|list|] == Trim(input))
  {
    if AcceptsUnique(list, input) {
      var t := Trim(input);
      var l := list + [t];
      TrimIdempotent(input);
      AppendFresh(list, t);
      assert AllTrimmed(l) by {
        forall i | 0 <= i < |l| ensures l[i] != "" && Trim(l[i]) == l[i] {
          if i < |list| {
            assert l[i] == list[i];
          }
        }
      }
    }
  }

  /** Appending an entry not yet listed keeps a list free of duplicates. */
  lemma AppendFresh(list: seq<string>, t: string)
    requires NoDuplicates(list) && t !in list
    ensures NoDuplicates(list + [t])
  {
    var l := list + [t];
    forall i, j | 0 <= i < j < |l| ensures l[i] != l[j] {
      assert l[i] == list[i];
      if j < |list| {
        assert l[j] == list[j];
      }
    }
  }

  /** A second press of the add button changes nothing: the box is empty or the input was refused. */
  lemma {:induction false} AddUniqueIdempotent(list: seq<string>, input: string)
    ensures var e := AddUnique(list, input);
      AddUnique(e.list, e.input) == e
  {
    var e := AddUnique(list, input);
    if AcceptsUnique(list, input) {
      TrimEmptyIffBlank("");
      assert !AcceptsUnique(e.list, e.input);
    }
  }

  /** Removing what was just added restores the list. */
  lemma {:induction false} RemoveUndoesAddUnique(list: seq<string>, input: string)
    requires AcceptsUnique(list, input)
    ensures RemoveAll(AddUnique(list, input).list, Trim(input)) == list
  {
    var t := Trim(input);
    RemoveAllConcat(list, [t], t);
    assert RemoveAll([t], t) == [] by {
      assert [t][..0] == [];
    }
    RemoveAllAbsent(list, t);
  }

  /** The description add keeps entries trimmed and non-empty; it may repeat an entry. */
  lemma AddNonBlankKeepsTrimmed(list: seq<string>, input: string)
    requires AllTrimmed(list)
    ensures AllTrimmed(AddNonBlank(list, input).list)
    ensures Trim(input) != "" <==> AddNonBlank(list, input).list == list + [Trim(input)]
  {
    TrimIdempotent(input);
  }
}
