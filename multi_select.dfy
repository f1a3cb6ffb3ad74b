/**
 * The framework multi-select dropdown: choosing an entry toggles its value in
 * the selection, and the trigger button shows the labels of the first three
 * selected values and, past three, how many more there are.
 */
module MultiSelect {
  import opened Wrappers

  /** No value occurs twice. */
  predicate Distinct(s: seq<string>) {
    forall i, j :: 0 <= i < j < |s| ==> s[i] != s[j]
  }

  /**
   * `s.filter((item) => item !== v)`: every occurrence of `v` removed, all
   * other entries kept; their order is kept too, as `RemoveAllConcat` shows.
   */
  function RemoveAll(s: seq<string>, v: string): (r: seq<string>)
    ensures v !in r
    ensures v !in s ==> r == s
    ensures forall x :: x != v ==> (x in r <==> x in s)
    ensures forall x :: x != v ==> multiset(r)[x] == multiset(s)[x]
  {
    if s == [] then []
    else
      assert s == [s[0]] + s[1..];
      (if s[0] == v then [] else [s[0]]) + RemoveAll(s[1..], v)
  }

  /** Filtering shortens the list by exactly the number of occurrences of the removed value. */
  lemma {:induction false} RemoveAllLength(s: seq<string>, v: string)
    ensures |RemoveAll(s, v)| == |s| - multiset(s)[v]
  {
    if s != [] {
      assert s == [s[0]] + s[1..];
      RemoveAllLength(s[1..], v);
    }
  }

  /** Filtering a single entry keeps it exactly when it is not the removed value. */
  lemma RemoveAllSingleton(x: string, v: string)
    ensures RemoveAll([x], v) == if x == v then [] else [x]
  {
    assert [x][1..] == [];
  }

  /** Filtering works piece by piece: the survivors of `a` come first, in order, then those of `b`. */
  lemma {:induction false} RemoveAllConcat(a: seq<string>, b: seq<string>, v: string)
    ensures RemoveAll(a + b, v) == RemoveAll(a, v) + RemoveAll(b, v)
  {
    if a == [] {
      assert a + b == b;
    } else {
      assert (a + b)[0] == a[0] && (a + b)[1..] == a[1..] + b;
      RemoveAllConcat(a[1..], b, v);
    }
  }

  /**
   * The toggle handler's update: a value already selected is removed
   * (every occurrence of it), an absent one is appended at the end.
   */
  function Toggle(selected: seq<string>, value: string): (r: seq<string>)
    ensures value in selected ==> value !in r && |r| < |selected|
    ensures value !in selected ==> |r| == |selected| + 1 && r[..|selected|] == selected && r[|selected|] == value
    ensures forall x :: x != value ==> (x in r <==> x in selected)
  {
    if value in selected then
      RemoveAllLength(selected, value);
      RemoveAll(selected, value)
    else
      selected + [value]
  }

  /**
   * Deselecting a value that occurs once closes the gap: the values before it
   * and the values after it stay, in their order.
   */
  lemma ToggleRemovesInPlace(a: seq<string>, b: seq<string>, v: string)
    requires v !in a && v !in b
    ensures Toggle(a + [v] + b, v) == a + b
  {
    RemoveAllConcat(a + [v], b, v);
    RemoveAllConcat(a, [v], v);
    RemoveAllSingleton(v, v);
  }

  /** Removing a value keeps the survivors in their order, so a list without duplicates keeps none. */
  lemma {:induction false} RemoveAllKeepsDistinct(s: seq<string>, v: string)
    requires Distinct(s)
    ensures Distinct(RemoveAll(s, v))
  {
    if s != [] {
      RemoveAllKeepsDistinct(s[1..], v);
      var rest := RemoveAll(s[1..], v);
      if s[0] != v {
        assert s[0] !in s[1..];
        assert multiset(s[1..])[s[0]] == 0;
        assert s[0] !in rest;
        assert RemoveAll(s, v) == [s[0]] + rest;
      }
    }
  }

  /** A toggle never introduces a duplicate. */
  lemma ToggleKeepsDistinct(s: seq<string>, v: string)
    requires Distinct(s)
    ensures Distinct(Toggle(s, v))
  {
    if v in s {
      RemoveAllKeepsDistinct(s, v);
    }
  }

  /** Removing a value from a list that ends in it and holds it nowhere else gives the rest of the list. */
  lemma {:induction false} RemoveAllAppended(s: seq<string>, v: string)
    requires v !in s
    ensures RemoveAll(s + [v], v) == s
  {
    if s == [] {
      assert [v][1..] == [];
    } else {
      assert (s + [v])[0] == s[0] && (s + [v])[1..] == s[1..] + [v];
      RemoveAllAppended(s[1..], v);
      calc {
        RemoveAll(s + [v], v);
        [s[0]] + RemoveAll(s[1..] + [v], v);
        [s[0]] + s[1..];
        s;
      }
    }
  }

  /** Toggling a value that was not selected, twice, restores the original selection. */
  lemma ToggleTwiceRestores(s: seq<string>, v: string)
    requires v !in s
    ensures Toggle(Toggle(s, v), v) == s
  {
    RemoveAllAppended(s, v);
  }

  /** Toggling a selected value twice moves it, once, to the end of the selection. */
  lemma ToggleTwiceMovesToEnd(s: seq<string>, v: string)
    requires v in s
    ensures Toggle(Toggle(s, v), v) == RemoveAll(s, v) + [v]
  {
  }

  /** One entry of the dropdown: the stored value and the label shown for it. */
  datatype Framework = Framework(value: string, labelText: string)

  const Frameworks: seq<Framework> := [
    Framework("next.js", "Next.js"),
    Framework("sveltekit", "SvelteKit"),
    Framework("nuxt.js", "Nuxt.js"),
    Framework("remix", "Remix"),
    Framework("astro", "Astro"),
    Framework("vue", "Vue.js"),
    Framework("angular", "Angular"),
    Framework("ember", "Ember"),
    Framework("jQuery", "jQuery"),
    Framework("backbone", "Backbone.js")
  ]

  /** `catalog.find((f) => f.value === value)`, as a position: the first entry with that value, or the length when none has it. */
  function FindIndex(catalog: seq<Framework>, value: string): (k: nat)
    ensures k <= |catalog|
    ensures k < |catalog| ==> catalog[k].value == value
    ensures forall j :: 0 <= j < k ==> catalog[j].value != value
  {
    if catalog == [] || catalog[0].value == value then 0
    else 1 + FindIndex(catalog[1..], value)
  }

  /**
   * `catalog.find((f) => f.value === value)?.label`: the label of the first
   * entry with that value, or nothing when no entry has it.
   */
  function FindLabel(catalog: seq<Framework>, value: string): (r: Option<string>)
    ensures r.None? <==> forall i :: 0 <= i < |catalog| ==> catalog[i].value != value
    ensures r.Some? ==> exists i :: 0 <= i < |catalog| && catalog[i].value == value && catalog[i].labelText == r.value
                                    && forall j :: 0 <= j < i ==> catalog[j].value != value
  {
    var k := FindIndex(catalog, value);
    if k < |catalog| then Some(catalog[k].labelText) else None
  }

  /** `values.map(...)` over the visible values: one lookup result per value, in order. */
  function LabelsOf(values: seq<string>): (r: seq<Option<string>>)
    ensures |r| == |values|
    ensures forall i :: 0 <= i < |values| ==> r[i] == FindLabel(Frameworks, values[i])
  {
    if values == [] then [] else [FindLabel(Frameworks, values[0])] + LabelsOf(values[1..])
  }

  /** What the trigger button shows: a placeholder, or label chips with an optional "+k more" count. */
  datatype ButtonContent = Placeholder | Chips(labels: seq<Option<string>>, more: Option<nat>)

  const MaxVisible: nat := 3

  /**
   * The button summary: the placeholder exactly when nothing is selected;
   * otherwise the labels of the first min(3, n) selected values, in order,
   * and a "+k more" count, present exactly when n > 3, with k = n - 3.
   */
  function Summary(selected: seq<string>): (c: ButtonContent)
    ensures c.Placeholder? <==> selected == []
    ensures c.Chips? ==> |c.labels| == (if |selected| < MaxVisible then |selected| else MaxVisible)
    ensures c.Chips? ==> forall i :: 0 <= i < |c.labels| ==> c.labels[i] == FindLabel(Frameworks, selected[i])
    ensures c.Chips? ==> (c.more.Some? <==> |selected| > MaxVisible)
    ensures c.Chips? && c.more.Some? ==> c.more.value == |selected| - MaxVisible
  {
    if |selected| > 0 then
      var visible := if |selected| < MaxVisible then selected else selected[..MaxVisible];
      Chips(LabelsOf(visible), if |selected| > MaxVisible then Some(|selected| - MaxVisible) else None)
    else
      Placeholder
  }

  /** The component's state: the selected values, in the order they were chosen. */
  class MultiSelectorDropdown {
    var selectedValues: seq<string>

    /** The selection never holds a value twice. */
    ghost predicate Valid()
      reads this
    {
      Distinct(selectedValues)
    }

    constructor ()
      ensures Valid() && selectedValues == []
    {
      selectedValues := [];
    }

    /** Choosing an entry in the dropdown: its value is toggled in the selection. */
    method ToggleSelection(value: string)
      requires Valid()
      modifies this
      ensures Valid()
      ensures selectedValues == Toggle(old(selectedValues), value)
      ensures value in selectedValues <==> value !in old(selectedValues)
    {
      ToggleKeepsDistinct(selectedValues, value);
      selectedValues := Toggle(selectedValues, value);
    }
  }
}
