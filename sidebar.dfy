/** The sidebar's data-set selection and theme (Sidebar.tsx): check boxes
    add to or filter the selected list, and the dark-mode flag is read from
    storage or the system setting and persisted on every toggle. */
module Sidebar {
  import opened Json
  import opened Env

  /** The three data sets a check box can select. */
  datatype DataSet = Plots | Pins | Found

  /** `[...prev, dataset]`. */
  function Checked(prev: seq<DataSet>, d: DataSet): (r: seq<DataSet>)
    ensures |r| == |prev| + 1 && r[..|prev|] == prev && r[|prev|] == d
  {
    prev + [d]
  }

  /** `prev.filter(item => item !== dataset)`: every occurrence of `d` goes,
      every other element stays, as often as it was there. */
  function Unchecked(prev: seq<DataSet>, d: DataSet): (r: seq<DataSet>)
    ensures d !in r
    ensures multiset(r) == multiset(prev)[d := 0]
    ensures |r| <= |prev|
  {
    if prev == [] then []
    else
      assert prev == [prev[0]] + prev[1..];
      if prev[0] == d then Unchecked(prev[1..], d)
      else [prev[0]] + Unchecked(prev[1..], d)
  }

  /** Filtering is taken piecewise, so the kept elements stay in their order. */
  lemma {:induction false} UncheckedDistributes(a: seq<DataSet>, b: seq<DataSet>, d: DataSet)
    ensures Unchecked(a + b, d) == Unchecked(a, d) + Unchecked(b, d)
  {
    if a == [] {
      assert a + b == b;
    } else {
      assert (a + b)[1..] == a[1..] + b;
      UncheckedDistributes(a[1..], b, d);
    }
  }

  /** Unchecking an unselected data set leaves the selection as it was. */
  lemma {:induction false} UncheckedNoOp(prev: seq<DataSet>, d: DataSet)
    requires d !in prev
    ensures Unchecked(prev, d) == prev
  {
    if prev != [] {
      assert prev[0] != d;
      assert d !in prev[1..];
      UncheckedNoOp(prev[1..], d);
      assert prev == [prev[0]] + prev[1..];
    }
  }

  /** Checking then unchecking a data set removes it altogether and leaves
      the others in their order: the same as unchecking it alone. */
  lemma CheckThenUncheck(prev: seq<DataSet>, d: DataSet)
    ensures Unchecked(Checked(prev, d), d) == Unchecked(prev, d)
    ensures d !in Unchecked(Checked(prev, d), d)
  {
    UncheckedDistributes(prev, [d], d);
    assert Unchecked([d], d) == [];
  }

  const DARK_MODE_KEY := "darkMode"

  /** Whether a stored entry reads as the text `"true"`. */
  predicate IsTrueText(e: Entry) {
    e == Raw("true") || e == Stringified(JBool(true))
  }

  /** `getOriginalTheme()`: the system preference when nothing is stored,
      otherwise dark exactly when the stored text is `"true"`. */
  function OriginalTheme(stored: Option<Entry>, prefersDark: bool): (dark: bool)
    ensures stored.None? ==> dark == prefersDark
    ensures stored.Some? ==> (dark <==> IsTrueText(stored.value))
  {
    match stored
    case None => prefersDark
    case Some(e) => IsTrueText(e)
  }

  /** The text a toggle persists: `"true"` or `"false"`. */
  function ThemeEntry(dark: bool): Entry {
    Raw(if dark then "true" else "false")
  }

  /** What a toggle persists is read back as the same mode, whatever the
      system preference. */
  lemma PersistedThemeIsRead(store: Store, dark: bool, prefersDark: bool)
    ensures OriginalTheme(GetItem(store[DARK_MODE_KEY := ThemeEntry(dark)], DARK_MODE_KEY), prefersDark) == dark
  {
    if !dark {
      assert "false" != "true";
    }
  }

  /** The sidebar's state: the dark-mode flag, the selected data sets, and
      the page whose storage the theme is persisted in. */
  class Sidebar {
    const page: Page
    var darkMode: bool
    var selected: seq<DataSet>

    /** `useState(getOriginalTheme())` and `useState([])`. */
    constructor (page: Page, prefersDark: bool)
      ensures this.page == page
      ensures darkMode == OriginalTheme(GetItem(page.storage, DARK_MODE_KEY), prefersDark)
      ensures selected == []
    {
      this.page := page;
      darkMode := OriginalTheme(GetItem(page.storage, DARK_MODE_KEY), prefersDark);
      selected := [];
    }

    /** `toggleDarkMode`: the mode flips and its text is stored. */
    method ToggleDarkMode()
      modifies this`darkMode, page`storage
      ensures darkMode == !old(darkMode)
      ensures page.storage == old(page.storage)[DARK_MODE_KEY := ThemeEntry(darkMode)]
      ensures forall prefersDark :: OriginalTheme(GetItem(page.storage, DARK_MODE_KEY), prefersDark) == darkMode
    {
      var newDarkMode := !darkMode;
      if newDarkMode {
        page.SetItem(DARK_MODE_KEY, Raw("true"));
      } else {
        page.SetItem(DARK_MODE_KEY, Raw("false"));
      }
      darkMode := newDarkMode;
      forall prefersDark: bool
        ensures OriginalTheme(GetItem(page.storage, DARK_MODE_KEY), prefersDark) == darkMode
      {
        PersistedThemeIsRead(old(page.storage), darkMode, prefersDark);
      }
    }

    /** `toggleDataset`: a checked box appends, an unchecked one filters. */
    method ToggleDataset(d: DataSet, checked: bool)
      modifies this`selected
      ensures selected == if checked then Checked(old(selected), d) else Unchecked(old(selected), d)
    {
      if checked {
        selected := selected + [d];
      } else {
        selected := Unchecked(selected, d);
      }
    }
  }

  /** Two toggles restore the mode, and storage then holds its text. */
  method ToggleDarkModeTwice(s: Sidebar)
    modifies s`darkMode, s.page`storage
    ensures s.darkMode == old(s.darkMode)
    ensures s.page.storage == old(s.page.storage)[DARK_MODE_KEY := ThemeEntry(s.darkMode)]
  {
    s.ToggleDarkMode();
    s.ToggleDarkMode();
  }
}
