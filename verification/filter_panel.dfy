/**
 * The filter bar of the dashboard. A multi-select pill keeps its selection as
 * one comma-joined string and toggles options in and out of it; the age and
 * date inputs write their text into the filters, refusing a negative age; and
 * leaving a range input swaps a minimum and maximum that are out of order.
 *
 * Filters are a map from parameter name to its text; a missing key is an
 * unset filter. The number and date parsing behind the comparisons is passed
 * in as functions, since the model has no floating point or calendar.
 */
module FilterPanel {
  import opened Wrappers
  import opened Strings
  import opened JsMath

  type Filters = map<string, string>

  // ---------------------------------------------------------------------------
  // Multi-select pill

  /** `value ? value.split(',') : []`. */
  function Selected(value: string): (sel: seq<string>)
    ensures value == "" ==> sel == []
    ensures value != "" ==> |sel| == Occurrences(value, ',') + 1
  {
    if value == "" then [] else Split(value, ',')
  }

  /** `a` is `b` with some elements left out, the rest in their order. */
  predicate Subsequence(a: seq<string>, b: seq<string>)
    decreases |b|
  {
    if |a| == 0 then true
    else if |b| == 0 then false
    else (a[0] == b[0] && Subsequence(a[1..], b[1..])) || Subsequence(a, b[1..])
  }

  /** `selectedValues.filter(v => v !== option)`: every copy of `option` goes, the rest keep their order. */
  function Remove(sel: seq<string>, option: string): (r: seq<string>)
    ensures option !in r
    ensures forall x :: x in r <==> x in sel && x != option
  {
    if |sel| == 0 then []
    else (if sel[0] == option then [] else [sel[0]]) + Remove(sel[1..], option)
  }

  /** The new selection after clicking `option`: drop it if chosen, else add it at the end. */
  function ToggleValues(sel: seq<string>, option: string): seq<string>
  {
    if option in sel then Remove(sel, option) else sel + [option]
  }

  /** `toggleOption`: the new pill value, joined with ",". */
  function Toggle(value: string, option: string): string
  {
    Join(ToggleValues(Selected(value), option), ",")
  }

  /** The pill's caption: the title, the one or two choices, or how many are chosen. */
  function DisplayText(title: string, value: string): (text: string)
    ensures value == "" ==> text == title
    ensures value != "" && Occurrences(value, ',') <= 1 ==> text == title + ": " + Join(Selected(value), ", ")
    ensures Occurrences(value, ',') >= 2 ==>
              text == title + ": " + NatToString(Occurrences(value, ',') + 1) + " selected"
  {
    var sel := Selected(value);
    if |sel| == 0 then title
    else if |sel| <= 2 then title + ": " + Join(sel, ", ")
    else title + ": " + NatToString(|sel|) + " selected"
  }

  /** The value a pill shows for a filter: `filters[name] || ""`. */
  function Current(filters: Filters, name: string): string
  {
    if name in filters then filters[name] else ""
  }

  /** `handleFilterChange` fed by a pill click: only that filter changes. */
  function PillChange(filters: Filters, name: string, option: string): (r: Filters)
    ensures r.Keys == filters.Keys + {name}
    ensures r[name] == Toggle(Current(filters, name), option)
    ensures forall k :: k in filters && k != name ==> r[k] == filters[k]
  {
    filters[name := Toggle(Current(filters, name), option)]
  }

  // ---------------------------------------------------------------------------
  // Range inputs

  /** The two range inputs that refuse negative numbers. */
  predicate IsAgeInput(name: string)
  {
    name == "minAge" || name == "maxAge"
  }

  /**
   * `handleInputChange`: `None` when the change is refused (an age input whose
   * text compares below 0), otherwise the filters with that one entry set.
   * `toNumber` is JavaScript's string-to-number conversion, `None` for NaN.
   */
  function InputChange(filters: Filters, name: string, value: string, toNumber: string -> Option<real>)
    : (r: Option<Filters>)
    ensures r.None? <==> IsAgeInput(name) && toNumber(value).Some? && toNumber(value).value < 0.0
    ensures r.Some? ==> r.value.Keys == filters.Keys + {name} && r.value[name] == value
    ensures r.Some? ==> forall k :: k in filters && k != name ==> r.value[k] == filters[k]
  {
    if IsAgeInput(name) && toNumber(value).Some? && toNumber(value).value < 0.0 then None
    else Some(filters[name := value])
  }

  /** A filter that is set and not empty (JavaScript truthiness of `filters[key]`). */
  predicate Filled(f: Filters, key: string)
  {
    key in f && f[key] != ""
  }

  /** `a > b` on two parsed numbers; any comparison with NaN is false. */
  predicate Greater(a: Num, b: Num)
  {
    a.Finite? && b.Finite? && a.v > b.v
  }

  /** The pair `lo`, `hi` is filled on both sides and out of order under `parse`. */
  predicate OutOfOrder(f: Filters, lo: string, hi: string, parse: string -> Num)
  {
    Filled(f, lo) && Filled(f, hi) && Greater(parse(f[lo]), parse(f[hi]))
  }

  /** Swaps the values of `lo` and `hi` when they are out of order. */
  function Reorder(f: Filters, lo: string, hi: string, parse: string -> Num): Filters
  {
    if OutOfOrder(f, lo, hi, parse) then f[lo := f[hi]][hi := f[lo]] else f
  }

  /**
   * `handleBlur`: swap the ages when the minimum parses above the maximum,
   * swap the dates when the start is after the end, and report the new
   * filters only when something was swapped. `parseAge` is `parseInt` and
   * `dateValue` is the time value of `new Date(text)`, NaN when invalid.
   */
  function Blur(filters: Filters, parseAge: string -> Num, dateValue: string -> Num): (r: Option<Filters>)
    ensures r.Some? <==>
              OutOfOrder(filters, "minAge", "maxAge", parseAge) || OutOfOrder(filters, "startDate", "endDate", dateValue)
  {
    var ages := Reorder(filters, "minAge", "maxAge", parseAge);
    var both := Reorder(ages, "startDate", "endDate", dateValue);
    if OutOfOrder(filters, "minAge", "maxAge", parseAge) || OutOfOrder(filters, "startDate", "endDate", dateValue)
    then Some(both)
    else None
  }
}

/** Properties of the pill toggle and the range swap. */
module FilterPanelProofs {
  import opened Wrappers
  import opened Strings
  import opened JsMath
  import opened FilterPanel

  /** A selection as the pills keep it: no empty choice and no choice containing a comma. */
  predicate CleanSelection(sel: seq<string>)
  {
    forall i :: 0 <= i < |sel| ==> sel[i] != "" && ',' !in sel[i]
  }

  /** A pill value whose pieces are all non-empty. */
  predicate CleanValue(value: string)
  {
    CleanSelection(Selected(value))
  }

  /** An option a pill can offer: non-empty and without a comma. */
  predicate Choice(option: string)
  {
    option != "" && ',' !in option
  }

  /** `Remove` keeps every copy of each other choice and drops every copy of `option`. */
  lemma {:induction false} RemoveCounts(sel: seq<string>, option: string)
    ensures multiset(Remove(sel, option)) == multiset(sel)[option := 0]
    decreases |sel|
  {
    if |sel| > 0 {
      RemoveCounts(sel[1..], option);
      var rest := Remove(sel[1..], option);
      assert sel == [sel[0]] + sel[1..];
      var m := multiset(sel[1..]);
      assert multiset(sel) == multiset{sel[0]} + m;
      if sel[0] == option {
        assert Remove(sel, option) == rest;
        assert (multiset{option} + m)[option := 0] == m[option := 0];
      } else {
        assert Remove(sel, option) == [sel[0]] + rest;
        assert (multiset{sel[0]} + m)[option := 0] == multiset{sel[0]} + m[option := 0];
      }
    }
  }

  /** `Remove` keeps the remaining choices in their order. */
  lemma {:induction false} RemoveOrder(sel: seq<string>, option: string)
    ensures Subsequence(Remove(sel, option), sel)
    decreases |sel|
  {
    if |sel| > 0 {
      RemoveOrder(sel[1..], option);
      var rest := Remove(sel[1..], option);
      if sel[0] == option {
        assert Remove(sel, option) == rest;
      } else {
        assert Remove(sel, option) == [sel[0]] + rest;
        assert ([sel[0]] + rest)[1..] == rest;
      }
    }
  }

  lemma RemoveClean(sel: seq<string>, option: string)
    requires CleanSelection(sel)
    ensures CleanSelection(Remove(sel, option))
  {
    var r := Remove(sel, option);
    forall i | 0 <= i < |r|
      ensures r[i] != "" && ',' !in r[i]
    {
      assert r[i] in r;
    }
  }

  /** Joining a clean selection and reading it back gives the selection. */
  lemma SelectedJoin(sel: seq<string>)
    requires CleanSelection(sel)
    ensures Selected(Join(sel, ",")) == sel
  {
    if |sel| > 0 {
      assert sel[0] != "";
      assert Join(sel, ",") != "" by { JoinNonEmpty(sel); }
      SplitJoin(sel, ',');
    }
  }

  lemma {:induction false} JoinNonEmpty(sel: seq<string>)
    requires |sel| > 0 && sel[0] != ""
    ensures |Join(sel, ",")| >= |sel[0]| > 0
  {
    if |sel| > 1 {
      assert Join(sel, ",") == sel[0] + "," + Join(sel[1..], ",");
    }
  }

  /** Joining the pieces of a pill value gives the value back. */
  lemma JoinSelected(value: string)
    ensures Join(Selected(value), ",") == value
  {
    if value != "" {
      JoinSplit(value, ',');
    }
  }

  /**
   * Clicking an option flips exactly that option: afterwards it is chosen
   * exactly when it was not before, every other choice stays as it was, and
   * the value stays clean.
   */
  lemma ToggleFlips(value: string, option: string)
    requires CleanValue(value) && Choice(option)
    ensures Selected(Toggle(value, option)) == ToggleValues(Selected(value), option)
    ensures option in Selected(Toggle(value, option)) <==> option !in Selected(value)
    ensures forall x :: x != option ==> (x in Selected(Toggle(value, option)) <==> x in Selected(value))
    ensures CleanValue(Toggle(value, option))
  {
    var sel := Selected(value);
    var t := ToggleValues(sel, option);
    if option in sel {
      RemoveClean(sel, option);
    } else {
      assert forall i :: 0 <= i < |t| ==> t[i] == if i < |sel| then sel[i] else option;
    }
    SelectedJoin(t);
  }

  /**
   * Clicking an unchosen option twice leaves the pill value as it was, for any
   * comma-free option, even when the value has empty pieces.
   */
  lemma ToggleTwice(value: string, option: string)
    requires ',' !in option
    requires option !in Selected(value)
    ensures Toggle(Toggle(value, option), option) == value
  {
    var sel := Selected(value);
    var t := sel + [option];
    assert ToggleValues(sel, option) == t;
    if sel == [] && option == "" {
      assert value == "";
      assert Join(t, ",") == "";
    } else {
      assert forall i :: 0 <= i < |t| ==> ',' !in t[i] by {
        forall i | 0 <= i < |t|
          ensures ',' !in t[i]
        {
          if i < |sel| { assert t[i] == sel[i]; }
        }
      }
      assert Join(t, ",") != "" by {
        if |t| >= 2 {
          assert Join(t, ",") == t[0] + "," + Join(t[1..], ",");
        }
      }
      SplitJoin(t, ',');
      assert Selected(Join(t, ",")) == t;
      RemoveAppended(sel, option);
      JoinSelected(value);
    }
  }

  /**
   * What the pills do with empty pieces: an empty option clicked on an empty
   * pill is never chosen, and removing the one real choice of "a," also drops
   * the empty piece after it.
   */
  lemma EmptyPieces(a: string)
    requires a != "" && ',' !in a
    ensures Toggle("", "") == "" && Selected(Toggle("", "")) == []
    ensures Selected(a + ",") == [a, ""]
    ensures Toggle(a + ",", a) == ""
  {
    assert Join([""], ",") == "";
    assert a + "," == a + [','] + "";
    SplitAtSeparator(a, ',', "");
    assert Remove([a, ""], a) == [""] by {
      assert [a, ""][1..] == [""];
      assert Remove([""], a) == [""] + Remove([], a);
    }
  }

  lemma {:induction false} RemoveAppended(sel: seq<string>, option: string)
    requires option !in sel
    ensures Remove(sel + [option], option) == sel
  {
    if |sel| == 0 {
      assert Remove([option], option) == [] + Remove([], option);
    } else {
      RemoveAppended(sel[1..], option);
      assert (sel + [option])[1..] == sel[1..] + [option];
      assert [sel[0]] + sel[1..] == sel;
    }
  }

  /** The caption of a value naming three or more choices counts them. */
  lemma CaptionCounts(title: string, value: string)
    requires value != ""
    ensures |Selected(value)| >= 3 ==>
              DisplayText(title, value) == title + ": " + NatToString(|Selected(value)|) + " selected"
    ensures 1 <= |Selected(value)| <= 2 ==>
              DisplayText(title, value) == title + ": " + Join(Selected(value), ", ")
  {
  }

  // ---------------------------------------------------------------------------
  // The blur swap

  /** Keys other than the four range inputs. */
  predicate RangeKey(k: string)
  {
    k == "minAge" || k == "maxAge" || k == "startDate" || k == "endDate"
  }

  /**
   * Leaving a range input only ever swaps: every other filter keeps its value,
   * no filter appears or disappears, and each pair ends up either unchanged or
   * exchanged.
   */
  lemma BlurOnlySwaps(f: Filters, parseAge: string -> Num, dateValue: string -> Num)
    requires Blur(f, parseAge, dateValue).Some?
    ensures var g := Blur(f, parseAge, dateValue).value;
            && g.Keys == f.Keys
            && (forall k :: k in f && !RangeKey(k) ==> g[k] == f[k])
            && (if OutOfOrder(f, "minAge", "maxAge", parseAge)
                then g["minAge"] == f["maxAge"] && g["maxAge"] == f["minAge"]
                else forall k :: k in f && (k == "minAge" || k == "maxAge") ==> g[k] == f[k])
            && (if OutOfOrder(f, "startDate", "endDate", dateValue)
                then g["startDate"] == f["endDate"] && g["endDate"] == f["startDate"]
                else forall k :: k in f && (k == "startDate" || k == "endDate") ==> g[k] == f[k])
  {
  }

  /** After a swap both pairs are in order, so leaving an input again changes nothing. */
  lemma BlurSettles(f: Filters, parseAge: string -> Num, dateValue: string -> Num)
    requires Blur(f, parseAge, dateValue).Some?
    ensures var g := Blur(f, parseAge, dateValue).value;
            && !OutOfOrder(g, "minAge", "maxAge", parseAge)
            && !OutOfOrder(g, "startDate", "endDate", dateValue)
            && Blur(g, parseAge, dateValue).None?
  {
    BlurOnlySwaps(f, parseAge, dateValue);
  }
}
