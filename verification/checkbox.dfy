/** The multi-select checkbox groups' list handling: checking an option
    appends it, unchecking removes every copy of it, and the "Other" text
    box is shown while the list holds "Other". Both checkbox components
    share this logic; the conditional one can additionally be hidden as a
    whole. */
module CheckboxGroup {

  import opened Validations

  /** The list with every copy of `v` removed, the others in order. */
  function Without(xs: seq<string>, v: string): (r: seq<string>)
    ensures |r| <= |xs|
    ensures v !in r
    ensures forall x :: x in r <==> x in xs && x != v
  {
    if xs == [] then []
    else if xs[0] == v then Without(xs[1..], v)
    else [xs[0]] + Without(xs[1..], v)
  }

  /** `handleCheckboxChange(optionValue, checked)`: the list handed to
      `onChange`. */
  function Toggle(xs: seq<string>, option: string, checked: bool): (r: seq<string>)
    ensures checked ==> |r| == |xs| + 1 && r[..|xs|] == xs && r[|xs|] == option
    ensures !checked ==> option !in r && forall x :: x != option ==> (x in r <==> x in xs)
  {
    if checked then xs + [option] else Without(xs, option)
  }

  /** Whether the "Other" text box is rendered. */
  predicate OtherTextShown(show: bool, showOther: bool, xs: seq<string>)
  {
    show && showOther && OtherOption in xs
  }

  // ---------------------------------------------------------------- properties

  /** Removing keeps every other option with its multiplicity and drops
      every copy of the removed one. */
  lemma {:induction false} WithoutCounts(xs: seq<string>, v: string)
    ensures multiset(Without(xs, v)) == multiset(xs)[v := 0]
  {
    if xs != [] {
      WithoutCounts(xs[1..], v);
      assert xs == [xs[0]] + xs[1..];
    }
  }

  /** Removing distributes over concatenation, so the options kept stay in
      their original order. */
  lemma {:induction false} WithoutAppend(xs: seq<string>, ys: seq<string>, v: string)
    ensures Without(xs + ys, v) == Without(xs, v) + Without(ys, v)
  {
    if xs == [] {
      assert xs + ys == ys;
    } else {
      assert (xs + ys)[0] == xs[0];
      assert (xs + ys)[1..] == xs[1..] + ys;
      WithoutAppend(xs[1..], ys, v);
    }
  }

  /** Unchecking an option that is not in the list changes nothing. */
  lemma {:induction false} UncheckAbsent(xs: seq<string>, v: string)
    requires v !in xs
    ensures Toggle(xs, v, false) == xs
  {
    if xs != [] {
      UncheckAbsent(xs[1..], v);
      assert xs == [xs[0]] + xs[1..];
    }
  }

  /** Unchecking twice is the same as unchecking once. */
  lemma UncheckIdempotent(xs: seq<string>, v: string)
    ensures Toggle(Toggle(xs, v, false), v, false) == Toggle(xs, v, false)
  {
    UncheckAbsent(Without(xs, v), v);
  }

  /** Checking an option already in the list adds a second copy: the
      component does not deduplicate. */
  lemma CheckDuplicates(xs: seq<string>, v: string)
    requires v in xs
    ensures multiset(Toggle(xs, v, true))[v] == multiset(xs)[v] + 1 >= 2
  {
  }

  /** Checking and then unchecking an option leaves the list without any
      copy of it, whether or not it was there before. */
  lemma CheckThenUncheck(xs: seq<string>, v: string)
    ensures Toggle(Toggle(xs, v, true), v, false) == Without(xs, v)
  {
    WithoutAppend(xs, [v], v);
    assert Without([v], v) == [];
  }

  /** "Other" goes through the same toggle: the text box appears when it
      is checked and disappears when it is unchecked. */
  lemma OtherTextFollowsCheckbox(xs: seq<string>, show: bool, showOther: bool)
    ensures OtherTextShown(show, showOther, Toggle(xs, OtherOption, true)) <==> show && showOther
    ensures !OtherTextShown(show, showOther, Toggle(xs, OtherOption, false))
  {
    assert Toggle(xs, OtherOption, true)[|xs|] == OtherOption;
  }
}
