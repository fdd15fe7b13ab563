/**
 * Multi-select answers (target roles, industries, values): the list of chosen
 * options and the two toggles that update it, `handleCheckboxChange` of the
 * survey page and `setVal` of the questionnaire's checkbox group.
 */
module Checkbox {
  import opened Wrappers

  /** No option occurs twice. */
  predicate NoDup(s: seq<string>) {
    forall i, j :: 0 <= i < j < |s| ==> s[i] != s[j]
  }

  /** `s.filter(item => item !== x)`: every occurrence of `x` removed, the rest in order. */
  function RemoveAll(s: seq<string>, x: string): (r: seq<string>)
    ensures x !in r
    ensures forall y :: y != x ==> (y in r <==> y in s)
    ensures NoDup(s) ==> NoDup(r)
    ensures x !in s ==> r == s
  {
    if s == [] then []
    else
      var rest := RemoveAll(s[1..], x);
      assert forall y :: y in s ==> y == s[0] || y in s[1..];
      assert NoDup(s) ==> NoDup(s[1..]) && s[0] !in s[1..];
      if s[0] == x then rest else [s[0]] + rest
  }

  /**
   * `handleCheckboxChange` on the current list of a group (`prefs[group] || []`):
   * a chosen option is removed everywhere, any other is appended at the end.
   */
  function Toggle(current: Option<seq<string>>, opt: string): seq<string>
  {
    var values := current.GetOr([]);
    if opt in values then RemoveAll(values, opt) else values + [opt]
  }

  /** Toggling flips the option's membership and keeps every other option's. */
  lemma ToggleFlips(current: Option<seq<string>>, opt: string)
    ensures opt in Toggle(current, opt) <==> opt !in current.GetOr([])
    ensures forall y :: y != opt ==> (y in Toggle(current, opt) <==> y in current.GetOr([]))
  {
  }

  /** A list without duplicates keeps none after a toggle; an unchosen option lands at the end. */
  lemma TogglePreservesNoDup(current: Option<seq<string>>, opt: string)
    requires NoDup(current.GetOr([]))
    ensures NoDup(Toggle(current, opt))
    ensures opt !in current.GetOr([]) ==> Toggle(current, opt) == current.GetOr([]) + [opt]
  {
  }

  /** Choosing an unchosen option and then unchoosing it gives back the very same list. */
  lemma ToggleTwiceRestores(values: seq<string>, opt: string)
    requires opt !in values
    ensures Toggle(Some(Toggle(Some(values), opt)), opt) == values
  {
    var once := values + [opt];
    assert Toggle(Some(values), opt) == once;
    RemoveAllAppended(values, opt);
  }

  lemma {:induction false} RemoveAllAppended(values: seq<string>, opt: string)
    requires opt !in values
    ensures RemoveAll(values + [opt], opt) == values
  {
    if values == [] {
      assert values + [opt] == [opt];
    } else {
      assert (values + [opt])[1..] == values[1..] + [opt];
      RemoveAllAppended(values[1..], opt);
    }
  }

  /** The order in which `new Set(values)` holds the values: first occurrences, in order. */
  function Dedup(s: seq<string>): (d: seq<string>)
    ensures NoDup(d)
    ensures forall x :: x in d <==> x in s
  {
    if s == [] then []
    else
      var d := Dedup(s[..|s| - 1]);
      assert forall x :: x in s ==> x in s[..|s| - 1] || x == s[|s| - 1];
      if s[|s| - 1] in d then d else d + [s[|s| - 1]]
  }

  /** The list `setVal` passes on: the deduplicated values with the option deleted or added. */
  function SetValResult(values: Option<seq<string>>, opt: string): seq<string>
  {
    var d := Dedup(values.GetOr([]));
    if opt in d then RemoveAll(d, opt) else d + [opt]
  }

  /**
   * `CheckboxGroup.setVal`: build a `Set` from the current values, delete the
   * option if present and add it otherwise, and read the set back in insertion order.
   */
  method SetVal(values: Option<seq<string>>, opt: string) returns (r: seq<string>)
    ensures r == SetValResult(values, opt)
    ensures NoDup(r)
    ensures opt in r <==> opt !in values.GetOr([])
    ensures forall y :: y != opt ==> (y in r <==> y in values.GetOr([]))
  {
    var vs := values.GetOr([]);
    var chosen: seq<string> := [];
    for i := 0 to |vs|
      invariant chosen == Dedup(vs[..i])
    {
      assert vs[..i + 1][..i] == vs[..i] && vs[..i + 1][i] == vs[i];
      if vs[i] !in chosen {
        chosen := chosen + [vs[i]];
      }
    }
    assert vs[..|vs|] == vs;
    if opt in chosen {
      chosen := RemoveAll(chosen, opt);
    } else {
      chosen := chosen + [opt];
    }
    r := chosen;
  }

  /** `setVal` flips the option's membership and keeps every other option's. */
  lemma SetValFlips(values: Option<seq<string>>, opt: string)
    ensures opt in SetValResult(values, opt) <==> opt !in values.GetOr([])
    ensures forall y :: y != opt ==> (y in SetValResult(values, opt) <==> y in values.GetOr([]))
  {
  }

  /** Two presses of the same checkbox leave every option chosen exactly when it was chosen before. */
  lemma SetValTwiceRestoresMembership(values: seq<string>, opt: string)
    ensures forall y :: y in SetValResult(Some(SetValResult(Some(values), opt)), opt) <==> y in values
  {
    var once := SetValResult(Some(values), opt);
    SetValFlips(Some(values), opt);
    SetValFlips(Some(once), opt);
  }

  /** On a list without duplicates, pressing an unchosen option and then pressing it again gives back the list. */
  lemma SetValTwiceRestoresList(values: seq<string>, opt: string)
    requires NoDup(values) && opt !in values
    ensures SetValResult(Some(SetValResult(Some(values), opt)), opt) == values
  {
    DedupOfNoDup(values);
    DedupOfNoDup(values + [opt]);
    RemoveAllAppended(values, opt);
  }

  lemma {:induction false} DedupOfNoDup(s: seq<string>)
    requires NoDup(s)
    ensures Dedup(s) == s
  {
    if s != [] {
      var init := s[..|s| - 1];
      DedupOfNoDup(init);
      assert s[|s| - 1] !in init;
      assert init + [s[|s| - 1]] == s;
    }
  }
}
