/** The multiple-choice widget of src/components/MultiChoice.tsx: a list of
    option buttons that toggle membership in `selected`, and a submit button
    that freezes the choice. In single-select mode the first tap selects and
    submits at once. The `onSubmit` callback is optional (App.tsx passes
    none); what it would be called with is returned as a `Submission`. */
module MultiChoiceWidget {
  import opened Wrappers

  /** The widget's state: `selected` and `submitted`. */
  datatype Choice = Choice(selected: seq<string>, submitted: bool)

  /** Nothing selected, nothing submitted. */
  const Initial: Choice := Choice([], false)

  /** A call of `onSubmit` with `selected`, made `delay` ms after the tap. */
  datatype Submission = Submission(selected: seq<string>, delay: nat)

  /** Single-select mode reports its choice after this many ms. */
  const SingleSelectDelay: nat := 300

  /** `s.filter(item => item !== x)`. */
  function Without(s: seq<string>, x: string): (r: seq<string>)
    ensures forall y :: y in r <==> y in s && y != x
    ensures |r| <= |s|
    ensures x !in s ==> r == s
  {
    if s == [] then []
    else if s[0] == x then Without(s[1..], x)
    else [s[0]] + Without(s[1..], x)
  }

  /** Filtering keeps every other element with its multiplicity and drops
      every copy of `x`. */
  lemma {:induction false} WithoutMultiset(s: seq<string>, x: string)
    ensures multiset(Without(s, x)) == multiset(s)[x := 0]
  {
    if s != [] {
      assert s == [s[0]] + s[1..];
      WithoutMultiset(s[1..], x);
    }
  }

  predicate NoDuplicates(s: seq<string>) {
    forall i, j :: 0 <= i < j < |s| ==> s[i] != s[j]
  }

  /** The multi-select update of `selected`: an option already selected is
      removed, any other is appended at the end. */
  function Toggled(prev: seq<string>, option: string): (r: seq<string>)
    ensures option in r <==> option !in prev
    ensures forall y :: y != option ==> (y in r <==> y in prev)
    ensures option !in prev ==> r == prev + [option]
    ensures option in prev ==> multiset(r) == multiset(prev)[option := 0]
  {
    if option in prev then
      WithoutMultiset(prev, option);
      Without(prev, option)
    else prev + [option]
  }

  /** `handleToggle(option)`: the new state and the submission it reports. */
  function Toggle(allowMultiple: bool, c: Choice, option: string): (Choice, Option<Submission>) {
    if c.submitted then (c, None)
    else if !allowMultiple then (Choice([option], true), Some(Submission([option], SingleSelectDelay)))
    else (c.(selected := Toggled(c.selected, option)), None)
  }

  /** `handleSubmit()`: it has an effect only when something is selected. */
  function Submit(c: Choice): (Choice, Option<Submission>) {
    if |c.selected| > 0 then (c.(submitted := true), Some(Submission(c.selected, 0))) else (c, None)
  }

  /** The submit button is on screen. */
  predicate SubmitOffered(allowMultiple: bool, c: Choice) {
    allowMultiple && |c.selected| > 0 && !c.submitted
  }

  /** The option's button is drawn highlighted, with a check mark. */
  predicate Highlighted(c: Choice, option: string) {
    option in c.selected
  }

  /** The state after the viewer taps `taps` in order, and the submissions
      those taps report, in order. */
  function ToggleAll(allowMultiple: bool, c: Choice, taps: seq<string>): (Choice, seq<Submission>)
    decreases |taps|
  {
    if taps == [] then (c, [])
    else
      var (c', report) := Toggle(allowMultiple, c, taps[0]);
      var (last, reports) := ToggleAll(allowMultiple, c', taps[1..]);
      (last, (if report.Some? then [report.value] else []) + reports)
  }

  lemma {:induction false} WithoutKeepsNoDuplicates(s: seq<string>, x: string)
    requires NoDuplicates(s)
    ensures NoDuplicates(Without(s, x))
  {
    if s != [] {
      WithoutKeepsNoDuplicates(s[1..], x);
      var w := Without(s[1..], x);
      if s[0] != x {
        assert s[0] !in w by {
          assert s[0] !in s[1..];
        }
      }
    }
  }

  /** Removing an option just appended gives back the list. */
  lemma {:induction false} WithoutAppended(s: seq<string>, x: string)
    requires x !in s
    ensures Without(s + [x], x) == s
  {
    if s != [] {
      assert (s + [x])[1..] == s[1..] + [x];
      WithoutAppended(s[1..], x);
    }
  }

  /** In a list without duplicates, filtering out the element at `i` leaves
      the elements before it followed by those after it, in order. */
  lemma {:induction false} WithoutAt(s: seq<string>, i: int)
    requires NoDuplicates(s) && 0 <= i < |s|
    ensures Without(s, s[i]) == s[..i] + s[i + 1..]
  {
    var x, t := s[i], s[1..];
    NoDuplicatesTail(s);
    if i == 0 {
      assert s[..0] + s[1..] == t;
    } else {
      assert t[i - 1] == x;
      WithoutAt(t, i - 1);
      calc {
        Without(s, x);
        [s[0]] + Without(t, x);
        [s[0]] + (t[..i - 1] + t[i..]);
        { assert s[..i] == [s[0]] + t[..i - 1] && s[i + 1..] == t[i..]; }
        s[..i] + s[i + 1..];
      }
    }
  }

  /** The head of a list without duplicates is not in its tail, and the
      tail has no duplicates either. */
  lemma NoDuplicatesTail(s: seq<string>)
    requires NoDuplicates(s) && |s| > 0
    ensures s[0] !in s[1..] && NoDuplicates(s[1..])
  {
    var t := s[1..];
    forall a, b | 0 <= a < b < |t| ensures t[a] != t[b] {
      assert t[a] == s[a + 1] && t[b] == s[b + 1];
    }
  }

  /** Untapping a selected option removes just it: the options before it
      stay, followed by those after it, in order. */
  lemma ToggleOffKeepsOrder(prev: seq<string>, i: int)
    requires NoDuplicates(prev) && 0 <= i < |prev|
    ensures Toggled(prev, prev[i]) == prev[..i] + prev[i + 1..]
  {
    WithoutAt(prev, i);
  }

  /** Toggling keeps `selected` free of duplicates. */
  lemma ToggledKeepsNoDuplicates(prev: seq<string>, option: string)
    requires NoDuplicates(prev)
    ensures NoDuplicates(Toggled(prev, option))
  {
    if option in prev {
      WithoutKeepsNoDuplicates(prev, option);
    }
  }

  /** Toggling the same option twice restores which options are selected,
      and restores the very list when the option was not selected at first. */
  lemma ToggleTwice(prev: seq<string>, option: string)
    ensures forall y :: y in Toggled(Toggled(prev, option), option) <==> y in prev
    ensures option !in prev ==> Toggled(Toggled(prev, option), option) == prev
  {
    if option !in prev {
      WithoutAppended(prev, option);
    }
  }

  /** A tap in multi-select mode flips the highlight of the tapped option
      and of no other. */
  lemma ToggleFlipsHighlight(c: Choice, option: string, other: string)
    requires !c.submitted
    ensures Highlighted(Toggle(true, c, option).0, option) <==> !Highlighted(c, option)
    ensures other != option ==> (Highlighted(Toggle(true, c, option).0, other) <==> Highlighted(c, other))
  {
  }

  /** Once submitted, every further tap changes nothing and reports nothing. */
  lemma {:induction false} SubmittedIsFinal(allowMultiple: bool, c: Choice, taps: seq<string>)
    requires c.submitted
    ensures ToggleAll(allowMultiple, c, taps) == (c, [])
    decreases |taps|
  {
    if taps != [] {
      SubmittedIsFinal(allowMultiple, c, taps[1..]);
      var none: seq<Submission> := [];
      assert none + none == none;
    }
  }

  /** In single-select mode the first tap selects and submits, and is the
      only tap reported, with the tapped option after 300 ms; any later tap
      is ignored. */
  lemma SingleSelectFirstTapWins(c: Choice, taps: seq<string>)
    requires !c.submitted && |taps| > 0
    ensures ToggleAll(false, c, taps) ==
              (Choice([taps[0]], true), [Submission([taps[0]], SingleSelectDelay)])
  {
    SubmittedIsFinal(false, Choice([taps[0]], true), taps[1..]);
    assert [Submission([taps[0]], SingleSelectDelay)] + [] == [Submission([taps[0]], SingleSelectDelay)];
  }

  /** In multi-select mode, started from nothing, any taps leave `selected`
      without duplicates, nothing submitted and nothing reported. */
  lemma {:induction false} MultiSelectNoDuplicates(c: Choice, taps: seq<string>)
    requires NoDuplicates(c.selected) && !c.submitted
    ensures NoDuplicates(ToggleAll(true, c, taps).0.selected)
    ensures !ToggleAll(true, c, taps).0.submitted
    ensures ToggleAll(true, c, taps).1 == []
    decreases |taps|
  {
    if taps != [] {
      ToggledKeepsNoDuplicates(c.selected, taps[0]);
      MultiSelectNoDuplicates(Toggle(true, c, taps[0]).0, taps[1..]);
      var none: seq<Submission> := [];
      assert none + none == none;
    }
  }

  /** Submitting a non-empty selection reports exactly that selection,
      withdraws the submit button and freezes the widget; with nothing
      selected it does nothing. */
  lemma SubmitIsFinal(allowMultiple: bool, c: Choice, taps: seq<string>)
    ensures |c.selected| == 0 ==> Submit(c) == (c, None)
    ensures |c.selected| > 0 ==>
      && Submit(c).1 == Some(Submission(c.selected, 0))
      && Submit(c).0.selected == c.selected
      && !SubmitOffered(allowMultiple, Submit(c).0)
      && ToggleAll(allowMultiple, Submit(c).0, taps) == (Submit(c).0, [])
  {
    if |c.selected| > 0 {
      SubmittedIsFinal(allowMultiple, Submit(c).0, taps);
    }
  }

  /** The widget as a component instance, its state updated in place. */
  class MultiChoice {
    const options: seq<string>
    const allowMultiple: bool
    var selected: seq<string>
    var submitted: bool

    function Snapshot(): Choice
      reads this
    {
      Choice(selected, submitted)
    }

    /** `allowMultiple` defaults to true. */
    constructor (options: seq<string>, allowMultiple: Option<bool>)
      ensures this.options == options && this.allowMultiple == allowMultiple.GetOr(true)
      ensures Snapshot() == Initial
    {
      this.options := options;
      this.allowMultiple := allowMultiple.GetOr(true);
      selected, submitted := [], false;
    }

    method HandleToggle(option: string) returns (report: Option<Submission>)
      modifies this
      ensures (Snapshot(), report) == Toggle(allowMultiple, old(Snapshot()), option)
    {
      report := None;
      if submitted {
        return;
      }
      if !allowMultiple {
        selected := [option];
        submitted := true;
        report := Some(Submission([option], SingleSelectDelay));
      } else if option in selected {
        selected := Without(selected, option);
      } else {
        selected := selected + [option];
      }
    }

    method HandleSubmit() returns (report: Option<Submission>)
      modifies this
      ensures (Snapshot(), report) == Submit(old(Snapshot()))
    {
      report := None;
      if |selected| > 0 {
        submitted := true;
        report := Some(Submission(selected, 0));
      }
    }
  }
}
