/** The schedule picker: one on/off flag per weekday, built from the days
    the caller already chose, flipped by tapping a row or a switch, and read
    back on "done" as the chosen days in Monday-first order. */
module Schedule {
  import opened Common
  import opened WeekDays

  /** The flags a list of days sets: flag i is on iff some day has index i. */
  function FlagsOf(days: seq<WeekDay>): (flags: seq<bool>)
    ensures |flags| == |AllCases|
  {
    seq(|AllCases|, i requires 0 <= i < |AllCases| => AllCases[i] in days)
  }

  /** `weekdays.enumerated().compactMap { selected[idx] ? day : nil }`
      restricted to the first `n` days of the week. */
  function ChosenAmong(flags: seq<bool>, n: nat): seq<WeekDay>
    requires n <= |AllCases| == |flags|
  {
    if n == 0 then []
    else ChosenAmong(flags, n - 1) + (if flags[n - 1] then [AllCases[n - 1]] else [])
  }

  /** The days reported by "done". */
  function SelectedDays(flags: seq<bool>): seq<WeekDay>
    requires |flags| == |AllCases|
  {
    ChosenAmong(flags, |AllCases|)
  }

  /** `selected[row].toggle()`. */
  function ToggledAt(flags: seq<bool>, row: nat): (r: seq<bool>)
    requires row < |flags|
  {
    flags[row := !flags[row]]
  }

  lemma {:induction false} ChosenAmongSpec(flags: seq<bool>, n: nat)
    requires n <= |AllCases| == |flags|
    ensures forall d :: d in ChosenAmong(flags, n) <==> Index(d) < n && flags[Index(d)]
    ensures forall i, j | 0 <= i < j < |ChosenAmong(flags, n)| ::
              Index(ChosenAmong(flags, n)[i]) < Index(ChosenAmong(flags, n)[j])
  {
    if n > 0 {
      ChosenAmongSpec(flags, n - 1);
      var prev := ChosenAmong(flags, n - 1);
      var r := ChosenAmong(flags, n);
      forall i, j | 0 <= i < j < |r|
        ensures Index(r[i]) < Index(r[j])
      {
        if j >= |prev| {
          assert r[j] == AllCases[n - 1];
          assert r[i] == prev[i] && r[i] in prev;
        }
      }
    }
  }

  /** "Done" reports exactly the days whose flag is on, in `allCases`
      order, with no day twice. */
  lemma SelectedDaysSpec(flags: seq<bool>)
    requires |flags| == |AllCases|
    ensures forall d :: d in SelectedDays(flags) <==> flags[Index(d)]
    ensures forall i, j | 0 <= i < j < |SelectedDays(flags)| ::
              Index(SelectedDays(flags)[i]) < Index(SelectedDays(flags)[j])
    ensures NoDuplicates(SelectedDays(flags))
  {
    ChosenAmongSpec(flags, |AllCases|);
  }

  /** On the flags opened from `days`, the first `n` chosen days are the
      first `n` days of the week kept when they are among `days`. */
  lemma {:induction false} ChosenAmongFlagsOf(days: seq<WeekDay>, n: nat)
    requires n <= |AllCases|
    ensures ChosenAmong(FlagsOf(days), n) == Filter(AllCases[..n], (d: WeekDay) => d in days)
  {
    var p := (d: WeekDay) => d in days;
    if n == 0 {
      assert AllCases[..0] == [];
    } else {
      ChosenAmongFlagsOf(days, n - 1);
      assert AllCases[..n] == AllCases[..n - 1] + [AllCases[n - 1]];
      FilterAppend(AllCases[..n - 1], [AllCases[n - 1]], p);
      assert Filter([AllCases[n - 1]], p) == Filter([], p) + (if p(AllCases[n - 1]) then [AllCases[n - 1]] else []);
    }
  }

  /** Opening the picker with days `days` and pressing "done" at once reports
      the days of the week that are among `days`, once each, in `allCases`
      order. */
  lemma OpenThenDoneRoundTrip(days: seq<WeekDay>)
    ensures SelectedDays(FlagsOf(days)) == Filter(AllCases, (d: WeekDay) => d in days)
  {
    ChosenAmongFlagsOf(days, |AllCases|);
    assert AllCases[..|AllCases|] == AllCases;
  }

  /** Tapping a row flips that flag alone; tapping it twice restores all. */
  lemma ToggleRowSpec(flags: seq<bool>, row: nat)
    requires row < |flags|
    ensures |ToggledAt(flags, row)| == |flags|
    ensures ToggledAt(flags, row)[row] == !flags[row]
    ensures forall i | 0 <= i < |flags| && i != row :: ToggledAt(flags, row)[i] == flags[i]
    ensures ToggledAt(ToggledAt(flags, row), row) == flags
  {
  }

  /** The picker. `selected` is the fixed-size flag buffer; its length is
      set once, by the constructor. */
  class ScheduleViewController {
    const selected: array<bool>

    ghost predicate Valid()
    {
      selected.Length == |AllCases|
    }

    /** `init(initialSelectedDays:)`. */
    constructor(initialSelectedDays: seq<WeekDay>)
      ensures Valid() && fresh(selected)
      ensures selected[..] == FlagsOf(initialSelectedDays)
    {
      var sel := new bool[|AllCases|](_ => false);
      for k := 0 to |initialSelectedDays|
        invariant forall i | 0 <= i < sel.Length :: sel[i] <==> AllCases[i] in initialSelectedDays[..k]
      {
        var day := initialSelectedDays[k];
        sel[Index(day)] := true;
        assert initialSelectedDays[..k + 1] == initialSelectedDays[..k] + [day];
      }
      assert initialSelectedDays[..|initialSelectedDays|] == initialSelectedDays;
      selected := sel;
    }

    /** `doneTapped`: the days reported to the delegate. */
    method DoneTapped() returns (selectedDays: seq<WeekDay>)
      requires Valid()
      ensures selectedDays == SelectedDays(selected[..])
    {
      selectedDays := [];
      for idx := 0 to |AllCases|
        invariant selectedDays == ChosenAmong(selected[..], idx)
      {
        if selected[idx] {
          selectedDays := selectedDays + [AllCases[idx]];
        }
      }
    }

    /** `tableView(_:didSelectRowAt:)`: the table has one row per day. */
    method DidSelectRow(row: nat)
      requires Valid() && row < selected.Length
      modifies selected
      ensures selected[..] == ToggledAt(old(selected[..]), row)
    {
      selected[row] := !selected[row];
    }

    /** `switchChanged(_:)`: a tag outside the buffer changes nothing. */
    method SwitchChanged(tag: int, isOn: bool)
      requires Valid()
      modifies selected
      ensures 0 <= tag < selected.Length ==> selected[..] == old(selected[..])[tag := isOn]
      ensures !(0 <= tag < selected.Length) ==> selected[..] == old(selected[..])
    {
      if !(tag >= 0 && tag < selected.Length) {
        return;
      }
      selected[tag] := isOn;
    }
  }
}
