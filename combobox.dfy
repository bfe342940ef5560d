/** The select box used by the scheduling forms: a trigger button showing the
    current value and a popover listing the options. */
module Combobox {
  import opened Collections

  /** The selected value, owned by the form, and whether the popover is open,
      owned by the box. */
  datatype Selection = Selection(value: string, open: bool)

  /** `option === value ? "" : option`: picking the selected option clears
      the selection, picking any other option selects it. */
  function Toggle(value: string, option: string): (next: string)
    ensures option == value ==> next == ""
    ensures option != value ==> next == option
    ensures next == "" || next == option
  {
    if option == value then "" else option
  }

  /** `onSelect`: the value toggles and the popover closes. */
  function OnSelect(s: Selection, option: string): (r: Selection)
    ensures !r.open
    ensures r.value == Toggle(s.value, option)
  {
    Selection(Toggle(s.value, option), false)
  }

  /** Picking the same option twice from an empty or matching selection
      restores the value: the toggle undoes itself. */
  lemma SelectTwiceRestores(s: Selection, option: string)
    requires s.value == "" || s.value == option
    ensures OnSelect(OnSelect(s, option), option).value == s.value
  {
  }

  /** After a pick the value is empty or one of the options, provided it was
      before. */
  lemma OnSelectStaysInOptions(s: Selection, options: seq<string>, option: string)
    requires option in options
    requires s.value == "" || s.value in options
    ensures OnSelect(s, option).value == "" || OnSelect(s, option).value in options
  {
  }

  /** Which rows carry a visible check mark: exactly those equal to the value. */
  function CheckMarks(options: seq<string>, value: string): (marks: seq<bool>)
    ensures |marks| == |options|
    ensures forall k :: 0 <= k < |options| ==> (marks[k] <==> options[k] == value)
  {
    seq(|options|, k requires 0 <= k < |options| => options[k] == value)
  }

  /** Over options without repeats, one check mark shows when the value is
      an option and none otherwise. */
  lemma {:induction false} CheckMarkCount(options: seq<string>, value: string)
    requires NoDuplicates(options)
    ensures CountTrue(CheckMarks(options, value)) == if value in options then 1 else 0
  {
    if options != [] {
      var tail := options[1..];
      assert CheckMarks(options, value)[1..] == CheckMarks(tail, value);
      CheckMarkCount(tail, value);
      assert value in options <==> options[0] == value || value in tail;
    }
  }

  /** `value || \`Select ${label}\``: the trigger shows the value, or a prompt
      naming the field when nothing is selected. */
  function TriggerLabel(value: string, caption: string): (text: string)
    ensures value != "" ==> text == value
    ensures value == "" ==> text == "Select " + caption
    ensures text != ""
    ensures text == value <==> value != ""
  {
    if value != "" then value else "Select " + caption
  }
}
