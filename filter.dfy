/**
 * The four view filters of the todo board and the option list the filter
 * select box is built from (src/App.tsx:33-65).
 */
module Filter {
  import opened Wrappers

  /** FilterStatusCode: the enum whose string values are '1' to '4'. */
  datatype FilterStatusCode = All | Uncompleted | Completed | Trashed

  /** The string value each enum member carries. */
  function Code(f: FilterStatusCode): (c: string)
    ensures |c| == 1 && '1' <= c[0] <= '4'
  {
    match f
    case All => "1"
    case Uncompleted => "2"
    case Completed => "3"
    case Trashed => "4"
  }

  /** The label shown for a filter in the select box. */
  function Name(f: FilterStatusCode): string
  {
    match f
    case All => "全て"
    case Uncompleted => "未完了"
    case Completed => "完了済み"
    case Trashed => "ゴミ箱"
  }

  /** One entry of filterStatusList: the option value and its label. */
  datatype FilterStatus = FilterStatus(code: string, name: string)

  /** filterStatusList, in the order the select box shows it. */
  function FilterStatusList(): (list: seq<FilterStatus>)
    ensures |list| == 4
  {
    [ FilterStatus(Code(All), Name(All)),
      FilterStatus(Code(Uncompleted), Name(Uncompleted)),
      FilterStatus(Code(Completed), Name(Completed)),
      FilterStatus(Code(Trashed), Name(Trashed)) ]
  }

  /**
   * Reads back the value of a selected option (the `as FilterStatusCode` cast
   * of the select box's change handler); None for a string that is no code.
   */
  function FromCode(c: string): (r: Option<FilterStatusCode>)
    ensures r.Some? <==> c in {"1", "2", "3", "4"}
  {
    if c == "1" then Some(All)
    else if c == "2" then Some(Uncompleted)
    else if c == "3" then Some(Completed)
    else if c == "4" then Some(Trashed)
    else None
  }

  /** Reading back a code gives the filter it came from, and only that code does. */
  lemma CodeRoundTrip(f: FilterStatusCode, c: string)
    ensures FromCode(Code(f)) == Some(f)
    ensures FromCode(c) == Some(f) ==> c == Code(f)
  {
  }

  /**
   * The option list offers every filter exactly once, under its own code
   * and label, so any option the user picks reads back as a filter.
   */
  lemma FilterStatusListComplete(f: FilterStatusCode)
    ensures exists i :: 0 <= i < |FilterStatusList()| && FilterStatusList()[i] == FilterStatus(Code(f), Name(f))
    ensures forall i, j :: 0 <= i < j < |FilterStatusList()| ==> FilterStatusList()[i].code != FilterStatusList()[j].code
    ensures forall i :: 0 <= i < |FilterStatusList()| ==> FromCode(FilterStatusList()[i].code).Some?
  {
    var list := FilterStatusList();
    match f
    case All => assert list[0] == FilterStatus(Code(f), Name(f));
    case Uncompleted => assert list[1] == FilterStatus(Code(f), Name(f));
    case Completed => assert list[2] == FilterStatus(Code(f), Name(f));
    case Trashed => assert list[3] == FilterStatus(Code(f), Name(f));
  }
}
