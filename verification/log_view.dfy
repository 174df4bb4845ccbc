/**
 * The console log of VU.Server/ServerWindow.UI.cs: a list of at most `LOG_LIMIT`
 * lines that drops its oldest line when a new one would exceed the limit, the
 * index the user last selected, whether the view follows new lines, and the item
 * the list view shows as selected.
 */
module LogView {
  const LOG_LIMIT: nat := 256

  /** `_logList`, `_logSelectedIndex`, `_logAutoScrollEnabled` and `_logsListView.SelectedItem`. */
  datatype View = View(lines: seq<string>, selectedIndex: int, autoScroll: bool, selectedItem: int)

  /** `CreateUserInterface`: an empty list, index 0, autoscroll on. */
  const EmptyView: View := View([], 0, true, 0)

  /** The list holds no more than `LOG_LIMIT` lines. */
  predicate Bounded(v: View)
  {
    |v.lines| <= LOG_LIMIT
  }

  function Min(a: int, b: int): int
  {
    if a <= b then a else b
  }

  /**
   * `_logList.Add(line)` followed by `RemoveAt(0)` when the list has grown past the limit:
   * the line ends the list, which is the tail of the old list followed by the line.
   */
  function AppendBounded(lines: seq<string>, line: string): (r: seq<string>)
    ensures 1 <= |r| <= |lines| + 1 && r[|r| - 1] == line
    ensures r == (lines + [line])[|lines| + 1 - |r|..]
    ensures |r| == if |lines| < LOG_LIMIT then |lines| + 1 else |lines|
  {
    var grown := lines + [line];
    if |grown| > LOG_LIMIT then grown[1..] else grown
  }

  /** A list within the limit stays within it, and one that is full loses exactly its oldest line. */
  lemma AppendKeepsBound(lines: seq<string>, line: string)
    requires |lines| <= LOG_LIMIT
    ensures |AppendBounded(lines, line)| == Min(|lines| + 1, LOG_LIMIT)
    ensures |lines| < LOG_LIMIT ==> AppendBounded(lines, line) == lines + [line]
    ensures |lines| == LOG_LIMIT ==> AppendBounded(lines, line) == lines[1..] + [line]
  {
    if |lines| == LOG_LIMIT {
      assert (lines + [line])[1..] == lines[1..] + [line];
    }
  }

  /** The list after the lines were appended one at a time. */
  function AppendAll(lines: seq<string>, more: seq<string>): seq<string>
    decreases |more|
  {
    if more == [] then lines else AppendAll(AppendBounded(lines, more[0]), more[1..])
  }

  /**
   * Starting within the limit, the list always holds the most recent lines written, as many
   * of them as the limit allows, oldest first.
   */
  lemma {:induction false} AppendAllKeepsNewest(lines: seq<string>, more: seq<string>)
    requires |lines| <= LOG_LIMIT
    ensures var all, r := lines + more, AppendAll(lines, more);
      |r| == Min(|all|, LOG_LIMIT) && r == all[|all| - |r|..]
    decreases |more|
  {
    if more != [] {
      var next := AppendBounded(lines, more[0]);
      AppendKeepsBound(lines, more[0]);
      AppendAllKeepsNewest(next, more[1..]);
      var all := lines + more;
      var r := AppendAll(lines, more);
      var rest := next + more[1..];
      assert r == rest[|rest| - |r|..];
      var drop := |lines| + 1 - |next|;
      assert next == (lines + [more[0]])[drop..];
      assert rest == all[drop..] by {
        assert all == (lines + [more[0]]) + more[1..];
      }
    }
  }

  /**
   * The selection after a line is appended: the last line when autoscroll is on; otherwise
   * the remembered index, pulled back to the last line when it lies past the end.
   */
  function Reselect(v: View): View
  {
    if |v.lines| > 0 then
      if v.autoScroll then v.(selectedItem := |v.lines| - 1)
      else
        var index := if v.selectedIndex > |v.lines| - 1 then |v.lines| - 1 else v.selectedIndex;
        v.(selectedIndex := index, selectedItem := index)
    else v
  }

  /** The idle action `WriteToLog` queues for `line`. */
  function AfterAppend(v: View, line: string): View
  {
    Reselect(v.(lines := AppendBounded(v.lines, line)))
  }

  /**
   * After the idle action the line is the last of a list that stays within the limit; with
   * autoscroll on the last line is selected, otherwise the remembered index, clamped to the
   * list, is selected.
   */
  lemma AppendSelects(v: View, line: string)
    requires Bounded(v)
    ensures var w := AfterAppend(v, line);
      && Bounded(w) && |w.lines| >= 1 && w.lines[|w.lines| - 1] == line && w.autoScroll == v.autoScroll
      && (v.autoScroll ==> w.selectedItem == |w.lines| - 1 && w.selectedIndex == v.selectedIndex)
      && (!v.autoScroll ==> w.selectedIndex == Min(v.selectedIndex, |w.lines| - 1) && w.selectedItem == w.selectedIndex)
      && (v.selectedIndex >= 0 ==> 0 <= w.selectedItem < |w.lines|)
  {
    AppendKeepsBound(v.lines, line);
  }

  /**
   * The user selects `item`: the list view has already made it its `SelectedItem` when it raises
   * `SelectedItemChanged`, and `LogsListView_SelectedItemChanged` remembers it; autoscroll stays
   * on only on the last of several lines.
   */
  function SelectionChanged(v: View, item: int): (w: View)
    ensures w.lines == v.lines && w.selectedItem == item && w.selectedIndex == item
    ensures w.autoScroll <==> item == |v.lines| - 1 && |v.lines| != 1
  {
    if item != |v.lines| - 1 || |v.lines| == 1 then v.(selectedIndex := item, selectedItem := item, autoScroll := false)
    else v.(selectedIndex := item, selectedItem := item, autoScroll := true)
  }

  /** Selecting the last of several lines makes the view follow the next line written. */
  lemma SelectingLastFollows(v: View, line: string)
    requires Bounded(v) && |v.lines| >= 2
    ensures var w := AfterAppend(SelectionChanged(v, |v.lines| - 1), line);
      w.autoScroll && w.selectedItem == |w.lines| - 1
  {
    AppendSelects(SelectionChanged(v, |v.lines| - 1), line);
  }

  /**
   * Selecting an earlier line keeps its index selected through the next write: the same line
   * while the list has room, the line after it once a full list drops its oldest line.
   */
  lemma SelectingEarlierStays(v: View, item: int, line: string)
    requires Bounded(v) && 0 <= item < |v.lines| - 1
    ensures var w := AfterAppend(SelectionChanged(v, item), line);
      && !w.autoScroll && w.selectedIndex == item && w.selectedItem == item
      && (|v.lines| < LOG_LIMIT ==> w.lines[item] == v.lines[item])
      && (|v.lines| == LOG_LIMIT ==> w.lines[item] == v.lines[item + 1])
  {
    AppendSelects(SelectionChanged(v, item), line);
    AppendKeepsBound(v.lines, line);
  }

  /** Selecting the only line turns autoscroll off, so the view stays on the first line from then on. */
  lemma SelectingOnlyLineStops(v: View, line: string)
    requires |v.lines| == 1
    ensures var w := AfterAppend(SelectionChanged(v, 0), line);
      !w.autoScroll && w.selectedItem == 0
  {
  }
}
