/**
 * The selection engine of src/App.tsx: the order the projects are listed in,
 * the names fuzzy search sees, the option list with its "Create new" entry,
 * the visible window, and the key handling and effects that move the
 * selection. Fuse.js is an uninterpreted function supplied with the picker.
 */
module App {
  import opened Base
  import Sorting
  import opened Scanner
  import opened Config

  const VISIBLE_ROWS := 15

  // ---------------------------------------------------------------------------
  // Column padding.

  /** `padRight(str, length)`: cut to `length`, or filled with spaces on the right. */
  function PadRight(str: string, length: int): (r: string)
    ensures |r| == if length > 0 then length else 0
    ensures |str| >= length ==> r == str[..|r|]
    ensures |str| < length ==> r[..|str|] == str && forall i :: |str| <= i < |r| ==> r[i] == ' '
  {
    if |str| >= length then str[..if length > 0 then length else 0]
    else str + Spaces(length - |str|)
  }

  /** `padLeft(str, length)`: cut to `length`, or filled with spaces on the left. */
  function PadLeft(str: string, length: int): (r: string)
    ensures |r| == if length > 0 then length else 0
    ensures |str| >= length ==> r == str[..|r|]
    ensures |str| < length ==> r[|r| - |str|..] == str && forall i :: 0 <= i < |r| - |str| ==> r[i] == ' '
  {
    if |str| >= length then str[..if length > 0 then length else 0]
    else Spaces(length - |str|) + str
  }

  // ---------------------------------------------------------------------------
  // Recents first.

  /** `recentPaths.has(path)`. */
  predicate IsRecent(recentDirs: seq<RecentDirectory>, path: string) {
    exists i :: 0 <= i < |recentDirs| && recentDirs[i].path == path
  }

  /** `recentDirs.find(r => r.path === path)?.accessedAt || 0`. */
  function RecentTime(recentDirs: seq<RecentDirectory>, path: string): (t: int)
    ensures !IsRecent(recentDirs, path) ==> t == 0
    ensures forall i :: (0 <= i < |recentDirs| && recentDirs[i].path == path
      && forall j :: 0 <= j < i ==> recentDirs[j].path != path) ==> t == recentDirs[i].accessedAt
  {
    if recentDirs == [] then 0
    else if recentDirs[0].path == path then recentDirs[0].accessedAt
    else
      var t := RecentTime(recentDirs[1..], path);
      assert forall i :: 1 <= i < |recentDirs| ==> recentDirs[1..][i - 1] == recentDirs[i];
      t
  }

  function InRecents(recentDirs: seq<RecentDirectory>): ProjectInfo -> bool {
    (p: ProjectInfo) => IsRecent(recentDirs, p.path)
  }

  function NotInRecents(recentDirs: seq<RecentDirectory>): ProjectInfo -> bool {
    (p: ProjectInfo) => !IsRecent(recentDirs, p.path)
  }

  /** The sort key of a recent project. */
  function TimeOf(recentDirs: seq<RecentDirectory>): ProjectInfo -> int {
    (p: ProjectInfo) => RecentTime(recentDirs, p.path)
  }

  /** The comparator `bTime - aTime`: later visits first. */
  function Later(a: int, b: int): bool {
    a >= b
  }

  /** The recent projects, most recently visited first, then the rest in scanner order. */
  function OrderedProjects(projects: seq<ProjectInfo>, recentDirs: seq<RecentDirectory>): (r: seq<ProjectInfo>)
    ensures |r| == |projects|
  {
    var recents, others := Filter(projects, InRecents(recentDirs)), Filter(projects, NotInRecents(recentDirs));
    FilterPartition(projects, InRecents(recentDirs), NotInRecents(recentDirs));
    assert |multiset(recents)| + |multiset(others)| == |multiset(projects)|;
    Sorting.SortBy(recents, TimeOf(recentDirs), Later) + others
  }

  /** How many of the projects are recent. */
  function RecentCount(projects: seq<ProjectInfo>, recentDirs: seq<RecentDirectory>): nat {
    |Filter(projects, InRecents(recentDirs))|
  }

  /** The ordering lists every project exactly as often as the scanner did. */
  lemma OrderedIsPermutation(projects: seq<ProjectInfo>, recentDirs: seq<RecentDirectory>)
    ensures multiset(OrderedProjects(projects, recentDirs)) == multiset(projects)
  {
    FilterPartition(projects, InRecents(recentDirs), NotInRecents(recentDirs));
  }

  /** Every recent project precedes every other project. */
  lemma RecentsFirst(projects: seq<ProjectInfo>, recentDirs: seq<RecentDirectory>)
    ensures var o, k := OrderedProjects(projects, recentDirs), RecentCount(projects, recentDirs);
      && (forall i :: 0 <= i < k ==> IsRecent(recentDirs, o[i].path))
      && (forall i :: k <= i < |o| ==> !IsRecent(recentDirs, o[i].path))
  {
    var recents, others := Filter(projects, InRecents(recentDirs)), Filter(projects, NotInRecents(recentDirs));
    var sorted := Sorting.SortBy(recents, TimeOf(recentDirs), Later);
    var o := OrderedProjects(projects, recentDirs);
    assert o == sorted + others;
    Sorting.SortByKeeps(recents, TimeOf(recentDirs), Later, InRecents(recentDirs));
    forall i | 0 <= i < |sorted| ensures IsRecent(recentDirs, o[i].path) {
      assert InRecents(recentDirs)(sorted[i]);
    }
    forall i | |sorted| <= i < |o| ensures !IsRecent(recentDirs, o[i].path) {
      assert o[i] == others[i - |sorted|];
      assert NotInRecents(recentDirs)(o[i]);
    }
  }

  lemma LaterIsTotalPreorder()
    ensures Sorting.TotalPreorder(Later)
  {
  }

  /** The recent projects appear with non-increasing visit times. */
  lemma RecentsByTime(projects: seq<ProjectInfo>, recentDirs: seq<RecentDirectory>)
    ensures var o, k := OrderedProjects(projects, recentDirs), RecentCount(projects, recentDirs);
      forall i, j :: 0 <= i < j < k ==> RecentTime(recentDirs, o[i].path) >= RecentTime(recentDirs, o[j].path)
  {
    var recents := Filter(projects, InRecents(recentDirs));
    var sorted := Sorting.SortBy(recents, TimeOf(recentDirs), Later);
    LaterIsTotalPreorder();
    Sorting.SortBySorted(recents, TimeOf(recentDirs), Later);
    var o := OrderedProjects(projects, recentDirs);
    forall i, j | 0 <= i < j < |recents|
      ensures RecentTime(recentDirs, o[i].path) >= RecentTime(recentDirs, o[j].path)
    {
      assert o[i] == sorted[i] && o[j] == sorted[j];
      assert Later(TimeOf(recentDirs)(sorted[i]), TimeOf(recentDirs)(sorted[j]));
    }
  }

  /** Recent projects visited at the same time keep the scanner's order among themselves. */
  lemma RecentTiesKeepOrder(projects: seq<ProjectInfo>, recentDirs: seq<RecentDirectory>, t: int)
    ensures var o, k := OrderedProjects(projects, recentDirs), RecentCount(projects, recentDirs);
      Filter(o[..k], Sorting.Equivalent(TimeOf(recentDirs), Later, t))
        == Filter(Filter(projects, InRecents(recentDirs)), Sorting.Equivalent(TimeOf(recentDirs), Later, t))
  {
    var recents := Filter(projects, InRecents(recentDirs));
    var sorted := Sorting.SortBy(recents, TimeOf(recentDirs), Later);
    var o := OrderedProjects(projects, recentDirs);
    assert o[..|recents|] == sorted;
    LaterIsTotalPreorder();
    Sorting.SortByStable(recents, TimeOf(recentDirs), Later, t);
  }

  /** Picking out the non-recent projects of the ordering gives them in the scanner's order. */
  lemma OthersKeepOrder(projects: seq<ProjectInfo>, recentDirs: seq<RecentDirectory>)
    ensures Filter(OrderedProjects(projects, recentDirs), NotInRecents(recentDirs))
         == Filter(projects, NotInRecents(recentDirs))
  {
    var recents := Filter(projects, InRecents(recentDirs));
    var sorted := Sorting.SortBy(recents, TimeOf(recentDirs), Later);
    var others := Filter(projects, NotInRecents(recentDirs));
    FilterAppend(sorted, others, NotInRecents(recentDirs));
    FilterNone(sorted, recentDirs, recents);
    FilterAll(others, NotInRecents(recentDirs));
  }

  lemma FilterNone(sorted: seq<ProjectInfo>, recentDirs: seq<RecentDirectory>, recents: seq<ProjectInfo>)
    requires multiset(sorted) == multiset(recents)
    requires forall i :: 0 <= i < |recents| ==> IsRecent(recentDirs, recents[i].path)
    ensures Filter(sorted, NotInRecents(recentDirs)) == []
  {
    forall i | 0 <= i < |sorted| ensures !NotInRecents(recentDirs)(sorted[i]) {
      assert sorted[i] in multiset(recents);
    }
    FilterNoneKept(sorted, NotInRecents(recentDirs));
  }

  // ---------------------------------------------------------------------------
  // Search.

  /** The name fuzzy search matches: `parent/name` for a nested repository. */
  function SearchName(p: ProjectInfo): (s: string)
    ensures |p.name| <= |s| && s[|s| - |p.name|..] == p.name
    ensures s != p.name <==> p.isSubdirectory && p.parentDir.Some? && p.parentDir.value != ""
    ensures s != p.name ==> StartsWith(s, p.parentDir.value + "/") && |s| == |p.parentDir.value| + 1 + |p.name|
  {
    if p.isSubdirectory && p.parentDir.Some? && p.parentDir.value != "" then p.parentDir.value + "/" + p.name
    else p.name
  }

  /** A project together with the extra key handed to Fuse. */
  datatype SearchEntry = SearchEntry(project: ProjectInfo, searchName: string)

  /** `searchableProjects`. */
  function Searchable(ordered: seq<ProjectInfo>): (r: seq<SearchEntry>)
    ensures |r| == |ordered|
    ensures forall i :: 0 <= i < |r| ==> r[i] == SearchEntry(ordered[i], SearchName(ordered[i]))
  {
    seq(|ordered|, i requires 0 <= i < |ordered| => SearchEntry(ordered[i], SearchName(ordered[i])))
  }

  /** The items of Fuse's results with the `searchName` key dropped again. */
  function Unwrap(results: seq<SearchEntry>): (r: seq<ProjectInfo>)
    ensures |r| == |results|
    ensures forall i :: 0 <= i < |r| ==> r[i] == results[i].project
  {
    seq(|results|, i requires 0 <= i < |results| => results[i].project)
  }

  /** Dropping the search key again gives back the projects that were searched. */
  lemma UnwrapSearchable(ordered: seq<ProjectInfo>)
    ensures Unwrap(Searchable(ordered)) == ordered
  {
  }

  /** `filteredProjects`: every project for an empty query, else what Fuse returns. */
  function FilteredProjects(fuzzy: (seq<SearchEntry>, string) -> seq<SearchEntry>,
                            ordered: seq<ProjectInfo>, query: string): (r: seq<ProjectInfo>)
    ensures query == "" ==> r == ordered
    ensures query != "" ==> r == Unwrap(fuzzy(Searchable(ordered), query))
  {
    if query == "" then ordered else Unwrap(fuzzy(Searchable(ordered), query))
  }

  /** A search that returns its whole collection in order shows every project in its place. */
  lemma FullMatchShowsAll(fuzzy: (seq<SearchEntry>, string) -> seq<SearchEntry>,
                          ordered: seq<ProjectInfo>, query: string)
    requires fuzzy(Searchable(ordered), query) == Searchable(ordered)
    ensures FilteredProjects(fuzzy, ordered, query) == ordered
  {
    UnwrapSearchable(ordered);
  }

  /** Fuse only returns items of the collection it searches. */
  ghost predicate ReturnsItems(fuzzy: (seq<SearchEntry>, string) -> seq<SearchEntry>) {
    forall entries, query, e :: e in fuzzy(entries, query) ==> e in entries
  }

  /** When Fuse only returns items it was given, every filtered project is one of the projects. */
  lemma FilteredFromProjects(fuzzy: (seq<SearchEntry>, string) -> seq<SearchEntry>,
                             projects: seq<ProjectInfo>, recentDirs: seq<RecentDirectory>, query: string)
    requires ReturnsItems(fuzzy)
    ensures forall p :: p in FilteredProjects(fuzzy, OrderedProjects(projects, recentDirs), query) ==> p in projects
  {
    var ordered := OrderedProjects(projects, recentDirs);
    OrderedIsPermutation(projects, recentDirs);
    if query != "" {
      UnwrapFrom(fuzzy(Searchable(ordered), query), ordered);
    }
    forall p | p in FilteredProjects(fuzzy, ordered, query) ensures p in projects {
      assert p in multiset(ordered);
    }
  }

  /** Unwrapping entries taken from the searchable list gives projects of the list. */
  lemma UnwrapFrom(results: seq<SearchEntry>, ordered: seq<ProjectInfo>)
    requires forall e :: e in results ==> e in Searchable(ordered)
    ensures forall p :: p in Unwrap(results) ==> p in ordered
  {
    var u, entries := Unwrap(results), Searchable(ordered);
    forall i | 0 <= i < |u| ensures u[i] in ordered {
      assert results[i] in results;
      var j :| 0 <= j < |entries| && entries[j] == results[i];
      assert entries[j].project == ordered[j];
    }
  }

  /** `allOptions`: the filtered projects followed by the "Create new" entry. */
  function AllOptions(filtered: seq<ProjectInfo>): (r: seq<Option<ProjectInfo>>)
    ensures |r| == |filtered| + 1
    ensures forall i :: 0 <= i < |filtered| ==> r[i] == Some(filtered[i])
    ensures r[|filtered|] == None
  {
    seq(|filtered|, i requires 0 <= i < |filtered| => Some(filtered[i])) + [None]
  }

  /**
   * Exactly the last option is "Create new", and the other options are the
   * filtered projects: the entries the handler can select.
   */
  lemma OptionsThenCreate(filtered: seq<ProjectInfo>)
    ensures var o := AllOptions(filtered);
      && (forall i :: 0 <= i < |o| ==> (o[i].None? <==> i == |o| - 1))
      && (forall p :: p in filtered <==> Some(p) in o)
  {
    var o := AllOptions(filtered);
    forall p ensures p in filtered <==> Some(p) in o {
      if p in filtered {
        var i :| 0 <= i < |filtered| && filtered[i] == p;
        assert o[i] == Some(p);
      }
      if Some(p) in o {
        var i :| 0 <= i < |o| && o[i] == Some(p);
        assert filtered[i] == p;
      }
    }
  }

  // ---------------------------------------------------------------------------
  // The visible window.

  /** `s.slice(start, end)`. */
  function Slice<T>(s: seq<T>, start: int, end: int): (r: seq<T>)
    ensures |r| <= |s|
    ensures forall i :: 0 <= i < |r| ==> r[i] in s
    ensures 0 <= start <= end <= |s| ==> r == s[start..end]
    ensures start >= |s| || 0 <= end <= start ==> r == []
  {
    var a, b := SliceIndex(|s|, start), SliceIndex(|s|, end);
    if a < b then s[a..b] else []
  }

  /** `visibleProjects`. */
  function VisibleProjects(filtered: seq<ProjectInfo>, scrollOffset: int): (r: seq<ProjectInfo>)
    ensures |r| <= VISIBLE_ROWS
    ensures 0 <= scrollOffset <= |filtered| ==>
      r == filtered[scrollOffset..if scrollOffset + VISIBLE_ROWS < |filtered| then scrollOffset + VISIBLE_ROWS else |filtered|]
  {
    Slice(filtered, scrollOffset, scrollOffset + VISIBLE_ROWS)
  }

  function HasMoreAbove(scrollOffset: int): bool {
    scrollOffset > 0
  }

  function HasMoreBelow(filtered: seq<ProjectInfo>, scrollOffset: int): bool {
    scrollOffset + VISIBLE_ROWS < |filtered|
  }

  /**
   * Between them the markers and the window account for every project: the
   * "more above" marker shows exactly when projects precede the window and
   * "more below" exactly when projects follow it.
   */
  lemma WindowMarkers(filtered: seq<ProjectInfo>, scrollOffset: int)
    requires 0 <= scrollOffset <= |filtered|
    ensures var v := VisibleProjects(filtered, scrollOffset);
      && (HasMoreAbove(scrollOffset) <==> |filtered[..scrollOffset]| > 0)
      && (HasMoreBelow(filtered, scrollOffset) <==> scrollOffset + |v| < |filtered|)
      && filtered == filtered[..scrollOffset] + v + filtered[scrollOffset + |v|..]
  {
    var v := VisibleProjects(filtered, scrollOffset);
    assert filtered == filtered[..scrollOffset] + v + filtered[scrollOffset + |v|..];
  }

  // ---------------------------------------------------------------------------
  // The component state and its events.

  /** The fields of Ink's `key` object the handler looks at, with the typed text. */
  datatype Key = Key(input: string, escape: bool, upArrow: bool, downArrow: bool, tab: bool, enter: bool)

  /** What a key press hands back to the caller: keep going, or one of the exit callbacks. */
  datatype Outcome = Continue | Selected(project: ProjectInfo) | Cancelled | CreateRequested

  /** The component's four pieces of state. */
  datatype UiState = UiState(searchQuery: string, selectedIndex: int, isSearchFocused: bool, scrollOffset: int)

  /** The state a key press leaves behind, with what it hands back. */
  datatype Reaction = Reaction(state: UiState, outcome: Outcome)

  /** The `useInput` handler on state `s`, with `filtered` the projects it lists. */
  function InputReaction(s: UiState, filtered: seq<ProjectInfo>, key: Key): Reaction {
    if s.isSearchFocused then
      if key.escape then
        if s.searchQuery != "" then Reaction(s.(searchQuery := ""), Continue) else Reaction(s, Cancelled)
      else if key.downArrow || key.tab then Reaction(s.(isSearchFocused := false, selectedIndex := 0), Continue)
      else if key.enter && |filtered| == 1 then Reaction(s, Selected(filtered[0]))
      else if key.enter && |filtered| > 1 then Reaction(s.(isSearchFocused := false, selectedIndex := 0), Continue)
      else Reaction(s, Continue)
    else if key.escape then Reaction(s.(isSearchFocused := true), Continue)
    else if key.upArrow then
      if s.selectedIndex > 0 then Reaction(s.(selectedIndex := s.selectedIndex - 1), Continue)
      else Reaction(s.(isSearchFocused := true), Continue)
    else if key.downArrow then
      Reaction(if s.selectedIndex < |filtered| then s.(selectedIndex := s.selectedIndex + 1) else s, Continue)
    else if key.enter then
      var options := AllOptions(filtered);
      if 0 <= s.selectedIndex < |options| then
        match options[s.selectedIndex]
        case None => Reaction(s, CreateRequested)
        case Some(p) => Reaction(s, Selected(p))
      else Reaction(s, Continue)
    else if key.input != "" then
      Reaction(s.(isSearchFocused := true, searchQuery := s.searchQuery + key.input), Continue)
    else Reaction(s, Continue)
  }

  /** What each key does, branch by branch, for the state `s` and the filtered list `filtered`. */
  lemma InputReactionCases(s: UiState, filtered: seq<ProjectInfo>, key: Key)
    ensures var r := InputReaction(s, filtered, key);
      // Search box focused.
      && (s.isSearchFocused && key.escape ==>
        && r.state == s.(searchQuery := "")
        && r.outcome == if s.searchQuery == "" then Cancelled else Continue)
      && (s.isSearchFocused && !key.escape && (key.downArrow || key.tab) ==>
        r == Reaction(s.(isSearchFocused := false, selectedIndex := 0), Continue))
      && (s.isSearchFocused && !key.escape && !key.downArrow && !key.tab && key.enter && |filtered| == 1 ==>
        r == Reaction(s, Selected(filtered[0])))
      && (s.isSearchFocused && !key.escape && !key.downArrow && !key.tab && key.enter && |filtered| >= 2 ==>
        r == Reaction(s.(isSearchFocused := false, selectedIndex := 0), Continue))
      && (s.isSearchFocused && !key.escape && !key.downArrow && !key.tab && (!key.enter || |filtered| == 0) ==>
        r == Reaction(s, Continue))
      // List focused.
      && (!s.isSearchFocused && key.escape ==> r == Reaction(s.(isSearchFocused := true), Continue))
      && (!s.isSearchFocused && !key.escape && key.upArrow ==>
        && r.outcome == Continue
        && r.state == if s.selectedIndex > 0 then s.(selectedIndex := s.selectedIndex - 1) else s.(isSearchFocused := true))
      && (!s.isSearchFocused && !key.escape && !key.upArrow && key.downArrow ==>
        && r.outcome == Continue
        && r.state == s.(selectedIndex := if s.selectedIndex < |filtered| then s.selectedIndex + 1 else s.selectedIndex))
      && (!s.isSearchFocused && !key.escape && !key.upArrow && !key.downArrow && key.enter ==>
        && r.state == s
        && (0 <= s.selectedIndex < |filtered| ==> r.outcome == Selected(filtered[s.selectedIndex]))
        && (s.selectedIndex == |filtered| ==> r.outcome == CreateRequested)
        && (!(0 <= s.selectedIndex <= |filtered|) ==> r.outcome == Continue))
      && (!s.isSearchFocused && !key.escape && !key.upArrow && !key.downArrow && !key.enter ==>
        && r.outcome == Continue
        && r.state == if key.input != "" then s.(isSearchFocused := true, searchQuery := s.searchQuery + key.input) else s)
  {
  }

  /** How far the window moves from `from` to `to`. */
  function Distance(to: int, from: int): nat {
    if to >= from then to - from else from - to
  }

  /**
   * The offset the scroll effect settles on: a window that shows row `sel`,
   * and of all such windows the one nearest to the offset `off` it starts from.
   */
  function Scrolled(sel: int, off: int): (r: int)
    ensures r <= sel < r + VISIBLE_ROWS
    ensures forall o :: o <= sel < o + VISIBLE_ROWS ==> Distance(r, off) <= Distance(o, off)
  {
    if sel < off then sel
    else if sel >= off + VISIBLE_ROWS then sel - VISIBLE_ROWS + 1
    else off
  }

  /**
   * The state once the effects have run after an event that left state `s`:
   * after a query change the selection is pulled back to `maxIndex` when it
   * lies past it and the window starts from the top; then the window scrolls
   * to the selection.
   */
  function Settled(s: UiState, maxIndex: int, queryChanged: bool): UiState {
    var sel := if queryChanged && s.selectedIndex > maxIndex then maxIndex else s.selectedIndex;
    s.(selectedIndex := sel, scrollOffset := Scrolled(sel, if queryChanged then 0 else s.scrollOffset))
  }

  class Picker {
    const projects: seq<ProjectInfo>
    const recentDirs: seq<RecentDirectory>
    const fuzzy: (seq<SearchEntry>, string) -> seq<SearchEntry>
    var searchQuery: string
    var selectedIndex: int
    var isSearchFocused: bool
    var scrollOffset: int

    function Filtered(): seq<ProjectInfo>
      reads this
    {
      FilteredProjects(fuzzy, OrderedProjects(projects, recentDirs), searchQuery)
    }

    function Options(): seq<Option<ProjectInfo>>
      reads this
    {
      AllOptions(Filtered())
    }

    /** `maxIndex`: the index of the "Create new" entry. */
    function MaxIndex(): (m: int)
      reads this
      ensures m == |Filtered()| && m >= 0
    {
      |Options()| - 1
    }

    function State(): UiState
      reads this
    {
      UiState(searchQuery, selectedIndex, isSearchFocused, scrollOffset)
    }

    /** The selection is an option and lies in the window of visible rows. */
    ghost predicate Valid()
      reads this
    {
      && 0 <= selectedIndex <= MaxIndex()
      && 0 <= scrollOffset <= selectedIndex < scrollOffset + VISIBLE_ROWS
    }

    /** The state after mounting, once both effects have run on it. */
    constructor (projects: seq<ProjectInfo>, recentDirs: seq<RecentDirectory>,
                 fuzzy: (seq<SearchEntry>, string) -> seq<SearchEntry>)
      ensures this.projects == projects && this.recentDirs == recentDirs && this.fuzzy == fuzzy
      ensures searchQuery == "" && selectedIndex == 0 && isSearchFocused && scrollOffset == 0
      ensures Valid()
    {
      this.projects := projects;
      this.recentDirs := recentDirs;
      this.fuzzy := fuzzy;
      searchQuery := "";
      selectedIndex := 0;
      isSearchFocused := true;
      scrollOffset := 0;
    }

    /**
     * The effect on `[searchQuery]`: the selection is pulled back onto the
     * last option when it lies past it, otherwise kept; the window returns
     * to the top.
     */
    method QueryEffect()
      modifies this
      ensures selectedIndex == if old(selectedIndex) > MaxIndex() then MaxIndex() else old(selectedIndex)
      ensures scrollOffset == 0
      ensures searchQuery == old(searchQuery) && isSearchFocused == old(isSearchFocused)
    {
      var maxIndex := MaxIndex();
      if selectedIndex > maxIndex {
        selectedIndex := if maxIndex >= 0 then maxIndex else 0;
      }
      scrollOffset := 0;
    }

    /**
     * The effect on `[selectedIndex, scrollOffset]`: the window moves up to a
     * selection above it, or down just far enough to show a selection below
     * it. Afterwards the selection is in the window.
     */
    method ScrollEffect()
      modifies this
      ensures old(selectedIndex) < old(scrollOffset) ==> scrollOffset == old(selectedIndex)
      ensures old(scrollOffset) + VISIBLE_ROWS <= old(selectedIndex) ==> scrollOffset == old(selectedIndex) - VISIBLE_ROWS + 1
      ensures old(scrollOffset) <= old(selectedIndex) < old(scrollOffset) + VISIBLE_ROWS ==> scrollOffset == old(scrollOffset)
      ensures scrollOffset == Scrolled(old(selectedIndex), old(scrollOffset))
      ensures scrollOffset <= selectedIndex < scrollOffset + VISIBLE_ROWS
      ensures selectedIndex == old(selectedIndex) && searchQuery == old(searchQuery)
      ensures isSearchFocused == old(isSearchFocused)
    {
      if selectedIndex < scrollOffset {
        scrollOffset := selectedIndex;
      } else if selectedIndex >= scrollOffset + VISIBLE_ROWS {
        scrollOffset := selectedIndex - VISIBLE_ROWS + 1;
      }
    }

    /** `TextInput`'s `onChange` while the search box has focus. */
    method TextInputChange(query: string)
      requires isSearchFocused
      modifies this
      ensures searchQuery == query
      ensures selectedIndex == old(selectedIndex) && scrollOffset == old(scrollOffset) && isSearchFocused
    {
      searchQuery := query;
    }

    /** The `useInput` handler, with the state before the event. */
    method HandleInput(key: Key) returns (outcome: Outcome)
      modifies this
      ensures Reaction(State(), outcome) == InputReaction(old(State()), old(Filtered()), key)
      // Search box focused.
      ensures old(isSearchFocused) && key.escape ==>
        && scrollOffset == old(scrollOffset) && selectedIndex == old(selectedIndex) && isSearchFocused
        && (old(searchQuery) != "" ==> searchQuery == "" && outcome == Continue)
        && (old(searchQuery) == "" ==> searchQuery == "" && outcome == Cancelled)
      ensures old(isSearchFocused) && !key.escape && (key.downArrow || key.tab) ==>
        && !isSearchFocused && selectedIndex == 0 && outcome == Continue
        && searchQuery == old(searchQuery) && scrollOffset == old(scrollOffset)
      ensures old(isSearchFocused) && !key.escape && !key.downArrow && !key.tab && key.enter
              && |old(Filtered())| == 1 ==>
        && outcome == Selected(old(Filtered())[0])
        && searchQuery == old(searchQuery) && selectedIndex == old(selectedIndex)
        && isSearchFocused && scrollOffset == old(scrollOffset)
      ensures old(isSearchFocused) && !key.escape && !key.downArrow && !key.tab && key.enter
              && |old(Filtered())| >= 2 ==>
        && !isSearchFocused && selectedIndex == 0 && outcome == Continue
        && searchQuery == old(searchQuery) && scrollOffset == old(scrollOffset)
      ensures old(isSearchFocused) && !key.escape && !key.downArrow && !key.tab
              && (!key.enter || |old(Filtered())| == 0) ==>
        && outcome == Continue && searchQuery == old(searchQuery) && selectedIndex == old(selectedIndex)
        && isSearchFocused && scrollOffset == old(scrollOffset)
      // List focused.
      ensures !old(isSearchFocused) && key.escape ==>
        && isSearchFocused && outcome == Continue
        && searchQuery == old(searchQuery) && selectedIndex == old(selectedIndex) && scrollOffset == old(scrollOffset)
      ensures !old(isSearchFocused) && !key.escape && key.upArrow ==>
        && outcome == Continue && searchQuery == old(searchQuery) && scrollOffset == old(scrollOffset)
        && (old(selectedIndex) > 0 ==> selectedIndex == old(selectedIndex) - 1 && !isSearchFocused)
        && (old(selectedIndex) <= 0 ==> selectedIndex == old(selectedIndex) && isSearchFocused)
      ensures !old(isSearchFocused) && !key.escape && !key.upArrow && key.downArrow ==>
        && outcome == Continue && searchQuery == old(searchQuery) && scrollOffset == old(scrollOffset)
        && !isSearchFocused
        && selectedIndex == if old(selectedIndex) < old(MaxIndex()) then old(selectedIndex) + 1 else old(selectedIndex)
      ensures !old(isSearchFocused) && !key.escape && !key.upArrow && !key.downArrow && key.enter ==>
        && searchQuery == old(searchQuery) && selectedIndex == old(selectedIndex)
        && !isSearchFocused && scrollOffset == old(scrollOffset)
        && (0 <= old(selectedIndex) < |old(Options())| && old(Options())[old(selectedIndex)].Some?
            ==> outcome == Selected(old(Options())[old(selectedIndex)].value))
        && (old(selectedIndex) == old(MaxIndex()) ==> outcome == CreateRequested)
        && (!(0 <= old(selectedIndex) <= old(MaxIndex())) ==> outcome == Continue)
      ensures !old(isSearchFocused) && !key.escape && !key.upArrow && !key.downArrow && !key.enter ==>
        && outcome == Continue && selectedIndex == old(selectedIndex) && scrollOffset == old(scrollOffset)
        && (key.input != "" ==> isSearchFocused && searchQuery == old(searchQuery) + key.input)
        && (key.input == "" ==> !isSearchFocused && searchQuery == old(searchQuery))
    {
      InputReactionCases(State(), Filtered(), key);
      outcome := Continue;
      if isSearchFocused {
        if key.escape {
          if searchQuery != "" {
            searchQuery := "";
          } else {
            outcome := Cancelled;
          }
        } else if key.downArrow || key.tab {
          isSearchFocused := false;
          selectedIndex := 0;
        } else if key.enter && |Filtered()| > 0 {
          var filtered := Filtered();
          if |filtered| == 1 {
            outcome := Selected(filtered[0]);
          } else {
            isSearchFocused := false;
            selectedIndex := 0;
          }
        }
      } else {
        if key.escape {
          isSearchFocused := true;
        } else if key.upArrow {
          if selectedIndex > 0 {
            selectedIndex := selectedIndex - 1;
          } else {
            isSearchFocused := true;
          }
        } else if key.downArrow {
          if selectedIndex < MaxIndex() {
            selectedIndex := selectedIndex + 1;
          }
        } else if key.enter {
          var options := Options();
          if 0 <= selectedIndex < |options| {
            match options[selectedIndex]
            case None =>
              outcome := CreateRequested;
            case Some(p) =>
              outcome := Selected(p);
          }
        } else if key.input != "" {
          isSearchFocused := true;
          searchQuery := searchQuery + key.input;
        }
      }
    }

    /** The effects that run once the state set by an event is rendered. */
    method Settle(queryChanged: bool)
      requires 0 <= selectedIndex && 0 <= scrollOffset
      requires !queryChanged ==> selectedIndex <= MaxIndex()
      modifies this
      ensures State() == Settled(old(State()), MaxIndex(), queryChanged)
      ensures Valid()
    {
      if queryChanged {
        QueryEffect();
      }
      ScrollEffect();
    }

    /**
     * A key press and the effects it triggers: the handler's outcome, the
     * state it leaves once the effects have settled it, and the selection
     * still on an option and in view.
     */
    method Press(key: Key) returns (outcome: Outcome)
      requires Valid()
      modifies this
      ensures var reaction := InputReaction(old(State()), old(Filtered()), key);
        && outcome == reaction.outcome
        && State() == Settled(reaction.state, MaxIndex(), reaction.state.searchQuery != old(searchQuery))
      ensures Valid()
    {
      var query := searchQuery;
      outcome := HandleInput(key);
      Settle(searchQuery != query);
    }

    /** Typing into the focused search box and the effects it triggers. */
    method Type(query: string)
      requires Valid() && isSearchFocused
      modifies this
      ensures State() == Settled(old(State()).(searchQuery := query), MaxIndex(), query != old(searchQuery))
      ensures Valid()
    {
      var before := searchQuery;
      TextInputChange(query);
      Settle(searchQuery != before);
    }
  }

  /** In a valid state a selected project row is one of the rows drawn, at its place in the window. */
  lemma SelectedRowVisible(filtered: seq<ProjectInfo>, selectedIndex: int, scrollOffset: int)
    requires 0 <= scrollOffset <= selectedIndex < scrollOffset + VISIBLE_ROWS
    requires selectedIndex < |filtered|
    ensures var v := VisibleProjects(filtered, scrollOffset);
      0 <= selectedIndex - scrollOffset < |v| && v[selectedIndex - scrollOffset] == filtered[selectedIndex]
  {
  }
}
