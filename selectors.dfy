/** webapp/src/selectors.js: whether there is room in the window for the
    plugin's own survey post, in its full or its small layout. */
module Selectors {

  datatype Option<T> = None | Some(value: T)

  /** The parts of the redux state these selectors read. `messageDisplay` is
      the message_display display preference (absent when the user never set
      it), `myTeams` the number of teams the user belongs to, and `windowWidth`
      the plugin's stored width, absent while the plugin has no state. */
  datatype State = State(messageDisplay: Option<string>, isSidebarOpen: bool, myTeams: nat, windowWidth: Option<int>)

  const MessageDisplayDefault: string := "clean"
  const MessageDisplayCompact: string := "compact"

  /** The width below which the post does not fit on any layout. */
  const MinWidth: int := 768

  /** The room the team sidebar takes when it is shown. */
  const TeamSidebarWidth: int := 65

  predicate IsCompactView(state: State) {
    (if state.messageDisplay.Some? then state.messageDisplay.value else MessageDisplayDefault) == MessageDisplayCompact
  }

  /** The team sidebar is shown only to a user in more than one team. */
  predicate IsTeamSidebarVisible(state: State) {
    state.myTeams > 1
  }

  /** A row of requiredWidths. */
  datatype Requirement = Requirement(compactView: bool, sidebarOpen: bool, fullWidth: int, smallWidth: int)

  const RequiredWidths: seq<Requirement> := [
    Requirement(false, false, 856, 769),
    Requirement(false, true, 1260, 1090),
    Requirement(true, false, 898, 769),
    Requirement(true, true, 1298, 1130)]

  predicate RowMatches(row: Requirement, compactView: bool, sidebarOpen: bool) {
    row.compactView == compactView && row.sidebarOpen == sidebarOpen
  }

  /** Array.prototype.find: the first row for the display settings. */
  function Find(rows: seq<Requirement>, compactView: bool, sidebarOpen: bool): (r: Option<Requirement>)
    ensures r.None? <==> forall i :: 0 <= i < |rows| ==> !RowMatches(rows[i], compactView, sidebarOpen)
    ensures r.Some? ==> exists i :: 0 <= i < |rows| && rows[i] == r.value && RowMatches(rows[i], compactView, sidebarOpen)
                                    && forall j :: 0 <= j < i ==> !RowMatches(rows[j], compactView, sidebarOpen)
  {
    if rows == [] then None
    else if RowMatches(rows[0], compactView, sidebarOpen) then Some(rows[0])
    else
      var r := Find(rows[1..], compactView, sidebarOpen);
      assert forall i :: 1 <= i < |rows| ==> rows[i] == rows[1..][i - 1];
      r
  }

  /** Every combination of settings has its row, so the destructuring of the
      found row never fails; the rows are those of the table. */
  lemma RowForEverySetting(compactView: bool, sidebarOpen: bool)
    ensures var r := Find(RequiredWidths, compactView, sidebarOpen);
            && r.Some?
            && r.value.compactView == compactView && r.value.sidebarOpen == sidebarOpen
            && r.value.fullWidth >= r.value.smallWidth > MinWidth
            && r.value.fullWidth == (if compactView then (if sidebarOpen then 1298 else 898)
                                     else (if sidebarOpen then 1260 else 856))
            && r.value.smallWidth == (if !sidebarOpen then 769 else if compactView then 1130 else 1090)
  {
    var rows := RequiredWidths;
    assert RowMatches(rows[0], false, false) && RowMatches(rows[1], false, true);
    assert RowMatches(rows[2], true, false) && RowMatches(rows[3], true, true);
  }

  /** The width the post needs: the row's width, less the team sidebar's room when
      the sidebar is hidden. */
  function Needed(width: int, teamSidebarVisible: bool): int {
    if teamSidebarVisible then width else width - TeamSidebarWidth
  }

  /** What `windowWidth >= needed && windowWidth > 768` is in JavaScript: an
      undefined width compares as false. */
  predicate Fits(windowWidth: Option<int>, needed: int) {
    windowWidth.Some? && windowWidth.value >= needed && windowWidth.value > MinWidth
  }

  function RowFor(state: State): (row: Requirement)
    ensures RowMatches(row, IsCompactView(state), state.isSidebarOpen)
    ensures row.fullWidth >= row.smallWidth > MinWidth
  {
    RowForEverySetting(IsCompactView(state), state.isSidebarOpen);
    Find(RequiredWidths, IsCompactView(state), state.isSidebarOpen).value
  }

  /** useSurveyPost: the small survey post fits. */
  function UseSurveyPost(state: State): (use: bool)
    ensures use <==> state.windowWidth.Some? && state.windowWidth.value > MinWidth
                     && state.windowWidth.value + (if IsTeamSidebarVisible(state) then 0 else TeamSidebarWidth)
                        >= RowFor(state).smallWidth
  {
    Fits(state.windowWidth, Needed(RowFor(state).smallWidth, IsTeamSidebarVisible(state)))
  }

  /** useFullSurveyPost: the full survey post fits. */
  function UseFullSurveyPost(state: State): (use: bool)
    ensures use <==> state.windowWidth.Some? && state.windowWidth.value > MinWidth
                     && state.windowWidth.value + (if IsTeamSidebarVisible(state) then 0 else TeamSidebarWidth)
                        >= RowFor(state).fullWidth
  {
    Fits(state.windowWidth, Needed(RowFor(state).fullWidth, IsTeamSidebarVisible(state)))
  }

  /** isSurveyPostSmall: in the right-hand sidebar, or where the full post does not fit. */
  function IsSurveyPostSmall(state: State, isRHS: bool): (small: bool)
    ensures small <==> isRHS || !UseFullSurveyPost(state)
    ensures !UseSurveyPost(state) ==> small
  {
    FullImpliesSmall(state);
    isRHS || !UseFullSurveyPost(state)
  }

  /** Neither post is used in a window 768 pixels wide or narrower. */
  lemma NarrowWindows(state: State)
    requires state.windowWidth.Some? && state.windowWidth.value <= MinWidth
    ensures !UseSurveyPost(state) && !UseFullSurveyPost(state)
  {
  }

  /** Where the full post fits, the small one does. */
  lemma FullImpliesSmall(state: State)
    ensures UseFullSurveyPost(state) ==> UseSurveyPost(state)
  {
  }

  /** Widening the window never takes room away. */
  lemma Monotone(state: State, wider: int)
    requires state.windowWidth.Some? && wider >= state.windowWidth.value
    ensures UseSurveyPost(state) ==> UseSurveyPost(state.(windowWidth := Some(wider)))
    ensures UseFullSurveyPost(state) ==> UseFullSurveyPost(state.(windowWidth := Some(wider)))
  {
  }

  /** The thresholds of the default layout: clean messages, right-hand sidebar
      closed. With more than one team the small post needs 769 pixels and the full
      one 856; with one team 769 and 791 (856 less 65), since 704 is below the floor. */
  lemma DefaultLayoutThresholds(myTeams: nat, width: int)
    ensures var state := State(None, false, myTeams, Some(width));
            && (UseSurveyPost(state) <==> width >= 769)
            && (UseFullSurveyPost(state) <==> width >= if myTeams > 1 then 856 else 791)
  {
    RowForEverySetting(false, false);
  }

  /** A team sidebar that appears raises the width needed, never lowers it. */
  lemma TeamSidebarNeedsRoom(state: State, teams: nat)
    requires state.myTeams <= 1 && teams > 1
    ensures UseSurveyPost(state.(myTeams := teams)) ==> UseSurveyPost(state)
    ensures UseFullSurveyPost(state.(myTeams := teams)) ==> UseFullSurveyPost(state)
  {
  }
}
