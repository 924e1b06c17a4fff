/** The recommendation panel (components/recommendation-container/index.tsx): the selection
    of recommendation ids, the transformation of recommendations into list entries whose
    checkbox reflects the selection, and "add selected", which gathers the selected item ids,
    toggles them through the toggle hook and notifies the page. */
module RecommendationContainer {
  import opened Common
  import opened ProjectsDto
  import opened Http
  import Numbers
  import Seqs
  import UseProjects

  /** An entry of the list the panel renders (`labelText` is the `label` property). */
  datatype RecommendationEntry = RecommendationEntry(id: string, materialType: string, labelText: string, href: string, checked: bool)

  /** `rec.title || rec.body || 'Untitled'`: never empty. */
  function Label(rec: LinkItemDto): (l: string)
    ensures l != ""
    ensures rec.title != "" ==> l == rec.title
    ensures rec.title == "" && rec.body != "" ==> l == rec.body
    ensures rec.title == "" && rec.body == "" ==> l == "Untitled"
  {
    if rec.title != "" then rec.title else if rec.body != "" then rec.body else "Untitled"
  }

  /** The selection key of a recommendation: `rec.id.toString()`. */
  function Key(rec: LinkItemDto): string
  {
    Numbers.IntString(rec.id)
  }

  function ToEntry(rec: LinkItemDto): RecommendationEntry
  {
    RecommendationEntry(Key(rec), rec.materialType, Label(rec), rec.link, rec.isFixed && rec.isActive)
  }

  /** `transformToRecommendationFormat`: one entry per recommendation, in order. */
  function TransformToRecommendationFormat(recs: seq<LinkItemDto>): (r: seq<RecommendationEntry>)
    ensures |r| == |recs|
    ensures forall i :: 0 <= i < |r| ==>
              && r[i].id == Numbers.IntString(recs[i].id) && r[i].materialType == recs[i].materialType
              && r[i].labelText == Label(recs[i]) && r[i].href == recs[i].link
              && r[i].checked == (recs[i].isFixed && recs[i].isActive)
  {
    Seqs.Map(ToEntry, recs)
  }

  /** Recommendations with different ids get different entry ids. */
  lemma EntryIdsDistinct(recs: seq<LinkItemDto>, i: int, j: int)
    requires 0 <= i < |recs| && 0 <= j < |recs| && recs[i].id != recs[j].id
    ensures TransformToRecommendationFormat(recs)[i].id != TransformToRecommendationFormat(recs)[j].id
  {
    if Numbers.IntString(recs[i].id) == Numbers.IntString(recs[j].id) {
      Numbers.IntStringInjective(recs[i].id, recs[j].id);
    }
  }

  /** `recommendationData`: the transformed entries with `checked` replaced by selection
      membership, whatever the item's own flags say. */
  function RecommendationData(recs: seq<LinkItemDto>, selected: set<string>): (r: seq<RecommendationEntry>)
    ensures |r| == |recs|
    ensures forall i :: 0 <= i < |r| ==>
              r[i] == TransformToRecommendationFormat(recs)[i].(checked := Key(recs[i]) in selected)
  {
    var entries := TransformToRecommendationFormat(recs);
    seq(|entries|, i requires 0 <= i < |entries| => entries[i].(checked := entries[i].id in selected))
  }

  /** The ids of the selected recommendations, in list order. */
  function SelectedItemIds(recs: seq<LinkItemDto>, selected: set<string>): (ids: seq<int>)
    ensures |ids| <= |recs|
  {
    if recs == [] then []
    else
      var last := recs[|recs| - 1];
      SelectedItemIds(recs[..|recs| - 1], selected) + (if Key(last) in selected then [last.id] else [])
  }

  /** An id is gathered exactly when some recommendation carries it and its string form is
      selected. */
  lemma {:induction false} SelectedItemIdsExactly(recs: seq<LinkItemDto>, selected: set<string>, x: int)
    ensures x in SelectedItemIds(recs, selected) <==>
              exists i :: 0 <= i < |recs| && recs[i].id == x && Numbers.IntString(x) in selected
  {
    if recs != [] {
      var init := recs[..|recs| - 1];
      SelectedItemIdsExactly(init, selected, x);
      if x in SelectedItemIds(recs, selected) && x !in SelectedItemIds(init, selected) {
        assert recs[|recs| - 1].id == x;
      }
      if exists i :: 0 <= i < |recs| && recs[i].id == x && Numbers.IntString(x) in selected {
        var i :| 0 <= i < |recs| && recs[i].id == x && Numbers.IntString(x) in selected;
        if i < |recs| - 1 {
          assert init[i] == recs[i];
        }
      }
    }
  }

  /** Gathering distributes over concatenation, so the list order is kept. */
  lemma {:induction false} SelectedItemIdsAppend(a: seq<LinkItemDto>, b: seq<LinkItemDto>, selected: set<string>)
    ensures SelectedItemIds(a + b, selected) == SelectedItemIds(a, selected) + SelectedItemIds(b, selected)
  {
    if b == [] {
      assert a + b == a;
    } else {
      assert (a + b)[..|a + b| - 1] == a + b[..|b| - 1];
      SelectedItemIdsAppend(a, b[..|b| - 1], selected);
    }
  }

  /** With nothing selected nothing is gathered. */
  lemma {:induction false} NothingSelectedGathersNothing(recs: seq<LinkItemDto>)
    ensures SelectedItemIds(recs, {}) == []
  {
    if recs != [] {
      NothingSelectedGathersNothing(recs[..|recs| - 1]);
    }
  }

  /** The `forEach` that pushes the id of every selected recommendation. */
  method GatherItemIds(recs: seq<LinkItemDto>, selected: set<string>) returns (ids: seq<int>)
    ensures ids == SelectedItemIds(recs, selected)
  {
    ids := [];
    var i := 0;
    while i < |recs|
      invariant 0 <= i <= |recs|
      invariant ids == SelectedItemIds(recs[..i], selected)
    {
      assert recs[..i + 1][..i] == recs[..i];
      if Key(recs[i]) in selected {
        ids := ids + [recs[i].id];
      }
      i := i + 1;
    }
    assert recs[..|recs|] == recs;
  }

  /** What the page hears from a successful "add selected", in order. */
  datatype PanelEvent = ItemsToggled(results: seq<ToggleFixedResponseDto>) | SelectionCleared | SummaryRefreshed

  /** The notifications after the batch settles: on success `onItemsToggled` (when given),
      the selection reset, then `onSummaryRefresh` (when given); on failure nothing, the
      error only being logged. */
  function AfterToggle(r: Result<seq<ToggleFixedResponseDto>, string>, hasOnItemsToggled: bool, hasOnSummaryRefresh: bool): seq<PanelEvent>
  {
    if r.Failure? then []
    else
      (if hasOnItemsToggled then [ItemsToggled(r.value)] else []) + [SelectionCleared]
      + (if hasOnSummaryRefresh then [SummaryRefreshed] else [])
  }

  /** Success is exactly when the selection is cleared; the toggled items are reported first,
      and the summary refresh comes last and only once. */
  lemma AfterToggleOrder(r: Result<seq<ToggleFixedResponseDto>, string>, hasOnItemsToggled: bool, hasOnSummaryRefresh: bool)
    ensures var ev := AfterToggle(r, hasOnItemsToggled, hasOnSummaryRefresh);
      && (r.Failure? <==> ev == [])
      && (SelectionCleared in ev <==> r.Success?)
      && (r.Success? && hasOnItemsToggled ==> ev[0] == ItemsToggled(r.value) && ev[1] == SelectionCleared)
      && (r.Success? && !hasOnItemsToggled ==> ev[0] == SelectionCleared)
      && (r.Success? && hasOnSummaryRefresh ==> ev[|ev| - 1] == SummaryRefreshed && multiset(ev)[SummaryRefreshed] == 1)
      && (!hasOnSummaryRefresh ==> SummaryRefreshed !in ev)
  {
  }

  /** The enabled state of the footer button: some selection and no toggle in flight. */
  predicate AddButtonDisabled(selected: set<string>, toggleLoading: bool)
  {
    |selected| == 0 || toggleLoading
  }

  /** Pressing the enabled button gets past the empty-selection guard of `handleAddSelected`
      and sends the PATCH of every listed recommendation that is selected. */
  lemma {:induction false} EnabledButtonSendsPatches(recs: seq<LinkItemDto>, selected: set<string>, toggleLoading: bool, i: int)
    requires !AddButtonDisabled(selected, toggleLoading)
    requires 0 <= i < |recs| && Key(recs[i]) in selected
    ensures selected != {} && !toggleLoading
    ensures SelectedItemIds(recs, selected) != []
    ensures UseProjects.TogglePatch(recs[i].id) in Seqs.Map(UseProjects.TogglePatch, SelectedItemIds(recs, selected))
  {
    var ids := SelectedItemIds(recs, selected);
    SelectedItemIdsExactly(recs, selected, recs[i].id);
    var j :| 0 <= j < |ids| && ids[j] == recs[i].id;
    assert Seqs.Map(UseProjects.TogglePatch, ids)[j] == UseProjects.TogglePatch(recs[i].id);
  }

  class RecommendationContainerState {
    var selected: set<string>
    /** The state of the `useToggleFixed` hook the panel uses. */
    const toggler: UseProjects.MutationState

    constructor (toggler: UseProjects.MutationState)
      ensures selected == {} && this.toggler == toggler
    {
      selected := {};
      this.toggler := toggler;
    }

    /** `handleResourceChange(id, checked)`: adds or removes `id`, nothing else. */
    method HandleResourceChange(id: string, checked: bool)
      modifies this`selected
      ensures checked ==> selected == old(selected) + {id}
      ensures !checked ==> selected == old(selected) - {id}
    {
      if checked {
        selected := selected + {id};
      } else {
        selected := selected - {id};
      }
    }

    /** `handleAddSelected`, with `outcomes` the answers to the PATCH of each gathered id. */
    method HandleAddSelected(recs: seq<LinkItemDto>, hasOnItemsToggled: bool, hasOnSummaryRefresh: bool,
                             outcomes: seq<HttpOutcome<ToggleFixedResponseDto>>)
      returns (requests: seq<Request>, events: seq<PanelEvent>)
      requires |outcomes| == |SelectedItemIds(recs, selected)|
      modifies this`selected, toggler
      ensures var ids := SelectedItemIds(recs, old(selected));
        && (ids == [] ==> requests == [] && events == [] && selected == old(selected) && unchanged(toggler))
        && (ids != [] ==> requests == Seqs.Map(UseProjects.TogglePatch, ids)
                          && events == AfterToggle(UseProjects.BatchResult(outcomes), hasOnItemsToggled, hasOnSummaryRefresh)
                          && selected == (if UseProjects.BatchResult(outcomes).Success? then {} else old(selected))
                          && !toggler.loading
                          && toggler.error == (if UseProjects.BatchResult(outcomes).Success? then None
                                               else Some(UseProjects.BatchResult(outcomes).error)))
    {
      requests, events := [], [];
      if selected == {} {
        NothingSelectedGathersNothing(recs);
        return;
      }
      var ids := GatherItemIds(recs, selected);
      if ids == [] {
        return;
      }
      var r;
      requests, r := toggler.ToggleMultipleFixed(ids, outcomes);
      if r.Success? {
        selected := {};
      }
      events := AfterToggle(r, hasOnItemsToggled, hasOnSummaryRefresh);
    }
  }
}
