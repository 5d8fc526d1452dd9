/** src/components/markets/indices/IndicesTab.tsx: the user's list of index cards, the
    "add index" menu and the duration shared by every card. */
module IndicesTab {
  import opened Prelude
  import opened MarketTypes
  import MarketsMockData
  import DurationSelector

  const MaxIndices: nat := 12

  const InitialIndices: seq<string> := ["sp500", "nasdaq", "dowjones", "russell2000", "ftse100", "dax"]

  /** `marketIndices.find(m => m.id === id)` over a catalogue. */
  function LookUp(catalogue: seq<MarketIndex>, id: string): (r: Option<MarketIndex>)
    ensures r.Some? ==> r.value in catalogue && r.value.id == id
    ensures r.Some? <==> QuotedIn(catalogue, id)
  {
    Find(catalogue, (m: MarketIndex) => m.id == id)
  }

  predicate QuotedIn(catalogue: seq<MarketIndex>, id: string)
  {
    exists k :: 0 <= k < |catalogue| && catalogue[k].id == id
  }

  /** Each selected id looked up in the catalogue, in selection order, with ids that
      are not in it dropped. */
  function DisplayedFrom(catalogue: seq<MarketIndex>, selected: seq<string>): (r: seq<MarketIndex>)
    ensures |r| <= |selected|
    ensures forall m :: m in r ==> m in catalogue && m.id in selected
  {
    if selected == [] then []
    else
      var found := LookUp(catalogue, selected[0]);
      (if found.Some? then [found.value] else []) + DisplayedFrom(catalogue, selected[1..])
  }

  /** An id with a quote among the market indices. */
  predicate Quoted(id: string)
  {
    QuotedIn(MarketsMockData.MarketIndices, id)
  }

  /** `displayedIndices`: the selection looked up among the quoted market indices. */
  function Displayed(selected: seq<string>): (r: seq<MarketIndex>)
    ensures |r| <= |selected|
    ensures forall m :: m in r ==> m in MarketsMockData.MarketIndices && m.id in selected
  {
    DisplayedFrom(MarketsMockData.MarketIndices, selected)
  }

  lemma {:induction false} FollowsSelection(catalogue: seq<MarketIndex>, selected: seq<string>)
    requires forall i :: 0 <= i < |selected| ==> QuotedIn(catalogue, selected[i])
    ensures |DisplayedFrom(catalogue, selected)| == |selected|
    ensures forall i :: 0 <= i < |selected| ==> DisplayedFrom(catalogue, selected)[i].id == selected[i]
  {
    if selected != [] {
      var tail := selected[1..];
      assert forall i :: 0 <= i < |tail| ==> QuotedIn(catalogue, tail[i]);
      FollowsSelection(catalogue, tail);
      assert QuotedIn(catalogue, selected[0]);
    }
  }

  /** When every selected id is quoted, one card is shown per id, in selection order. */
  lemma DisplayedFollowsSelection(selected: seq<string>)
    requires forall i :: 0 <= i < |selected| ==> Quoted(selected[i])
    ensures |Displayed(selected)| == |selected|
    ensures forall i :: 0 <= i < |selected| ==> Displayed(selected)[i].id == selected[i]
  {
    FollowsSelection(MarketsMockData.MarketIndices, selected);
  }

  lemma {:induction false} SkipsUnquoted(catalogue: seq<MarketIndex>, selected: seq<string>, id: string)
    requires !QuotedIn(catalogue, id)
    ensures DisplayedFrom(catalogue, selected + [id]) == DisplayedFrom(catalogue, selected)
  {
    if selected == [] {
      assert DisplayedFrom(catalogue, [id]) == [] + DisplayedFrom(catalogue, []);
    } else {
      assert (selected + [id])[1..] == selected[1..] + [id];
      SkipsUnquoted(catalogue, selected[1..], id);
    }
  }

  /** Ids without a quote contribute no card. */
  lemma DisplayedSkipsUnquoted(selected: seq<string>, id: string)
    requires !Quoted(id)
    ensures Displayed(selected + [id]) == Displayed(selected)
  {
    SkipsUnquoted(MarketsMockData.MarketIndices, selected, id);
  }

  /** `availableToAdd`: the catalogue minus the selected ids, in catalogue order. */
  function AvailableToAdd(selected: seq<string>): (r: seq<MarketIndex>)
    ensures forall m :: m in r ==> m in AvailableIndices && m.id !in selected
    ensures forall m :: m in AvailableIndices && m.id !in selected ==> m in r
    ensures IsSubsequence(r, AvailableIndices)
  {
    FilterIsSubsequence(AvailableIndices, (m: MarketIndex) => m.id !in selected);
    Filter(AvailableIndices, (m: MarketIndex) => m.id !in selected)
  }

  /** `handleAddIndex` on the list: appended only below the cap. */
  function AddIndex(selected: seq<string>, id: string): (r: seq<string>)
    ensures |selected| < MaxIndices ==> r == selected + [id]
    ensures |selected| >= MaxIndices ==> r == selected
  {
    if |selected| < MaxIndices then selected + [id] else selected
  }

  /** The selection stays within the cap and, as long as ids are only added from the
      menu, free of repeats. */
  predicate WellFormed(selected: seq<string>)
  {
    |selected| <= MaxIndices && Distinct(selected)
  }

  lemma InitialIsWellFormed()
    ensures WellFormed(InitialIndices)
    ensures forall i :: 0 <= i < |InitialIndices| ==> Quoted(InitialIndices[i])
  {
    assert MarketsMockData.MarketIndices[0].id == InitialIndices[0];
    assert MarketsMockData.MarketIndices[1].id == InitialIndices[1];
    assert MarketsMockData.MarketIndices[2].id == InitialIndices[2];
    assert MarketsMockData.MarketIndices[3].id == InitialIndices[3];
    assert MarketsMockData.MarketIndices[6].id == InitialIndices[4];
    assert MarketsMockData.MarketIndices[7].id == InitialIndices[5];
  }

  /** Adding an index the menu offers keeps the selection well formed. */
  lemma AddOfferedKeepsWellFormed(selected: seq<string>, offered: MarketIndex)
    requires WellFormed(selected) && offered in AvailableToAdd(selected)
    ensures WellFormed(AddIndex(selected, offered.id))
  {
    if |selected| < MaxIndices {
      assert offered.id !in selected;
      AppendFreshDistinct(selected, offered.id);
    }
  }

  /** Removing keeps the selection well formed. */
  lemma RemoveKeepsWellFormed(selected: seq<string>, id: string)
    requires WellFormed(selected)
    ensures WellFormed(Without(selected, id))
  {
    WithoutKeepsOthers(selected, id);
  }

  /** `getDurationLabel`. */
  function DurationLabel(d: Duration): (text: string)
    ensures |text| > 0
    ensures d == Custom <==> text == "Custom Range"
    ensures d == OneDay <==> text == "Today"
  {
    match d
    case OneDay => "Today"
    case OneWeek => "Past Week"
    case OneMonth => "Past Month"
    case SixMonths => "Past 6 Months"
    case OneYear => "Past Year"
    case TwoYears => "Past 2 Years"
    case FiveYears => "Past 5 Years"
    case Custom => "Custom Range"
  }

  /** Every duration has a label of its own. */
  lemma DurationLabelsDistinct(d1: Duration, d2: Duration)
    ensures d1 != d2 ==> DurationLabel(d1) != DurationLabel(d2)
  {
  }

  class IndicesTab {
    var selectedIndices: seq<string>
    var showSelector: bool
    var duration: Duration
    var customRange: Option<CustomRange>

    predicate Valid()
      reads this
    {
      WellFormed(selectedIndices)
    }

    function DisplayedIndices(): seq<MarketIndex>
      reads this
    {
      Displayed(selectedIndices)
    }

    constructor()
      ensures selectedIndices == InitialIndices && !showSelector && duration == OneMonth && customRange == None
      ensures Valid()
    {
      selectedIndices := InitialIndices;
      showSelector := false;
      duration := OneMonth;
      customRange := None;
      InitialIsWellFormed();
    }

    /** The "add index" button toggles the menu; it is disabled, so a click does nothing,
        once the cap is reached. */
    method ToggleSelector()
      modifies this
      ensures showSelector == if |old(selectedIndices)| >= MaxIndices then old(showSelector) else !old(showSelector)
      ensures selectedIndices == old(selectedIndices) && duration == old(duration) && customRange == old(customRange)
    {
      if |selectedIndices| < MaxIndices {
        showSelector := !showSelector;
      }
    }

    /** The "Add indices to track" button, rendered only while no card is shown, opens
        the menu. */
    method OpenSelectorFromEmptyState()
      requires DisplayedIndices() == []
      modifies this
      ensures showSelector
      ensures selectedIndices == old(selectedIndices) && duration == old(duration) && customRange == old(customRange)
    {
      showSelector := true;
    }

    /** `handleAddIndex`: appends below the cap, and closes the menu either way. */
    method HandleAddIndex(id: string)
      modifies this
      ensures selectedIndices == AddIndex(old(selectedIndices), id) && !showSelector
      ensures duration == old(duration) && customRange == old(customRange)
    {
      if |selectedIndices| < MaxIndices {
        selectedIndices := selectedIndices + [id];
      }
      showSelector := false;
    }

    /** A click on an entry of the menu, which only lists the ids not yet selected. */
    method AddOffered(offered: MarketIndex)
      requires Valid() && offered in AvailableToAdd(selectedIndices)
      modifies this
      ensures selectedIndices == AddIndex(old(selectedIndices), offered.id) && !showSelector
      ensures duration == old(duration) && customRange == old(customRange)
      ensures Valid()
    {
      AddOfferedKeepsWellFormed(selectedIndices, offered);
      HandleAddIndex(offered.id);
    }

    /** `handleRemoveIndex`: drops every occurrence and keeps the rest in order. */
    method HandleRemoveIndex(id: string)
      modifies this
      ensures selectedIndices == Without(old(selectedIndices), id)
      ensures showSelector == old(showSelector) && duration == old(duration) && customRange == old(customRange)
      ensures old(Valid()) ==> Valid()
    {
      if Valid() {
        RemoveKeepsWellFormed(selectedIndices, id);
      }
      selectedIndices := Without(selectedIndices, id);
    }

    /** `handleDurationChange`: any duration but 'custom' clears the custom range. */
    method HandleDurationChange(newDuration: Duration)
      modifies this
      ensures duration == newDuration
      ensures customRange == if newDuration == Custom then old(customRange) else None
      ensures selectedIndices == old(selectedIndices) && showSelector == old(showSelector)
    {
      duration := newDuration;
      if newDuration != Custom {
        customRange := None;
      }
    }

    /** The duration selector's callbacks: `onSelect` is `handleDurationChange`,
        `onCustomRangeChange` is `setCustomRange`. */
    method Receive(event: DurationSelector.Event)
      modifies this
      ensures event.Select? ==>
        duration == event.duration && customRange == (if event.duration == Custom then old(customRange) else None)
      ensures event.RangeChange? ==> customRange == Some(event.range) && duration == old(duration)
      ensures selectedIndices == old(selectedIndices) && showSelector == old(showSelector)
    {
      match event {
        case Select(d) => HandleDurationChange(d);
        case RangeChange(r) => customRange := Some(r);
      }
    }

    /** Applying a custom range in the selector leaves the tab on 'custom' with that
        range: the range is stored first, and selecting 'custom' keeps it. */
    method ReceiveAppliedRange(range: CustomRange)
      modifies this
      ensures duration == Custom && customRange == Some(range)
      ensures selectedIndices == old(selectedIndices) && showSelector == old(showSelector)
    {
      Receive(DurationSelector.RangeChange(range));
      Receive(DurationSelector.Select(Custom));
    }
  }
}
