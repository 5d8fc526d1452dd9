/** src/components/markets/indices/DurationSelector.tsx: the duration buttons and the
    custom date-range picker. The selected duration and the custom range belong to the
    parent; the component reports changes to it as events. */
module DurationSelector {
  import opened Prelude
  import opened MarketTypes

  /** A call of `onSelect` or of `onCustomRangeChange`. */
  datatype Event = Select(duration: Duration) | RangeChange(range: CustomRange)

  class DurationSelector {
    var showCustomPicker: bool
    var tempStartDate: string
    var tempEndDate: string
    /** Whether the parent passed `onCustomRangeChange`. */
    const hasRangeCallback: bool

    /** Mounting: the picker is closed and the date inputs start from the parent's range,
        or empty. */
    constructor(customRange: Option<CustomRange>, hasRangeCallback: bool)
      ensures !showCustomPicker && this.hasRangeCallback == hasRangeCallback
      ensures customRange.Some? ==> tempStartDate == customRange.value.startDate && tempEndDate == customRange.value.endDate
      ensures customRange.None? ==> tempStartDate == "" && tempEndDate == ""
    {
      showCustomPicker := false;
      tempStartDate := if customRange.Some? then customRange.value.startDate else "";
      tempEndDate := if customRange.Some? then customRange.value.endDate else "";
      this.hasRangeCallback := hasRangeCallback;
    }

    /** `handleDurationClick`: 'custom' only opens the picker; any other duration closes
        it and is reported to the parent. */
    method HandleDurationClick(duration: Duration) returns (events: seq<Event>)
      modifies this
      ensures duration == Custom ==> showCustomPicker && events == []
      ensures duration != Custom ==> !showCustomPicker && events == [Select(duration)]
      ensures tempStartDate == old(tempStartDate) && tempEndDate == old(tempEndDate)
    {
      if duration == Custom {
        showCustomPicker := true;
        events := [];
      } else {
        showCustomPicker := false;
        events := [Select(duration)];
      }
    }

    /** Typing into the start-date input. */
    method SetTempStartDate(value: string)
      modifies this
      ensures tempStartDate == value && tempEndDate == old(tempEndDate) && showCustomPicker == old(showCustomPicker)
    {
      tempStartDate := value;
    }

    /** Typing into the end-date input. */
    method SetTempEndDate(value: string)
      modifies this
      ensures tempEndDate == value && tempStartDate == old(tempStartDate) && showCustomPicker == old(showCustomPicker)
    {
      tempEndDate := value;
    }

    /** `handleApplyCustomRange`: with both dates filled in and a range callback, the
        range is reported, then 'custom' is selected and the picker closes; otherwise
        nothing happens. The order of the two dates is not checked. */
    method HandleApplyCustomRange() returns (events: seq<Event>)
      modifies this
      ensures tempStartDate == old(tempStartDate) && tempEndDate == old(tempEndDate)
      ensures |tempStartDate| > 0 && |tempEndDate| > 0 && hasRangeCallback ==>
        events == [RangeChange(CustomRange(tempStartDate, tempEndDate)), Select(Custom)] && !showCustomPicker
      ensures !(|tempStartDate| > 0 && |tempEndDate| > 0 && hasRangeCallback) ==>
        events == [] && showCustomPicker == old(showCustomPicker)
    {
      events := [];
      if |tempStartDate| > 0 && |tempEndDate| > 0 && hasRangeCallback {
        events := [RangeChange(CustomRange(tempStartDate, tempEndDate)), Select(Custom)];
        showCustomPicker := false;
      }
    }

    /** The picker's close button. */
    method ClosePicker()
      modifies this
      ensures !showCustomPicker && tempStartDate == old(tempStartDate) && tempEndDate == old(tempEndDate)
    {
      showCustomPicker := false;
    }
  }
}
