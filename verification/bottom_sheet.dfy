/**
 * The bottom-sheet hook: whether the sheet is open, and whether the window
 * is narrower than the breakpoint, in which case the bottom sheet is used.
 * A sheet left open when the window becomes wide is closed by an effect.
 * The window width is a parameter.
 */
module BottomSheet {
  import opened Wrappers

  const DefaultBreakpoint: int := 768

  /** The mobile rule: strictly narrower than the breakpoint. */
  predicate IsMobileWidth(width: int, breakpoint: int) {
    width < breakpoint
  }

  class SheetState {
    const breakpoint: int
    var isOpen: bool
    var isMobile: bool

    /** A missing breakpoint is 768; the sheet starts closed and non-mobile. */
    constructor (breakpointOption: Option<int>)
      ensures breakpoint == breakpointOption.GetOr(DefaultBreakpoint)
      ensures !isOpen && !isMobile
      ensures Settled()
    {
      breakpoint := breakpointOption.GetOr(DefaultBreakpoint);
      isOpen := false;
      isMobile := false;
    }

    /** Whether the bottom sheet is used: always the mobile flag. */
    function ShouldUseBottomSheet(): bool
      reads this
    {
      isMobile
    }

    /** The auto-close effect has nothing left to do: a wide window never has the sheet open. */
    predicate Settled()
      reads this
    {
      isMobile || !isOpen
    }

    method Open()
      modifies this
      ensures isOpen && isMobile == old(isMobile)
    {
      isOpen := true;
    }

    method Close()
      modifies this
      ensures !isOpen && isMobile == old(isMobile)
      ensures Settled()
    {
      isOpen := false;
    }

    method Toggle()
      modifies this
      ensures isOpen == !old(isOpen) && isMobile == old(isMobile)
    {
      isOpen := !isOpen;
    }

    /** `checkScreenSize`, run on mount and on every resize. */
    method CheckScreenSize(width: int)
      modifies this
      ensures isMobile == IsMobileWidth(width, breakpoint) && isOpen == old(isOpen)
      ensures ShouldUseBottomSheet() <==> width < breakpoint
    {
      isMobile := width < breakpoint;
    }

    /** The auto-close effect: closes the sheet on a wide window and otherwise changes nothing. */
    method AutoClose()
      modifies this
      ensures Settled()
      ensures isMobile == old(isMobile)
      ensures isOpen == (old(isOpen) && old(isMobile))
    {
      if !isMobile && isOpen {
        isOpen := false;
      }
    }
  }

  /** Opening on a wide window is undone by the effect that follows; on a narrow one the sheet stays open. */
  method OpenAndSettle(sheet: SheetState)
    modifies sheet
    ensures sheet.isOpen == sheet.isMobile
    ensures sheet.isMobile == old(sheet.isMobile)
  {
    sheet.Open();
    sheet.AutoClose();
  }

  /** A resize followed by its effects leaves the sheet open only on a narrow window, and only if it was open. */
  method ResizeAndSettle(sheet: SheetState, width: int)
    modifies sheet
    ensures sheet.isMobile == (width < sheet.breakpoint)
    ensures sheet.isOpen == (old(sheet.isOpen) && width < sheet.breakpoint)
    ensures sheet.Settled()
  {
    sheet.CheckScreenSize(width);
    sheet.AutoClose();
  }
}
