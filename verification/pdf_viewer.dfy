/**
 * The toolbar of the PDF viewer: the page label turns into a text field
 * that jumps to the typed page when it loses focus or Enter is pressed, and
 * while auto-zoom is on the zoom label does the same for a zoom percentage;
 * with auto-zoom off the percentage is plain text that cannot be edited.
 * The viewer's current page (zero-based) and page count are parameters;
 * `parseInt` is modelled with NaN as `None`.
 */
module PdfViewer {
  import opened Wrappers
  import opened Strings

  /**
   * The one-based page the typed text asks for: past the last page means
   * the last page, a page from 1 on is taken as it is, and anything else,
   * NaN included, stays on the current page.
   */
  function PageTarget(pageInput: string, currentPage: int, numberOfPages: int): int {
    var page := JsParseInt(pageInput, false);
    if page.Some? && page.value > numberOfPages then numberOfPages
    else if page.Some? && page.value >= 1 then page.value
    else currentPage + 1
  }

  /** For a document with pages and a valid current page, the target is always a page of the document. */
  lemma PageTargetInRange(pageInput: string, currentPage: int, numberOfPages: int)
    requires 0 <= currentPage < numberOfPages
    ensures 1 <= PageTarget(pageInput, currentPage, numberOfPages) <= numberOfPages
  {
  }

  /** The three cases of the target, by what the text parses to. */
  lemma PageTargetCases(pageInput: string, currentPage: int, numberOfPages: int)
    ensures var page := JsParseInt(pageInput, false);
      var target := PageTarget(pageInput, currentPage, numberOfPages);
      (page.Some? && page.value > numberOfPages ==> target == numberOfPages)
      && (page.Some? && 1 <= page.value <= numberOfPages ==> target == page.value)
      && ((page.None? || page.value < 1) && numberOfPages >= 1 ==> target == currentPage + 1)
  {
  }

  /** Opening the field fills it with the shown page number; committing it unchanged stays on the current page. */
  lemma UnchangedInputStays(currentPage: nat, numberOfPages: int)
    requires currentPage < numberOfPages
    ensures PageTarget(IntToString(currentPage + 1), currentPage, numberOfPages) - 1 == currentPage
  {
    ParseIntOfIntToString(currentPage + 1, false);
  }

  /**
   * A page number written `0x` and hexadecimal digits is read in base 16,
   * because `parseInt` is called without a radix. A number field's value
   * sanitisation never delivers such text, so this describes `parseInt` on
   * text that `ChangePageInput`, which accepts any text, lets in beyond
   * what the browser sends.
   */
  lemma HexPageInput(pageInput: string)
    requires |pageInput| > 2 && pageInput[0] == '0' && pageInput[1] == 'x' && AllRadixDigits(pageInput[2..], 16)
    ensures JsParseInt(pageInput, false) == Some(DigitsValue(pageInput[2..], 16))
  {
    assert !IsJsWhitespace(pageInput[0]);
    TrimStartOfTrimmed(pageInput, IsJsWhitespace);
    RadixDigitPrefixOfDigits(pageInput[2..], 16);
  }

  /** Such a page number inside the document is the page jumped to (on text the browser itself does not deliver, as above). */
  lemma HexPageTarget(pageInput: string, currentPage: int, numberOfPages: int)
    requires |pageInput| > 2 && pageInput[0] == '0' && pageInput[1] == 'x' && AllRadixDigits(pageInput[2..], 16)
    requires 1 <= DigitsValue(pageInput[2..], 16) <= numberOfPages
    ensures PageTarget(pageInput, currentPage, numberOfPages) == DigitsValue(pageInput[2..], 16)
  {
    HexPageInput(pageInput);
  }

  /** `zoom > 300 ? 300 : zoom < 10 ? 10 : zoom`; NaN passes through. */
  function ZoomTarget(zoomInput: string): (r: Option<int>)
    ensures r.None? <==> JsParseInt(zoomInput, false).None?
  {
    var zoom := JsParseInt(zoomInput, false);
    if zoom.None? then None
    else if zoom.value > 300 then Some(300)
    else if zoom.value < 10 then Some(10)
    else zoom
  }

  /** A parsed percentage is clamped into 10..300 and left alone inside it. */
  lemma ZoomTargetClamps(zoomInput: string)
    requires JsParseInt(zoomInput, false).Some?
    ensures var z := JsParseInt(zoomInput, false).value;
      ZoomTarget(zoomInput) == Some(if z > 300 then 300 else if z < 10 then 10 else z)
      && 10 <= ZoomTarget(zoomInput).value <= 300
  {
  }

  /**
   * The editing state of the toolbar, together with the viewer's auto-zoom
   * switch, which decides whether the zoom controls are rendered at all.
   */
  class Toolbar {
    var isEditingPage: bool
    var pageInput: string
    var isEditingZoom: bool
    var zoomInput: string
    var autoZoom: bool

    /** Both fields closed and empty; the viewer starts with auto-zoom on. */
    constructor ()
      ensures !isEditingPage && pageInput == "" && !isEditingZoom && zoomInput == ""
      ensures autoZoom
    {
      isEditingPage := false;
      pageInput := "";
      isEditingZoom := false;
      zoomInput := "";
      autoZoom := true;
    }

    /** The auto-zoom button flips the switch and leaves the editing state as it is. */
    method ToggleAutoZoom()
      modifies this
      ensures autoZoom == !old(autoZoom)
      ensures isEditingPage == old(isEditingPage) && pageInput == old(pageInput)
      ensures isEditingZoom == old(isEditingZoom) && zoomInput == old(zoomInput)
    {
      autoZoom := !autoZoom;
    }

    /** A click on the page label opens the field with the shown page number. */
    method StartEditingPage(currentPage: int)
      modifies this
      ensures isEditingPage && pageInput == IntToString(currentPage + 1)
      ensures isEditingZoom == old(isEditingZoom) && zoomInput == old(zoomInput) && autoZoom == old(autoZoom)
    {
      isEditingPage := true;
      pageInput := IntToString(currentPage + 1);
    }

    method ChangePageInput(text: string)
      modifies this
      ensures pageInput == text
      ensures isEditingPage == old(isEditingPage) && isEditingZoom == old(isEditingZoom) && zoomInput == old(zoomInput) && autoZoom == old(autoZoom)
    {
      pageInput := text;
    }

    /** Losing focus: jumps to the zero-based target page and closes the field. */
    method BlurPage(currentPage: int, numberOfPages: int) returns (jump: int)
      modifies this
      ensures jump == PageTarget(old(pageInput), currentPage, numberOfPages) - 1
      ensures !isEditingPage && pageInput == old(pageInput)
      ensures isEditingZoom == old(isEditingZoom) && zoomInput == old(zoomInput) && autoZoom == old(autoZoom)
    {
      var page := JsParseInt(pageInput, false);
      var target := if page.Some? && page.value > numberOfPages then numberOfPages
        else if page.Some? && page.value >= 1 then page.value
        else currentPage + 1;
      jump := target - 1;
      isEditingPage := false;
    }

    /** A key press: Enter does exactly what losing focus does, any other key nothing. */
    method PageKeyDown(key: string, currentPage: int, numberOfPages: int) returns (jump: Option<int>)
      modifies this
      ensures key == "Enter" ==> jump == Some(PageTarget(old(pageInput), currentPage, numberOfPages) - 1) && !isEditingPage
      ensures key != "Enter" ==> jump == None && isEditingPage == old(isEditingPage)
      ensures pageInput == old(pageInput) && isEditingZoom == old(isEditingZoom) && zoomInput == old(zoomInput) && autoZoom == old(autoZoom)
    {
      if key == "Enter" {
        var target := BlurPage(currentPage, numberOfPages);
        jump := Some(target);
      } else {
        jump := None;
      }
    }

    /** A click on the zoom label opens the field with the rounded percentage shown. */
    method StartEditingZoom(percent: int)
      requires autoZoom
      modifies this
      ensures isEditingZoom && zoomInput == IntToString(percent)
      ensures isEditingPage == old(isEditingPage) && pageInput == old(pageInput) && autoZoom
    {
      isEditingZoom := true;
      zoomInput := IntToString(percent);
    }

    /** Typing in the zoom field, which exists only while auto-zoom is on. */
    method ChangeZoomInput(text: string)
      requires autoZoom
      modifies this
      ensures zoomInput == text
      ensures isEditingZoom == old(isEditingZoom) && isEditingPage == old(isEditingPage) && pageInput == old(pageInput)
      ensures autoZoom
    {
      zoomInput := text;
    }

    /** Losing focus: hands the clamped percentage to the viewer and closes the field. */
    method BlurZoom() returns (zoom: Option<int>)
      requires autoZoom
      modifies this
      ensures zoom == ZoomTarget(old(zoomInput))
      ensures !isEditingZoom && zoomInput == old(zoomInput)
      ensures isEditingPage == old(isEditingPage) && pageInput == old(pageInput) && autoZoom
    {
      var parsed := JsParseInt(zoomInput, false);
      zoom := parsed;
      if parsed.Some? && parsed.value > 300 {
        zoom := Some(300);
      } else if parsed.Some? && parsed.value < 10 {
        zoom := Some(10);
      }
      isEditingZoom := false;
    }

    method ZoomKeyDown(key: string) returns (zoom: Option<Option<int>>)
      requires autoZoom
      modifies this
      ensures key == "Enter" ==> zoom == Some(ZoomTarget(old(zoomInput))) && !isEditingZoom
      ensures key != "Enter" ==> zoom == None && isEditingZoom == old(isEditingZoom)
      ensures zoomInput == old(zoomInput) && isEditingPage == old(isEditingPage) && pageInput == old(pageInput)
      ensures autoZoom
    {
      if key == "Enter" {
        var z := BlurZoom();
        zoom := Some(z);
      } else {
        zoom := None;
      }
    }
  }
}
