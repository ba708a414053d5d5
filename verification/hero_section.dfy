/**
 * The hero section's variant styling and its button handler. The DOM
 * lookup of an anchor target is a parameter (`found`); what the handler
 * does is returned as an action instead of being performed.
 */
module HeroSection {
  import opened Wrappers
  import opened Strings

  /** The page types a hero section is styled for; `Default` stands for every other value of the prop. */
  datatype Variant = Landing | Sales | About | Career | Default

  /** The `variant` prop (`'default'` when it is not given), read by the two `switch`es. */
  function VariantOf(variant: Option<string>): (v: Variant)
    ensures variant.None? ==> v == Default
  {
    if variant.None? then Default
    else match variant.value
      case "landing" => Landing
      case "sales" => Sales
      case "about" => About
      case "career" => Career
      case _ => Default
  }

  /** `getVariantClasses`: background and padding for each page type. */
  function VariantClasses(v: Variant): string {
    match v
    case Landing => "bg-gradient-to-br from-primary/5 via-background to-primary/10 py-20 lg:py-32"
    case Sales => "bg-gradient-to-r from-primary/10 to-secondary/10 py-16 lg:py-24"
    case About => "bg-gradient-to-bl from-muted/50 to-background py-16 lg:py-20"
    case Career => "bg-gradient-to-tr from-accent/20 to-background py-16 lg:py-20"
    case Default => "bg-background py-16 lg:py-20"
  }

  /** `getTitleClasses`: only the landing page has a larger title. */
  function TitleClasses(v: Variant): string {
    match v
    case Landing => "text-4xl sm:text-5xl lg:text-6xl font-bold"
    case Sales => "text-3xl sm:text-4xl lg:text-5xl font-bold"
    case _ => "text-3xl sm:text-4xl lg:text-5xl font-bold"
  }

  /** Each variant names one page type: the four page names, and the default for anything else. */
  lemma VariantNames(name: string)
    ensures VariantOf(Some("landing")) == Landing && VariantOf(Some("sales")) == Sales
    ensures VariantOf(Some("about")) == About && VariantOf(Some("career")) == Career
    ensures VariantOf(Some(name)) == Default <==> name !in {"landing", "sales", "about", "career"}
  {
  }

  /** The title differs from the default one exactly on the landing page. */
  lemma TitleOnlyLarger(v: Variant)
    ensures TitleClasses(v) != TitleClasses(Default) <==> v == Landing
  {
    assert TitleClasses(Landing)[5] == '4' && TitleClasses(Default)[5] == '3';
  }

  /** A hero button; `hasOnClick` says whether an `onClick` handler was passed. */
  datatype HeroButton = HeroButton(text: string, href: string, hasOnClick: bool)

  datatype ClickAction =
    | NoAction
    | CallOnClick
    | ScrollIntoView(selector: string)
    | OpenInNewTab(url: string)
    | Navigate(url: string)

  /**
   * `handleButtonClick`: a handler wins over the link; an anchor link
   * scrolls to its element when the page has one; a link starting with
   * `http` opens in a new tab; any other link navigates in place.
   */
  function HandleButtonClick(button: Option<HeroButton>, found: string -> bool): (r: ClickAction)
    ensures r == CallOnClick <==> button.Some? && button.value.hasOnClick
    ensures r.ScrollIntoView? <==> button.Some? && !button.value.hasOnClick && StartsWith(button.value.href, "#") && found(button.value.href)
    ensures r.OpenInNewTab? <==> button.Some? && !button.value.hasOnClick && !StartsWith(button.value.href, "#") && StartsWith(button.value.href, "http")
    ensures r.Navigate? <==> button.Some? && !button.value.hasOnClick && !StartsWith(button.value.href, "#") && !StartsWith(button.value.href, "http")
    ensures r == NoAction <==> button.None? || (!button.value.hasOnClick && StartsWith(button.value.href, "#") && !found(button.value.href))
    ensures r.ScrollIntoView? ==> r.selector == button.value.href
    ensures r.OpenInNewTab? ==> r.url == button.value.href
    ensures r.Navigate? ==> r.url == button.value.href
  {
    if button.None? then NoAction
    else if button.value.hasOnClick then CallOnClick
    else if StartsWith(button.value.href, "#") then
      if found(button.value.href) then ScrollIntoView(button.value.href) else NoAction
    else if StartsWith(button.value.href, "http") then OpenInNewTab(button.value.href)
    else Navigate(button.value.href)
  }

  /**
   * The checks run in order: a handler wins whatever the link, an
   * absolute `https://` URL opens in a new tab, a path starting with `/`
   * navigates in place, and a missing button does nothing.
   */
  lemma ClickCases(text: string, href: string, found: string -> bool)
    ensures HandleButtonClick(Some(HeroButton(text, href, true)), found) == CallOnClick
    ensures StartsWith(href, "https://") ==> HandleButtonClick(Some(HeroButton(text, href, false)), found) == OpenInNewTab(href)
    ensures |href| > 0 && href[0] == '/' ==> HandleButtonClick(Some(HeroButton(text, href, false)), found) == Navigate(href)
    ensures HandleButtonClick(None, found) == NoAction
  {
    if StartsWith(href, "https://") {
      assert href[..1] == href[..|"https://"|][..1] == "h";
      assert href[..4] == href[..|"https://"|][..4] == "http";
    }
    if |href| > 0 && href[0] == '/' {
      assert !StartsWith(href, "#") && !StartsWith(href, "http") by {
        assert href[..1][0] == '/';
      }
    }
  }
}
