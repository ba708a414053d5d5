/**
 * The site's navigation header: which of the four top-level links is
 * highlighted for the current path, and which anchors the anchor bar shows,
 * taken from the props when given and from the page's anchor context otherwise.
 */
module NavigationHeader {
  import opened Wrappers
  import opened Strings
  import opened PageConfig

  const NavigationPaths: seq<string> := ["/", "/sales", "/about", "/career"]

  /** `isActivePath`: the home link only for the root itself, every other link for any path it prefixes. */
  predicate IsActivePath(pathname: string, path: string) {
    if path == "/" then pathname == path else StartsWith(pathname, path)
  }

  /** The home link is active only on `/`; any other link is active exactly on the paths it prefixes, `/salesforce` included. */
  lemma ActivePathMeaning(pathname: string, path: string)
    ensures IsActivePath(pathname, "/") <==> pathname == "/"
    ensures path != "/" ==> (IsActivePath(pathname, path) <==> |path| <= |pathname| && pathname[..|path|] == path)
    ensures IsActivePath("/salesforce", "/sales")
  {
    assert "/salesforce"[..6] == "/sales";
  }

  /** Whatever the path, at most one of the header's links is highlighted. */
  lemma AtMostOneActive(pathname: string, i: nat, j: nat)
    requires i < j < |NavigationPaths|
    ensures !(IsActivePath(pathname, NavigationPaths[i]) && IsActivePath(pathname, NavigationPaths[j]))
  {
    var a, b := NavigationPaths[i], NavigationPaths[j];
    assert |b| > 1 && b[0] == '/';
    if i > 0 && IsActivePath(pathname, a) {
      assert pathname[1] == a[1] != b[1];
    }
  }

  /** What the page anchor context holds; the provider starts with no anchors and no active one. */
  datatype AnchorContext = AnchorContext(anchors: seq<AnchorConfig>, activeAnchorId: Option<string>)

  const InitialContext: AnchorContext := AnchorContext([], None)

  /** `prop ?? fallback`, `None` standing for both `null` and `undefined`. */
  function Coalesce<T>(prop: Option<T>, fallback: T): (r: T)
    ensures prop.Some? ==> r == prop.value
    ensures prop.None? ==> r == fallback
  {
    if prop.Some? then prop.value else fallback
  }

  /** The anchors the header uses: the prop unless it is missing. */
  function ResolvedAnchors(anchorsProp: Option<seq<AnchorConfig>>, context: AnchorContext): seq<AnchorConfig> {
    Coalesce(anchorsProp, context.anchors)
  }

  /** The active anchor id: the prop unless it is missing, so a `null` prop still defers to the context. */
  function ResolvedActiveId(activeIdProp: Option<string>, context: AnchorContext): Option<string> {
    if activeIdProp.Some? then activeIdProp else context.activeAnchorId
  }

  /**
   * Props given to the header override the page's context, which then
   * plays no part; a missing prop defers to the context, and with the
   * provider's initial context nothing is active.
   */
  lemma ContextFallback(anchorsProp: Option<seq<AnchorConfig>>, activeIdProp: Option<string>, context: AnchorContext, other: AnchorContext)
    ensures anchorsProp.Some? ==> ResolvedAnchors(anchorsProp, context) == ResolvedAnchors(anchorsProp, other) == anchorsProp.value
    ensures activeIdProp.Some? ==> ResolvedActiveId(activeIdProp, context) == ResolvedActiveId(activeIdProp, other) == activeIdProp
    ensures ResolvedAnchors(None, context) == context.anchors
    ensures ResolvedActiveId(None, context) == context.activeAnchorId
    ensures ResolvedActiveId(None, InitialContext).None?
  {
  }

  /** The anchor bar renders only when the resolved list is not empty. */
  predicate ShowsAnchorBar(anchorsProp: Option<seq<AnchorConfig>>, context: AnchorContext) {
    |ResolvedAnchors(anchorsProp, context)| > 0
  }

  /** A given prop wins even when empty, which hides the bar; without one the context decides. */
  lemma AnchorBarSource(anchorsProp: Option<seq<AnchorConfig>>, context: AnchorContext)
    ensures anchorsProp.Some? ==> (ShowsAnchorBar(anchorsProp, context) <==> anchorsProp.value != [])
    ensures anchorsProp.None? ==> (ShowsAnchorBar(anchorsProp, context) <==> context.anchors != [])
    ensures !ShowsAnchorBar(None, InitialContext)
  {
  }
}
