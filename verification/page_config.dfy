/**
 * The anchor-navigation contracts: the guards that tell whether a page
 * layout context carries anchors and whether an unknown value is a usable
 * anchor configuration, and the media queries around the 768 px breakpoint.
 */
module PageConfig {
  import opened Wrappers
  import opened Strings
  import opened JsValues

  /** `PageAnchorConfig`: the target section's id, the link text and an optional translation key. */
  datatype AnchorConfig = AnchorConfig(id: string, caption: string, i18nKey: Option<string>)

  /** The configuration as the plain object a page passes around. */
  function AsObject(a: AnchorConfig): JsValue {
    var base := map["id" := Str(a.id), "label" := Str(a.caption)];
    Object(if a.i18nKey.Some? then base["i18nKey" := Str(a.i18nKey.value)] else base)
  }

  /** `hasAnchors`: the context's `anchors` is an array with at least one entry. */
  predicate HasAnchors(context: map<string, JsValue>) {
    var anchors := Get(context, "anchors");
    anchors.Array? && |anchors.items| > 0
  }

  /** `typeof v === 'string' && v.length > 0`. */
  predicate NonEmptyString(v: JsValue) {
    v.Str? && JsLength(v.s) > 0
  }

  /**
   * `isValidAnchorConfig`: a non-null object with `id` and `label`, both
   * non-empty strings. Arrays and files are objects too, but carry neither
   * property, so only plain objects can pass.
   */
  predicate IsValidAnchorConfig(config: JsValue) {
    match config
    case Object(props) => "id" in props && "label" in props && NonEmptyString(props["id"]) && NonEmptyString(props["label"])
    case _ => false
  }

  /** A JavaScript string has positive length exactly when it is not empty. */
  lemma JsLengthPositive(s: string)
    ensures JsLength(s) > 0 <==> s != ""
  {
    if s != "" {
      Utf16Append([s[0]], s[1..]);
      assert s == [s[0]] + s[1..];
    }
  }

  /** A valid configuration has a non-empty id and label; `i18nKey`, or any other property, plays no part. */
  lemma ValidAnchorConfigMeaning(config: JsValue, key: string, extra: JsValue)
    ensures IsValidAnchorConfig(config) <==>
      config.Object? && Get(config.props, "id").Str? && Get(config.props, "id").s != ""
      && Get(config.props, "label").Str? && Get(config.props, "label").s != ""
    ensures config.Object? && key != "id" && key != "label" ==>
      (IsValidAnchorConfig(Object(config.props[key := extra])) <==> IsValidAnchorConfig(config))
  {
    if config.Object? {
      if "id" in config.props && config.props["id"].Str? {
        JsLengthPositive(config.props["id"].s);
      }
      if "label" in config.props && config.props["label"].Str? {
        JsLengthPositive(config.props["label"].s);
      }
    }
  }

  /** A configuration object passes the guard exactly when its id and its link text are not empty. */
  lemma AnchorConfigValid(a: AnchorConfig)
    ensures IsValidAnchorConfig(AsObject(a)) <==> a.id != "" && a.caption != ""
  {
    JsLengthPositive(a.id);
    JsLengthPositive(a.caption);
  }

  /** `hasAnchors` fails for a missing list and for an empty one alike. */
  lemma HasAnchorsMeaning(context: map<string, JsValue>)
    ensures HasAnchors(context) <==> "anchors" in context && context["anchors"].Array? && context["anchors"].items != []
  {
  }

  const MobileBreakpoint: int := 768

  /** The two media-query forms the layout uses, both in pixels and inclusive. */
  datatype MediaQuery = MaxWidth(px: int) | MinWidth(px: int)

  function QueryText(q: MediaQuery): string {
    match q
    case MaxWidth(px) => "(max-width: " + IntToString(px) + "px)"
    case MinWidth(px) => "(min-width: " + IntToString(px) + "px)"
  }

  predicate Matches(q: MediaQuery, width: int) {
    match q
    case MaxWidth(px) => width <= px
    case MinWidth(px) => width >= px
  }

  const MobileQuery: MediaQuery := MaxWidth(MobileBreakpoint - 1)
  const DesktopQuery: MediaQuery := MinWidth(MobileBreakpoint)

  /** The queries read `(max-width: 767px)` and `(min-width: 768px)`, and every whole-pixel width matches exactly one. */
  lemma BreakpointQueries(width: int)
    ensures QueryText(MobileQuery) == "(max-width: 767px)"
    ensures QueryText(DesktopQuery) == "(min-width: 768px)"
    ensures Matches(MobileQuery, width) != Matches(DesktopQuery, width)
    ensures Matches(MobileQuery, width) <==> width < MobileBreakpoint
  {
    assert NatToString(767) == "767" by {
      assert NatToString(76) == "76" by {
        assert NatToString(7) == "7";
      }
    }
    assert NatToString(768) == "768" by {
      assert NatToString(76) == "76" by {
        assert NatToString(7) == "7";
      }
    }
  }
}
