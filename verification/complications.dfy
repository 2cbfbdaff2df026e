/**
  The watch-face complications of the watch extension
  (`CGA_ComplicationController`). A chain of four generators maps a face
  family to the ClockKit template kind drawn for it, provided the family's
  image asset exists; the data-source answers then keep that template or
  reject it through a per-family type check.
 */
module Complications {
  import opened Options

  /** The watch-face families ClockKit asks about. */
  datatype Family =
    | ModularSmall
    | ModularLarge
    | UtilitarianSmall
    | UtilitarianSmallFlat
    | UtilitarianLarge
    | CircularSmall
    | ExtraLarge
    | GraphicCorner
    | GraphicBezel
    | GraphicCircular
    | GraphicRectangular
    | GraphicExtraLarge

  /** The ClockKit template classes the controller creates or casts to. */
  datatype Template =
    | CircularSmallSimpleImage
    | ExtraLargeSimpleImage
    | ModularSmallSimpleImage
    | UtilitarianSmallSquare
    | UtilitarianSmallFlat
    | UtilitarianLargeFlat
    | GraphicCircularImage
    | GraphicCornerCircularImage
    | GraphicRectangularLargeImage
    | ModularLargeStandardBody
    | GraphicRectangularStandardBody

  /** A timeline entry, without its date. */
  datatype Entry = Entry(template: Template)

  /** The time-travel directions ClockKit may be told about. */
  datatype Direction = Forward | Backward

  /** Whether a complication shows on the lock screen. */
  datatype Privacy = ShowOnLockScreen | HideOnLockScreen

  /** Whether the app bundle has the named image (`UIImage(named:) != nil`). */
  type AssetCatalog = string -> bool

  // ---------------------------------------------------------------------
  // Reference table: the asset and the template each family is drawn with
  // ---------------------------------------------------------------------

  /** The image asset a family's template needs; none for a family no generator handles. */
  function AssetName(f: Family): Option<string> {
    match f
    case CircularSmall => Some("Complication/Circular")
    case ExtraLarge => Some("Complication/Extra Large")
    case ModularSmall => Some("Complication/Modular")
    case UtilitarianSmall | UtilitarianSmallFlat | UtilitarianLarge => Some("Complication/Utilitarian")
    case GraphicCircular => Some("Complication/Graphic Circular")
    case GraphicCorner => Some("Complication/Graphic Corner")
    case GraphicBezel => Some("Complication/Graphic Bezel")
    case GraphicRectangular => Some("Complication/Graphic Large Rectangular")
    case ModularLarge | GraphicExtraLarge => None
  }

  /** The template kind a family is drawn with when its asset exists. */
  function SupportedTemplate(f: Family): Option<Template> {
    match f
    case CircularSmall => Some(CircularSmallSimpleImage)
    case ExtraLarge => Some(ExtraLargeSimpleImage)
    case ModularSmall => Some(ModularSmallSimpleImage)
    case UtilitarianSmall => Some(UtilitarianSmallSquare)
    case UtilitarianSmallFlat => Some(Template.UtilitarianSmallFlat)
    case UtilitarianLarge => Some(UtilitarianLargeFlat)
    case GraphicCircular => Some(GraphicCircularImage)
    case GraphicCorner | GraphicBezel => Some(GraphicCornerCircularImage)
    case GraphicRectangular => Some(GraphicRectangularLargeImage)
    case ModularLarge | GraphicExtraLarge => None
  }

  /** The family is handled by a generator and its image asset exists. */
  predicate AssetAvailable(f: Family, assets: AssetCatalog) {
    AssetName(f).Some? && assets(AssetName(f).value)
  }

  /** What the generator chain should produce: the family's template when its asset exists, else nil. */
  function Expected(f: Family, assets: AssetCatalog): Option<Template> {
    if AssetAvailable(f, assets) then SupportedTemplate(f) else None
  }

  /** The families each stage of the chain, from that stage on, takes care of. */
  const GraphicFamilies: set<Family> := {GraphicCircular, GraphicCorner, GraphicBezel, GraphicRectangular}
  const UtilitarianFamilies: set<Family> := {UtilitarianSmall, Family.UtilitarianSmallFlat, UtilitarianLarge}

  // ---------------------------------------------------------------------
  // The generator chain
  // ---------------------------------------------------------------------

  /** `_makeGraphicTemplateObject`: the last stage; anything it does not know gives nil. */
  function MakeGraphicTemplate(f: Family, assets: AssetCatalog): (r: Option<Template>)
    ensures f in GraphicFamilies ==> r == Expected(f, assets)
    ensures f !in GraphicFamilies ==> r.None?
  {
    match f
    case GraphicCircular =>
      if assets("Complication/Graphic Circular") then Some(GraphicCircularImage) else None
    case GraphicCorner =>
      if assets("Complication/Graphic Corner") then Some(GraphicCornerCircularImage) else None
    case GraphicBezel =>
      if assets("Complication/Graphic Bezel") then Some(GraphicCornerCircularImage) else None
    case GraphicRectangular =>
      if assets("Complication/Graphic Large Rectangular") then Some(GraphicRectangularLargeImage) else None
    case _ => None
  }

  /** `_makeUtilitarianTemplateObject`: the three utilitarian families, else the graphic stage. */
  function MakeUtilitarianTemplate(f: Family, assets: AssetCatalog): (r: Option<Template>)
    ensures f in UtilitarianFamilies + GraphicFamilies ==> r == Expected(f, assets)
    ensures f !in UtilitarianFamilies + GraphicFamilies ==> r.None?
  {
    match f
    case UtilitarianSmall =>
      if assets("Complication/Utilitarian") then Some(UtilitarianSmallSquare) else None
    case UtilitarianSmallFlat =>
      if assets("Complication/Utilitarian") then Some(Template.UtilitarianSmallFlat) else None
    case UtilitarianLarge =>
      if assets("Complication/Utilitarian") then Some(UtilitarianLargeFlat) else None
    case _ => MakeGraphicTemplate(f, assets)
  }

  /** `_makeModularTemplateObject`: modular small, else the utilitarian stage. */
  function MakeModularTemplate(f: Family, assets: AssetCatalog): (r: Option<Template>)
    ensures f in {ModularSmall} + UtilitarianFamilies + GraphicFamilies ==> r == Expected(f, assets)
    ensures f !in {ModularSmall} + UtilitarianFamilies + GraphicFamilies ==> r.None?
  {
    match f
    case ModularSmall =>
      if assets("Complication/Modular") then Some(ModularSmallSimpleImage) else None
    case _ => MakeUtilitarianTemplate(f, assets)
  }

  /**
    `_makeTemplateObject`: the head of the chain. Every family gets its
    template exactly when its asset exists; a missing asset, or a family no
    stage handles, gives nil.
   */
  function MakeTemplate(f: Family, assets: AssetCatalog): (r: Option<Template>)
    ensures r == Expected(f, assets)
    ensures r.Some? ==> AssetAvailable(f, assets)
    ensures AssetName(f).None? ==> r.None?
  {
    match f
    case CircularSmall =>
      if assets("Complication/Circular") then Some(CircularSmallSimpleImage) else None
    case ExtraLarge =>
      if assets("Complication/Extra Large") then Some(ExtraLargeSimpleImage) else None
    case _ => MakeModularTemplate(f, assets)
  }

  // ---------------------------------------------------------------------
  // Data-source answers
  // ---------------------------------------------------------------------

  /** The families whose generated template survives the timeline's type check. */
  const TimelineFamilies: set<Family> :=
    {CircularSmall, ExtraLarge, ModularSmall, Family.UtilitarianSmallFlat, UtilitarianLarge,
     GraphicCircular, GraphicCorner, GraphicBezel}

  /** The families whose generated template survives the placeholder's type check. */
  const PlaceholderFamilies: set<Family> := TimelineFamilies + {GraphicRectangular}

  /**
    `getCurrentTimelineEntry`: an entry for the generated template, except
    that four families demand one specific template class and get nil when
    the generated template is of another.
   */
  function CurrentTimelineEntry(f: Family, assets: AssetCatalog): (r: Option<Entry>)
    ensures r.Some? <==> f in TimelineFamilies && AssetAvailable(f, assets)
    ensures r.Some? ==> Some(r.value.template) == SupportedTemplate(f)
  {
    match MakeTemplate(f, assets)
    case None => None
    case Some(t) =>
      match f
      case ModularLarge => if t == ModularLargeStandardBody then Some(Entry(t)) else None
      case UtilitarianSmall => if t == Template.UtilitarianSmallFlat then Some(Entry(t)) else None
      case UtilitarianLarge => if t == UtilitarianLargeFlat then Some(Entry(t)) else None
      case GraphicRectangular => if t == GraphicRectangularStandardBody then Some(Entry(t)) else None
      case _ => Some(Entry(t))
  }

  /**
    `getPlaceholderTemplateForComplication`: the same type checks as the
    timeline entry, except that graphic rectangular accepts the large-image
    template it is generated with.
   */
  function PlaceholderTemplate(f: Family, assets: AssetCatalog): (r: Option<Template>)
    ensures r.Some? <==> f in PlaceholderFamilies && AssetAvailable(f, assets)
    ensures r.Some? ==> r == SupportedTemplate(f)
  {
    match MakeTemplate(f, assets)
    case None => None
    case Some(t) =>
      match f
      case ModularLarge => if t == ModularLargeStandardBody then Some(t) else None
      case UtilitarianSmall => if t == Template.UtilitarianSmallFlat then Some(t) else None
      case UtilitarianLarge => if t == UtilitarianLargeFlat then Some(t) else None
      case GraphicRectangular => if t == GraphicRectangularLargeImage then Some(t) else None
      case _ => Some(t)
  }

  /** `getLocalizableSampleTemplate`: forwards to the placeholder. */
  function LocalizableSampleTemplate(f: Family, assets: AssetCatalog): (r: Option<Template>)
    ensures r.Some? <==> f in PlaceholderFamilies && AssetAvailable(f, assets)
    ensures r.Some? ==> r == SupportedTemplate(f)
    ensures r == PlaceholderTemplate(f, assets)
  {
    PlaceholderTemplate(f, assets)
  }

  /** `getAlwaysOnTemplate`: forwards to the localizable sample template, hence to the placeholder. */
  function AlwaysOnTemplate(f: Family, assets: AssetCatalog): (r: Option<Template>)
    ensures r.Some? <==> f in PlaceholderFamilies && AssetAvailable(f, assets)
    ensures r.Some? ==> r == SupportedTemplate(f)
    ensures r == PlaceholderTemplate(f, assets)
  {
    LocalizableSampleTemplate(f, assets)
  }

  /**
    `getTimelineEntries(for:before:limit:)`: the date and the limit are
    ignored; the answer is a one-entry list under the same type checks as
    the current entry, or nil.
   */
  function TimelineEntriesBefore(f: Family, assets: AssetCatalog, date: real, limit: int): (r: Option<seq<Entry>>)
    ensures r.Some? <==> CurrentTimelineEntry(f, assets).Some?
    ensures r.Some? ==> r.value == [CurrentTimelineEntry(f, assets).value]
  {
    match MakeTemplate(f, assets)
    case None => None
    case Some(t) =>
      match f
      case ModularLarge => if t == ModularLargeStandardBody then Some([Entry(t)]) else None
      case UtilitarianSmall => if t == Template.UtilitarianSmallFlat then Some([Entry(t)]) else None
      case UtilitarianLarge => if t == UtilitarianLargeFlat then Some([Entry(t)]) else None
      case GraphicRectangular => if t == GraphicRectangularStandardBody then Some([Entry(t)]) else None
      case _ => Some([Entry(t)])
  }

  /** `getTimelineEntries(for:after:limit:)`: written out separately in the source, with the same checks. */
  function TimelineEntriesAfter(f: Family, assets: AssetCatalog, date: real, limit: int): (r: Option<seq<Entry>>)
    ensures r.Some? <==> CurrentTimelineEntry(f, assets).Some?
    ensures r.Some? ==> r.value == [CurrentTimelineEntry(f, assets).value]
  {
    match MakeTemplate(f, assets)
    case None => None
    case Some(t) =>
      match f
      case ModularLarge => if t == ModularLargeStandardBody then Some([Entry(t)]) else None
      case UtilitarianSmall => if t == Template.UtilitarianSmallFlat then Some([Entry(t)]) else None
      case UtilitarianLarge => if t == UtilitarianLargeFlat then Some([Entry(t)]) else None
      case GraphicRectangular => if t == GraphicRectangularStandardBody then Some([Entry(t)]) else None
      case _ => Some([Entry(t)])
  }

  /** `getSupportedTimeTravelDirections`: none, for every family. */
  function SupportedTimeTravelDirections(f: Family): set<Direction> {
    {}
  }

  /** `getTimelineEndDate`: no timeline, so no end date, for every family. */
  function TimelineEndDate(f: Family): Option<real> {
    None
  }

  /** `getPrivacyBehavior`: shown on the lock screen, for every family. */
  function PrivacyBehavior(f: Family): Privacy {
    ShowOnLockScreen
  }

  // ---------------------------------------------------------------------
  // Derived facts
  // ---------------------------------------------------------------------

  /**
    Utilitarian small and graphic rectangular never get a timeline entry:
    the generator produces a template, but not the class the check demands.
   */
  lemma TimelineRejectsGeneratedTemplate(f: Family, assets: AssetCatalog)
    requires f in {UtilitarianSmall, GraphicRectangular}
    requires AssetAvailable(f, assets)
    ensures MakeTemplate(f, assets).Some?
    ensures CurrentTimelineEntry(f, assets).None?
  {
  }

  /** The placeholder and the timeline entry differ only for graphic rectangular with its asset present. */
  lemma PlaceholderVersusTimeline(f: Family, assets: AssetCatalog)
    ensures CurrentTimelineEntry(f, assets).Some? ==>
      PlaceholderTemplate(f, assets) == Some(CurrentTimelineEntry(f, assets).value.template)
    ensures PlaceholderTemplate(f, assets).Some? && CurrentTimelineEntry(f, assets).None? <==>
      f == GraphicRectangular && AssetAvailable(f, assets)
  {
  }

  /** The before- and after-queries agree, whatever the dates and limits, and return at most one entry. */
  lemma TimelineQueriesAgree(f: Family, assets: AssetCatalog, d1: real, l1: int, d2: real, l2: int)
    ensures TimelineEntriesBefore(f, assets, d1, l1) == TimelineEntriesAfter(f, assets, d2, l2)
    ensures TimelineEntriesBefore(f, assets, d1, l1).Some? ==> |TimelineEntriesBefore(f, assets, d1, l1).value| == 1
  {
  }

  /** The constant answers: no time travel, no end date, shown on the lock screen. */
  lemma ConstantAnswers(f: Family)
    ensures SupportedTimeTravelDirections(f) == {}
    ensures TimelineEndDate(f).None?
    ensures PrivacyBehavior(f) == ShowOnLockScreen
  {
  }
}
