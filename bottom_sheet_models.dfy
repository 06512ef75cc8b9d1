/** The public detent model of the bottom-sheet presenter: the `Detent` that also offers a
    self-sizing case, its medium/large fallback, and the configuration records with their
    defaults. Everything here is a value; the version check is the `iOS16Available` flag. */
module BottomSheetModels {
  import opened Options
  import opened SheetPlatform

  /** The standard size used below iOS 16 in place of a custom or self-sizing detent. */
  datatype DetentFallBack = FallBackMedium | FallBackLarge

  datatype Detent =
    | Medium
    | Large
    | Custom(height: real, fallBack: DetentFallBack)
    | SelfSizing(fallback: DetentFallBack)

  /** `DetentFallBack.detent`. */
  function FallBackDetent(fb: DetentFallBack): (d: Detent)
    ensures d == Medium || d == Large
    ensures d == Medium <==> fb == FallBackMedium
  {
    match fb
    case FallBackMedium => Medium
    case FallBackLarge => Large
  }

  /** `DetentFallBack.sheetDetent`. */
  function FallBackSheetDetent(fb: DetentFallBack): (s: SheetDetent)
    ensures s.IsStandard()
    ensures s == PMedium <==> fb == FallBackMedium
  {
    match fb
    case FallBackMedium => PMedium
    case FallBackLarge => PLarge
  }

  /** The fallback a custom or self-sizing detent carries. */
  function FallBackOf(d: Detent): DetentFallBack
    requires d.Custom? || d.SelfSizing?
  {
    if d.Custom? then d.fallBack else d.fallback
  }

  /** `Detent.detent`: the platform detent a request installs, or `None` for a self-sizing
      request on iOS 16+, whose height only the presenter can measure. */
  function SheetDetentOf(d: Detent, iOS16Available: bool): (r: Option<SheetDetent>)
    ensures r.None? <==> iOS16Available && d.SelfSizing?
    ensures d == Medium ==> r == Some(PMedium)
    ensures d == Large ==> r == Some(PLarge)
    ensures iOS16Available && d.Custom? ==> r == Some(PCustom(d.height))
    ensures !iOS16Available && !d.Medium? && !d.Large? ==> r == Some(FallBackSheetDetent(FallBackOf(d)))
  {
    match d
    case Medium => Some(PMedium)
    case Large => Some(PLarge)
    case Custom(height, fallBack) =>
      if iOS16Available then Some(PCustom(height)) else Some(FallBackSheetDetent(fallBack))
    case SelfSizing(fallBack) =>
      if iOS16Available then None else Some(FallBackSheetDetent(fallBack))
  }

  /** Below iOS 16 every request installs a standard detent. */
  lemma BelowIOS16AlwaysStandard(d: Detent)
    ensures SheetDetentOf(d, false).Some?
    ensures SheetDetentOf(d, false).value.IsStandard()
  {
  }

  /** A fallback names the same size whether it is read as a request or as a platform detent. */
  lemma FallBackConsistent(fb: DetentFallBack, iOS16Available: bool)
    ensures SheetDetentOf(FallBackDetent(fb), iOS16Available) == Some(FallBackSheetDetent(fb))
  {
  }

  /** `hasSelfSizingDetent`: the array holds `.selfSizing` with either fallback. */
  function HasSelfSizingDetent(ds: seq<Detent>): (b: bool)
    ensures b <==> exists i :: 0 <= i < |ds| && ds[i].SelfSizing?
  {
    SelfSizingCases(ds);
    SelfSizing(FallBackMedium) in ds || SelfSizing(FallBackLarge) in ds
  }

  /** A self-sizing element is one of the two self-sizing values. */
  lemma SelfSizingCases(ds: seq<Detent>)
    ensures (exists i :: 0 <= i < |ds| && ds[i].SelfSizing?) ==>
              SelfSizing(FallBackMedium) in ds || SelfSizing(FallBackLarge) in ds
  {
    if i :| 0 <= i < |ds| && ds[i].SelfSizing? {
      match ds[i].fallback
      case FallBackMedium => assert ds[i] == SelfSizing(FallBackMedium);
      case FallBackLarge => assert ds[i] == SelfSizing(FallBackLarge);
    }
  }

  /** Which detent level stops dimming the content behind the sheet. */
  datatype UndimmedDetentStyle =
    | NoUndimmed              // `.none`: always dimmed
    | SelfSized               // `.selfSized`
    | UndimmedUpTo(detent: Detent)  // `.detent(_)`

  /** `DetentConfiguration`; the constructor's default is the struct's memberwise default. */
  datatype DetentConfiguration =
    DetentConfiguration(detents: seq<Detent>, largestUndimmedDetent: UndimmedDetentStyle := NoUndimmed)

  /** `UIConfiguration` with its memberwise defaults. */
  datatype UIConfiguration = UIConfiguration(
    showsGrabIndicator: bool := true,
    enableInteractiveDismiss: bool := true,
    preferredCornerRadius: real := 32.0)

  /** A detent configuration built from its detents alone is always dimmed. */
  lemma DetentConfigurationDefault(ds: seq<Detent>)
    ensures DetentConfiguration(ds).largestUndimmedDetent == NoUndimmed
    ensures DetentConfiguration(ds).detents == ds
  {
  }

  /** The default UI configuration shows the grabber, allows interactive dismissal and uses
      a corner radius of 32. */
  lemma UIConfigurationDefault()
    ensures UIConfiguration().showsGrabIndicator
    ensures UIConfiguration().enableInteractiveDismiss
    ensures UIConfiguration().preferredCornerRadius == 32.0
  {
  }
}
