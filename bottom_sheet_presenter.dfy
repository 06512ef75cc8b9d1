/** The bottom-sheet presenter: the detent type its presentation method works with (whose
    fallback is itself a detent), the `Configuration` record with its presets, and the
    presentation method, which configures a sheet controller step by step. */
module BottomSheetPresenter {
  import opened Options
  import opened Sequences
  import opened SheetPlatform

  datatype Detent = Medium | Large | Custom(height: real, fallBack: Detent)

  /** `Detent.detent`. A custom detent is installed as such from iOS 16 on; below that its
      fallback is mapped in its place, and the fallback may itself be custom. */
  function SheetDetentOf(d: Detent, iOS16Available: bool): (r: SheetDetent)
    ensures d == Medium ==> r == PMedium
    ensures d == Large ==> r == PLarge
    ensures iOS16Available && d.Custom? ==> r == PCustom(d.height)
    ensures !iOS16Available ==> r.IsStandard()
  {
    match d
    case Medium => PMedium
    case Large => PLarge
    case Custom(height, fallBack) =>
      if iOS16Available then PCustom(height) else SheetDetentOf(fallBack, iOS16Available)
  }

  /** The standard detent at the end of a chain of custom fallbacks. */
  function FinalFallBack(d: Detent): (s: Detent)
    ensures s == Medium || s == Large
  {
    match d
    case Medium => Medium
    case Large => Large
    case Custom(_, fallBack) => FinalFallBack(fallBack)
  }

  /** Below iOS 16 a detent installs the standard detent its fallback chain ends in. */
  lemma {:induction false} BelowIOS16FollowsFallBackChain(d: Detent)
    ensures SheetDetentOf(d, false) == (if FinalFallBack(d) == Medium then PMedium else PLarge)
  {
    match d
    case Medium =>
    case Large =>
    case Custom(_, fallBack) => BelowIOS16FollowsFallBackChain(fallBack);
  }

  /** `detents.map(\.detent)`. */
  function InstalledDetents(ds: seq<Detent>, iOS16Available: bool): (r: seq<SheetDetent>)
    ensures |r| == |ds|
    ensures forall i :: 0 <= i < |ds| ==> r[i] == SheetDetentOf(ds[i], iOS16Available)
  {
    if ds == [] then [] else [SheetDetentOf(ds[0], iOS16Available)] + InstalledDetents(ds[1..], iOS16Available)
  }

  /** Below iOS 16 only standard detents are installed. */
  lemma BelowIOS16InstallsOnlyStandard(ds: seq<Detent>)
    ensures forall i :: 0 <= i < |ds| ==> InstalledDetents(ds, false)[i].IsStandard()
  {
  }

  /** `RCBottomSheetPresenter.Configuration`; the constructor's defaults are the struct's. */
  datatype Configuration = Configuration(
    detents: seq<Detent> := [Medium],
    largestUndimmedDetent: Option<Detent> := None,
    useSelfSizing: bool := false,
    showsGrabIndicator: bool := true,
    enableInteractiveDismiss: bool := true,
    preferredCornerRadius: real := 32.0)

  /** The default configuration: one medium detent, no undimmed detent, no self-sizing,
      grabber shown, interactive dismissal allowed, corner radius 32. */
  lemma DefaultConfigurationValues()
    ensures Configuration().detents == [Medium]
    ensures Configuration().largestUndimmedDetent == None
    ensures !Configuration().useSelfSizing
    ensures Configuration().showsGrabIndicator
    ensures Configuration().enableInteractiveDismiss
    ensures Configuration().preferredCornerRadius == 32.0
  {
  }

  function DefaultMedium(): (c: Configuration)
    ensures c == Configuration().(detents := [Medium], useSelfSizing := false)
  {
    Configuration(
      detents := [Medium], useSelfSizing := false, showsGrabIndicator := true,
      enableInteractiveDismiss := true, preferredCornerRadius := 32.0)
  }

  function DefaultLarge(): (c: Configuration)
    ensures c == Configuration().(detents := [Large], useSelfSizing := false)
  {
    Configuration(
      detents := [Large], useSelfSizing := false, showsGrabIndicator := true,
      enableInteractiveDismiss := true, preferredCornerRadius := 32.0)
  }

  function SelfSizing(): (c: Configuration)
    ensures c == Configuration().(detents := [Medium], useSelfSizing := true)
  {
    Configuration(
      detents := [Medium], useSelfSizing := true, showsGrabIndicator := true,
      enableInteractiveDismiss := true, preferredCornerRadius := 32.0)
  }

  function MediumLarge(): (c: Configuration)
    ensures c == Configuration().(detents := [Medium, Large], useSelfSizing := false)
  {
    Configuration(
      detents := [Medium, Large], useSelfSizing := false, showsGrabIndicator := true,
      enableInteractiveDismiss := true, preferredCornerRadius := 32.0)
  }

  /** Whether the presenter prepends a custom detent of the measured content height. */
  predicate InsertsSelfSizing(configuration: Configuration, iOS16Available: bool) {
    iOS16Available && configuration.useSelfSizing
  }

  /** The detent the presenter prepends for self-sizing content. */
  function SelfSizingDetent(contentHeight: real): Detent {
    Custom(contentHeight, Large)
  }

  /** The working detent list the presenter installs: the requested detents without
      duplicates, in any order, preceded by the self-sizing detent when one is inserted. */
  ghost predicate IsWorkingList(w: seq<Detent>, configuration: Configuration, iOS16Available: bool, contentHeight: real) {
    if InsertsSelfSizing(configuration, iOS16Available) then
      |w| > 0 && w[0] == SelfSizingDetent(contentHeight) && IsDeduplication(w[1..], configuration.detents)
    else
      IsDeduplication(w, configuration.detents)
  }

  /** The working list has one entry per distinct requested detent, plus the inserted one. */
  lemma WorkingListLength(w: seq<Detent>, configuration: Configuration, iOS16Available: bool, contentHeight: real)
    requires IsWorkingList(w, configuration, iOS16Available, contentHeight)
    ensures |w| == |Elements(configuration.detents)| + (if InsertsSelfSizing(configuration, iOS16Available) then 1 else 0)
  {
    if InsertsSelfSizing(configuration, iOS16Available) {
      DistinctCardinality(w[1..]);
    } else {
      DistinctCardinality(w);
    }
  }

  /** A detent is in the working list exactly when it was requested or is the inserted one. */
  lemma WorkingListMembership(w: seq<Detent>, configuration: Configuration, iOS16Available: bool, contentHeight: real, d: Detent)
    requires IsWorkingList(w, configuration, iOS16Available, contentHeight)
    ensures d in w <==> d in configuration.detents
                        || (InsertsSelfSizing(configuration, iOS16Available) && d == SelfSizingDetent(contentHeight))
  {
    if InsertsSelfSizing(configuration, iOS16Available) {
      assert w == [w[0]] + w[1..];
      assert d in w[1..] <==> d in Elements(w[1..]);
    } else {
      assert d in w <==> d in Elements(w);
    }
  }

  /** With self-sizing inserted, the working list is free of duplicates exactly when the
      inserted detent was not requested already. */
  lemma InsertedListDistinctIff(w: seq<Detent>, configuration: Configuration, contentHeight: real)
    requires IsWorkingList(w, configuration, true, contentHeight)
    requires configuration.useSelfSizing
    ensures NoDuplicates(w) <==> SelfSizingDetent(contentHeight) !in configuration.detents
  {
    var rest := w[1..];
    assert Elements(rest) == Elements(configuration.detents);
    if SelfSizingDetent(contentHeight) in configuration.detents {
      assert SelfSizingDetent(contentHeight) in Elements(rest);
      var k :| 0 <= k < |rest| && rest[k] == SelfSizingDetent(contentHeight);
      assert w[0] == w[k + 1];
    } else {
      forall i, j | 0 <= i < j < |w| ensures w[i] != w[j] {
        assert w[j] == rest[j - 1];
        if i > 0 {
          assert w[i] == rest[i - 1];
        } else {
          assert rest[j - 1] in Elements(rest);
        }
      }
    }
  }

  /** Any two runs on the same inputs install the same detents, possibly in another order. */
  lemma WorkingListsAgree(w1: seq<Detent>, w2: seq<Detent>, configuration: Configuration, iOS16Available: bool, contentHeight: real)
    requires IsWorkingList(w1, configuration, iOS16Available, contentHeight)
    requires IsWorkingList(w2, configuration, iOS16Available, contentHeight)
    ensures |w1| == |w2|
    ensures Elements(w1) == Elements(w2)
  {
    WorkingListLength(w1, configuration, iOS16Available, contentHeight);
    WorkingListLength(w2, configuration, iOS16Available, contentHeight);
    forall d ensures d in Elements(w1) <==> d in Elements(w2) {
      WorkingListMembership(w1, configuration, iOS16Available, contentHeight, d);
      WorkingListMembership(w2, configuration, iOS16Available, contentHeight, d);
    }
  }

  /** Below iOS 16, a custom detent whose fallback is already requested is not dropped:
      `[.custom(h, .medium), .medium]` installs the medium detent twice. */
  lemma FallBackDuplicateKept(w: seq<Detent>, h: real)
    requires IsWorkingList(w, Configuration(detents := [Custom(h, Medium), Medium]), false, 0.0)
    ensures InstalledDetents(w, false) == [PMedium, PMedium]
  {
    var requested := [Custom(h, Medium), Medium];
    DistinctCardinality(w);
    assert Elements(requested) == {Custom(h, Medium), Medium};
    assert |Elements(requested)| == 2;
    assert w[0] in Elements(requested) && w[1] in Elements(requested);
  }

  /** The `mediumLarge` preset installs medium and large, but not necessarily in that order. */
  lemma MediumLargeWorkingList(w: seq<Detent>, iOS16Available: bool, contentHeight: real)
    requires IsWorkingList(w, MediumLarge(), iOS16Available, contentHeight)
    ensures w == [Medium, Large] || w == [Large, Medium]
  {
    DistinctCardinality(w);
    assert Elements(MediumLarge().detents) == {Medium, Large};
    assert w[0] in Elements(w) && w[1] in Elements(w);
  }

  /** `modalPresentationStyle`, reduced to the value the presenter assigns and the others. */
  datatype ModalPresentationStyle = PageSheet | OtherStyle

  /** `UISheetPresentationController`: the properties the presenter assigns. */
  class SheetController {
    var prefersGrabberVisible: bool
    var preferredCornerRadius: real
    var detents: seq<SheetDetent>
    var largestUndimmedDetentIdentifier: Option<Identifier>

    constructor (prefersGrabberVisible: bool, preferredCornerRadius: real,
                 detents: seq<SheetDetent>, largestUndimmedDetentIdentifier: Option<Identifier>)
      ensures this.prefersGrabberVisible == prefersGrabberVisible
      ensures this.preferredCornerRadius == preferredCornerRadius
      ensures this.detents == detents
      ensures this.largestUndimmedDetentIdentifier == largestUndimmedDetentIdentifier
    {
      this.prefersGrabberVisible := prefersGrabberVisible;
      this.preferredCornerRadius := preferredCornerRadius;
      this.detents := detents;
      this.largestUndimmedDetentIdentifier := largestUndimmedDetentIdentifier;
    }
  }

  /** `UIViewController`: its presentation settings, its sheet controller (absent when UIKit
      provides none) and the content height it prefers. */
  class ViewController {
    var modalPresentationStyle: ModalPresentationStyle
    var isModalInPresentation: bool
    const sheetPresentationController: SheetController?
    const preferredContentHeight: real

    constructor (sheetPresentationController: SheetController?, preferredContentHeight: real)
      ensures modalPresentationStyle == OtherStyle && !isModalInPresentation
      ensures this.sheetPresentationController == sheetPresentationController
      ensures this.preferredContentHeight == preferredContentHeight
    {
      modalPresentationStyle := OtherStyle;
      isModalInPresentation := false;
      this.sheetPresentationController := sheetPresentationController;
      this.preferredContentHeight := preferredContentHeight;
    }
  }

  /** `RCBottomSheetPresenter`; `presented` records, in order, the view controllers handed
      to the navigation controller's `present`. */
  class Presenter {
    var presented: seq<ViewController>

    constructor ()
      ensures presented == []
    {
      presented := [];
    }

    /** `presentBottomSheet(viewController:configuration:...)`. The ghost result is the
        working detent list the method built and installed. */
    method PresentBottomSheet(viewController: ViewController, configuration: Configuration, iOS16Available: bool)
      returns (ghost configurationDetents: seq<Detent>)
      modifies this, viewController, viewController.sheetPresentationController
      ensures viewController.modalPresentationStyle == PageSheet
      ensures viewController.isModalInPresentation == !configuration.enableInteractiveDismiss
      ensures presented == old(presented) + [viewController]
      ensures var sheet := viewController.sheetPresentationController;
        sheet != null ==>
          && sheet.prefersGrabberVisible == configuration.showsGrabIndicator
          && sheet.preferredCornerRadius == configuration.preferredCornerRadius
          && IsWorkingList(configurationDetents, configuration, iOS16Available, viewController.preferredContentHeight)
          && sheet.detents == InstalledDetents(configurationDetents, iOS16Available)
      ensures var sheet := viewController.sheetPresentationController;
        sheet != null ==>
          if iOS16Available && configuration.largestUndimmedDetent.Some?
             && configuration.largestUndimmedDetent.value in configurationDetents
          then
            var index := FirstIndexOf(configurationDetents, configuration.largestUndimmedDetent.value).value;
            sheet.largestUndimmedDetentIdentifier == Some(IdentifierOf(sheet.detents[index]))
          else
            sheet.largestUndimmedDetentIdentifier == old(sheet.largestUndimmedDetentIdentifier)
    {
      viewController.modalPresentationStyle := PageSheet;
      viewController.isModalInPresentation := !configuration.enableInteractiveDismiss;

      var sheetController := viewController.sheetPresentationController;
      if sheetController == null {
        presented := presented + [viewController];
        configurationDetents := [];
        return;
      }

      sheetController.prefersGrabberVisible := configuration.showsGrabIndicator;
      sheetController.preferredCornerRadius := configuration.preferredCornerRadius;
      var workingDetents := Deduplicate(configuration.detents);

      if iOS16Available {
        if configuration.useSelfSizing {
          var contentHeight := viewController.preferredContentHeight;
          workingDetents := [SelfSizingDetent(contentHeight)] + workingDetents;
        }
      }

      sheetController.detents := InstalledDetents(workingDetents, iOS16Available);

      if iOS16Available {
        if configuration.largestUndimmedDetent.Some? {
          var detentIndex := FirstIndexOf(workingDetents, configuration.largestUndimmedDetent.value);
          if detentIndex.Some? {
            sheetController.largestUndimmedDetentIdentifier :=
              Some(IdentifierOf(sheetController.detents[detentIndex.value]));
          }
        }
      }

      presented := presented + [viewController];
      configurationDetents := workingDetents;
    }
  }
}
