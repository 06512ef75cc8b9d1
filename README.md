# Bottom-sheet detent resolution of RCSheetPresenterKit, in Dafny

RCSheetPresenterKit presents a view controller as an iOS bottom sheet. The caller lists the
requested sheet heights ("detents"). The presenter turns that list into the platform detents
installed on the sheet's `UISheetPresentationController`. On the way it removes repeated
requests, prepends a custom detent of the measured content height for self-sizing content
on iOS 16+, maps every request to a platform detent (falling back to medium or large below
iOS 16), and picks the identifier of the "largest undimmed" detent. It also copies the
grabber, corner-radius and dismissal settings.

Modules:

- `Options`: Swift's `Optional`.
- `Sequences`: `Array(Set(xs))`, modelled as the method `Deduplicate`, which takes the
  elements out of the set in an arbitrary order. Also `firstIndex(of:)` as `FirstIndexOf`,
  and the facts about duplicate-free sequences the lemmas use.
- `SheetPlatform`: UIKit's `UISheetPresentationController.Detent` (`PMedium`, `PLarge`,
  `PCustom(height)`) and its identifier.
- `BottomSheetModels`: `RCBottomSheetPresenter+Models.swift`. This covers the public `Detent`
  with its `selfSizing` case and `DetentFallBack`, their optional platform mapping,
  `hasSelfSizingDetent`, and the `DetentConfiguration` / `UIConfiguration` records with
  their defaults. Everything in it is pure.
- `BottomSheetPresenter`: `RCBottomSheetPresenter.swift`. This covers the recursive
  `Detent` (its fallback is itself a detent), its platform mapping, `Configuration` with its
  defaults and the four presets, and the classes `SheetController`, `ViewController` and
  `Presenter`. The method `Presenter.PresentBottomSheet` assigns the controllers' fields
  step by step.

Modelling choices:

- The `#available(iOS 16.0, *)` check is the parameter `iOS16Available`.
- `CGFloat` heights and radii are `real` and are only compared for equality.
- The measured content height is the view controller's field `preferredContentHeight`, an
  input.
- `navigationController.present` is recorded by appending the view controller to
  `Presenter.presented`.
- `Array(Set(...))` has no defined order. So the working list is specified only as "no
  duplicates, same elements" (`IsWorkingList`). `PresentBottomSheet` returns the list it
  built as a ghost result, so that its postcondition can name it.
- Swift's memberwise struct defaults are Dafny constructor default values.

Behaviour of the code worth knowing, with the member that shows it:

- Below iOS 16, a custom detent whose fallback is also requested is not dropped. The
  medium detent is installed twice (`FallBackDuplicateKept`).
- The requested order is not kept (`MediumLargeWorkingList`).
- The measured self-sizing height is used as it is, without rounding. The `IsWorkingList` postcondition of `PresentBottomSheet` puts `SelfSizingDetent(viewController.preferredContentHeight)` first.
- The prepended self-sizing detent can repeat a requested detent. The list is then no
  longer duplicate-free (`InsertedListDistinctIff`).
- The presenter method uses the `Detent` of `RCBottomSheetPresenter.swift` with the
  `useSelfSizing` flag. It does not use the `selfSizing` detent of the `+Models` file, and
  it builds no mapping from requested to installed detents.

## Model

| member | source | states |
|---|---|---|
| `BottomSheetPresenter.SheetDetentOf` | Sources/RCSheetPresenterKit/BottomSheetPresenter/RCBottomSheetPresenter.swift:118-131 | medium and large map to the platform medium and large detents; on iOS 16+ custom maps to a custom detent of the same height; below iOS 16 the result is always a standard detent, even through a chain of custom fallbacks |
| `BottomSheetPresenter.BelowIOS16FollowsFallBackChain` | Sources/RCSheetPresenterKit/BottomSheetPresenter/RCBottomSheetPresenter.swift:124-129 | below iOS 16 a detent installs exactly the standard detent at the end of its fallback chain |
| `BottomSheetPresenter.InstalledDetents` | Sources/RCSheetPresenterKit/BottomSheetPresenter/RCBottomSheetPresenter.swift:84 | the installed list is as long as the working list, and entry i is the mapping of working entry i |
| `BottomSheetPresenter.BelowIOS16InstallsOnlyStandard` | Sources/RCSheetPresenterKit/BottomSheetPresenter/RCBottomSheetPresenter.swift:84 | below iOS 16 no installed detent is custom |
| `BottomSheetPresenter.DefaultConfigurationValues` | Sources/RCSheetPresenterKit/BottomSheetPresenter/RCBottomSheetPresenter.swift:144-157 | defaults: detents `[medium]`, no undimmed detent, no self-sizing, grabber shown, interactive dismissal on, corner radius 32 |
| `BottomSheetPresenter.DefaultMedium` | Sources/RCSheetPresenterKit/BottomSheetPresenter/RCBottomSheetPresenter.swift:162-170 | the preset is the default configuration with detents `[medium]` and no self-sizing |
| `BottomSheetPresenter.DefaultLarge` | Sources/RCSheetPresenterKit/BottomSheetPresenter/RCBottomSheetPresenter.swift:172-180 | the preset is the default configuration with detents `[large]` and no self-sizing |
| `BottomSheetPresenter.SelfSizing` | Sources/RCSheetPresenterKit/BottomSheetPresenter/RCBottomSheetPresenter.swift:182-190 | the preset is the default configuration with detents `[medium]` and self-sizing on |
| `BottomSheetPresenter.MediumLarge` | Sources/RCSheetPresenterKit/BottomSheetPresenter/RCBottomSheetPresenter.swift:192-200 | the preset is the default configuration with detents `[medium, large]` and no self-sizing |
| `BottomSheetPresenter.WorkingListLength` | Sources/RCSheetPresenterKit/BottomSheetPresenter/RCBottomSheetPresenter.swift:73-81 | the working list has one entry per distinct requested detent, plus one exactly when self-sizing is on and iOS 16+ is available |
| `BottomSheetPresenter.WorkingListMembership` | Sources/RCSheetPresenterKit/BottomSheetPresenter/RCBottomSheetPresenter.swift:73-81 | a detent is in the working list if and only if it was requested or it is the inserted `custom(contentHeight, large)` |
| `BottomSheetPresenter.InsertedListDistinctIff` | Sources/RCSheetPresenterKit/BottomSheetPresenter/RCBottomSheetPresenter.swift:75-81 | with the self-sizing detent prepended, the list is duplicate-free if and only if that detent was not already requested |
| `BottomSheetPresenter.WorkingListsAgree` | Sources/RCSheetPresenterKit/BottomSheetPresenter/RCBottomSheetPresenter.swift:73-81 | two presentations of the same configuration build working lists of the same length and with the same elements |
| `BottomSheetPresenter.FallBackDuplicateKept` | Sources/RCSheetPresenterKit/BottomSheetPresenter/RCBottomSheetPresenter.swift:73-84 | below iOS 16, requesting `[custom(h, medium), medium]` installs the medium detent twice |
| `BottomSheetPresenter.MediumLargeWorkingList` | Sources/RCSheetPresenterKit/BottomSheetPresenter/RCBottomSheetPresenter.swift:73 | the `mediumLarge` preset yields `[medium, large]` or `[large, medium]` |
| `BottomSheetPresenter.Presenter.PresentBottomSheet` | Sources/RCSheetPresenterKit/BottomSheetPresenter/RCBottomSheetPresenter.swift:54-101 | sets the page-sheet style and sets modal-in-presentation to the negation of interactive dismiss. The view controller is always presented. With a sheet controller it also copies the grabber and radius settings and installs the mapped working list. It sets the undimmed identifier only on iOS 16+, for a requested undimmed detent that is in the working list, to the identifier of the installed detent at its first index; otherwise the identifier is unchanged. Without a sheet controller nothing else is configured |
| `Sequences.Deduplicate` | Sources/RCSheetPresenterKit/BottomSheetPresenter/RCBottomSheetPresenter.swift:73 | `Array(Set(xs))` has no duplicates and holds exactly the elements of `xs` |
| `Sequences.DeduplicationsAgree` | Sources/RCSheetPresenterKit/BottomSheetPresenter/RCBottomSheetPresenter.swift:73 | any two deduplications of a list have the same elements and as many entries as it has distinct elements |
| `Sequences.FirstIndexOf` | Sources/RCSheetPresenterKit/BottomSheetPresenter/RCBottomSheetPresenter.swift:89 | `firstIndex(of:)` is nil if and only if the element is absent; otherwise it is an index holding the element with no earlier occurrence |
| `SheetPlatform.IdentifierOf` | Sources/RCSheetPresenterKit/BottomSheetPresenter/RCBottomSheetPresenter.swift:90 | the identifier tells medium, large and custom detents apart, and a custom identifier carries its height |
| `BottomSheetModels.HasSelfSizingDetent` | Sources/RCSheetPresenterKit/BottomSheetPresenter/RCBottomSheetPresenter+Models.swift:11-14 | true if and only if some element is `selfSizing`, with either fallback |
| `BottomSheetModels.SheetDetentOf` | Sources/RCSheetPresenterKit/BottomSheetPresenter/RCBottomSheetPresenter+Models.swift:34-53 | nil exactly for `selfSizing` on iOS 16+; medium and large map to themselves on every version; on iOS 16+ `custom(h, _)` maps to a custom detent of height h; below iOS 16 custom and self-sizing map to their fallback's sheet detent |
| `BottomSheetModels.BelowIOS16AlwaysStandard` | Sources/RCSheetPresenterKit/BottomSheetPresenter/RCBottomSheetPresenter+Models.swift:40-51 | below iOS 16 the mapping is never nil and always a standard detent |
| `BottomSheetModels.FallBackDetent` | Sources/RCSheetPresenterKit/BottomSheetPresenter/RCBottomSheetPresenter+Models.swift:59-66 | a fallback becomes the request `.medium` or `.large`, medium for medium |
| `BottomSheetModels.FallBackSheetDetent` | Sources/RCSheetPresenterKit/BottomSheetPresenter/RCBottomSheetPresenter+Models.swift:68-75 | a fallback becomes a standard platform detent, medium for medium |
| `BottomSheetModels.FallBackConsistent` | Sources/RCSheetPresenterKit/BottomSheetPresenter/RCBottomSheetPresenter+Models.swift:59-75 | mapping a fallback's request gives its sheet detent, on either version |
| `BottomSheetModels.DetentConfigurationDefault` | Sources/RCSheetPresenterKit/BottomSheetPresenter/RCBottomSheetPresenter+Models.swift:88-94 | a detent configuration given only its detents has the undimmed style `.none` |
| `BottomSheetModels.UIConfigurationDefault` | Sources/RCSheetPresenterKit/BottomSheetPresenter/RCBottomSheetPresenter+Models.swift:107-114 | defaults: grabber shown, interactive dismissal on, corner radius 32 |

## Left out

- `presentBottomSheet(view:configuration:...)` (RCBottomSheetPresenter.swift:21-41) only chooses which SwiftUI hosting controller wraps the view. The model starts from the view controller, and its content height is an input.
- The content-height measurement is an Auto Layout pass in RCSwiftUIViewSizeCalculator.swift and the self-sizing hosting controller. It is not part of this model.
- `sheetController.animateChanges`, the detent-change closure and the presentation completion are UIKit side effects. Only the `present` call is recorded.
- UIKit's own behaviour is not modelled. This covers how it derives `sheetPresentationController` from the presentation style, and the debug-only `assertionFailure` in the guard. The model has release behaviour: it presents and returns.
- `SheetPlatform.IdentifierOf`: UIKit gives every custom detent a generated unique identifier. The model identifies a custom detent by its height, so two custom detents of equal height share an identifier.
- `CGFloat` is `real`: NaN, infinities and rounding are not modelled.
- `Sequences.Deduplicate` picks an arbitrary order. It does not model Swift's hash-seeded iteration order.
- The rest of the library is not part of this model: action sheet, document and image pickers, PDF and JPEG helpers, and the demo views. The action sheet only forwards parameters into `UIAlertController`. The pickers are UIKit and PhotosUI delegate callbacks. The PDF and JPEG helpers (PDFHelper.swift, UIImage+Additions.swift) are built on foreign encoders and floating-point page geometry: they rasterise and resize pages and step the JPEG quality down until the data fits.
