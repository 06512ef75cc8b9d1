/** The parts of UIKit's `UISheetPresentationController.Detent` the presenter depends on:
    the standard medium and large detents, a custom detent of a fixed height, and the
    identifier every detent carries. */
module SheetPlatform {

  datatype SheetDetent = PMedium | PLarge | PCustom(height: real)
  {
    /** One of the two detents every supported iOS version offers. */
    predicate IsStandard() {
      PMedium? || PLarge?
    }
  }

  datatype Identifier = MediumId | LargeId | CustomId(height: real)

  /** `detent.identifier`: `.medium` and `.large` for the standard detents; a custom detent
      is identified here by its height. */
  function IdentifierOf(d: SheetDetent): (id: Identifier)
    ensures id == MediumId <==> d == PMedium
    ensures id == LargeId <==> d == PLarge
    ensures id.CustomId? <==> d.PCustom?
    ensures d.PCustom? ==> id.height == d.height
  {
    match d
    case PMedium => MediumId
    case PLarge => LargeId
    case PCustom(h) => CustomId(h)
  }
}
