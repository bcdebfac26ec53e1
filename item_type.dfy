/** The seven item categories a sale can be of. */
module ItemTypes {

  datatype ItemType =
    | GenericPhysicalGood
    | GenericElectronicService
    | GenericTelecommunicationsService
    | GenericBroadcastingService
    | PrepaidBroadcastingService
    | Ebook
    | Enewspaper
  {
    /** The broadcasting family, which several countries tax at a reduced rate. */
    predicate IsBroadcastingService() {
      this == GenericBroadcastingService || this == PrepaidBroadcastingService
    }
  }
}
