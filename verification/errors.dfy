/** One error taxonomy for the whole model: the library's `Error`, the UPnP
    client's errors it wraps, and the manager's `Error` (whose `Sonor` variant
    wraps the library's, so here both live side by side). */
module Errors {
  import opened Urns

  datatype Error =
    // errors of the UPnP client
    | HttpErrorCode(status: nat)
    | UPnPError(code: nat)
    | ParseError(what: string)
    | InvalidResponse
    | XmlMissingElement(parent: string, element: string)
    | Unreachable                        // any other transport failure
    // errors of the library
    | MissingServiceForUPnPAction(service: Urn, action: string, payload: string)
    | NoSpeakersDetected
    | SpeakerNotIncludedInOwnZoneGroupState
    | GetZoneGroupStateReturnedNonSonos
    | ParseRepeatModeError
    // errors of the manager
    | SubscriberError(message: string)
    | ContentNotFound
}
