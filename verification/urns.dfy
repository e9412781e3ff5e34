/** Device and service type identifiers of the UPnP ZonePlayer:1 device. */
module Urns {
  datatype UrnKind = DeviceType | ServiceType

  datatype Urn = Urn(domain: string, kind: UrnKind, typ: string, version: nat)

  const SONOS_URN: Urn := Urn("schemas-upnp-org", DeviceType, "ZonePlayer", 1)
  const AV_TRANSPORT: Urn := Urn("schemas-upnp-org", ServiceType, "AVTransport", 1)
  const DEVICE_PROPERTIES: Urn := Urn("schemas-upnp-org", ServiceType, "DeviceProperties", 1)
  const RENDERING_CONTROL: Urn := Urn("schemas-upnp-org", ServiceType, "RenderingControl", 1)
  const ZONE_GROUP_TOPOLOGY: Urn := Urn("schemas-upnp-org", ServiceType, "ZoneGroupTopology", 1)
  const CONTENT_DIRECTORY: Urn := Urn("schemas-upnp-org", ServiceType, "ContentDirectory", 1)
  const QUEUE: Urn := Urn("schemas-sonos-com", ServiceType, "Queue", 1)
  const MUSIC_SERVICES: Urn := Urn("schemas-upnp-org", ServiceType, "MusicServices", 1)
}
