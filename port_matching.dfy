/**
 * The `find` predicate both `getPort` implementations use
 * (src/web/portManager.ts and src/web/webserial.ts): an authorized port
 * matches a grant when its vendor ID and its product ID both equal the
 * granted ones (`===`, so two `undefined` IDs are equal).
 */
module PortMatching {
  import opened Wrappers
  import opened Host

  /** `info.usbVendorId === portInfo.usbVendorId && info.usbProductId === portInfo.usbProductId`: the port's info is the granted one. */
  function Matches(port: SerialPort, grant: PortInfo): (b: bool)
    ensures b <==> port.info == grant
  {
    port.info.usbVendorId == grant.usbVendorId && port.info.usbProductId == grant.usbProductId
  }

  /** `portsFound.find(...)`, as the index of the first match. */
  function FirstMatchIndex(ports: seq<SerialPort>, grant: PortInfo): (r: Option<nat>)
    ensures r.Some? ==> r.value < |ports| && Matches(ports[r.value], grant)
    ensures r.Some? ==> forall j :: 0 <= j < r.value ==> !Matches(ports[j], grant)
    ensures r.None? ==> forall j :: 0 <= j < |ports| ==> !Matches(ports[j], grant)
  {
    if ports == [] then None
    else if Matches(ports[0], grant) then Some(0)
    else match FirstMatchIndex(ports[1..], grant)
      case None => None
      case Some(k) => Some(k + 1)
  }

  /** `portsFound.find(...)`: the first authorized port that matches, if any. */
  function FindPort(ports: seq<SerialPort>, grant: PortInfo): (r: Option<SerialPort>)
    ensures r.Some? ==> r.value in ports && Matches(r.value, grant)
    ensures r.Some? ==> exists k :: 0 <= k < |ports| && ports[k] == r.value && forall j :: 0 <= j < k ==> !Matches(ports[j], grant)
    ensures r.None? <==> forall p :: p in ports ==> !Matches(p, grant)
  {
    match FirstMatchIndex(ports, grant)
    case None => None
    case Some(k) => Some(ports[k])
  }

  /**
   * Resolving a grant against the authorized ports: nothing when the user
   * declined (`portInfo` is `undefined`), else the first authorized port
   * whose vendor and product IDs both equal the granted ones.
   */
  function ResolveGrant(grant: Option<PortInfo>, authorized: seq<SerialPort>): (r: Option<SerialPort>)
    ensures grant.None? ==> r.None?
    ensures r.Some? ==> grant.Some? && r.value in authorized && Matches(r.value, grant.value)
    ensures r.Some? ==> exists k :: 0 <= k < |authorized| && authorized[k] == r.value && forall j :: 0 <= j < k ==> !Matches(authorized[j], grant.value)
    ensures grant.Some? ==> (r.None? <==> forall p :: p in authorized ==> !Matches(p, grant.value))
  {
    match grant
    case None => None
    case Some(info) => FindPort(authorized, info)
  }
}
