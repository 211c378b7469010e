/** The abstract transport both versions send through, and the builder's
    addressing configuration. The concrete BLE and peer-socket adapters are
    not part of this model: a transport is a sink that records every frame
    handed to it, plus the answer of its optional connection probe. */
module Link {
  import opened Common

  class Transport {
    /** What `isConnected()` answers, or None when the transport has no such
        method (the callers then skip every connection check). */
    var probe: Option<bool>
    /** Every buffer handed to `send`, oldest first. */
    var sent: seq<Bytes>

    constructor (probe: Option<bool>)
      ensures this.probe == probe && sent == []
    {
      this.probe := probe;
      sent := [];
    }

    /** True when a probe exists and reports the link down. */
    predicate ReportsDown()
      reads this
    {
      probe == Some(false)
    }

    method Send(frame: Bytes)
      modifies this`sent
      ensures sent == old(sent) + [frame]
    {
      sent := sent + [frame];
    }

    /** The link going up or down underneath the builder. */
    method SetProbe(p: Option<bool>)
      modifies this`probe
      ensures probe == p
    {
      probe := p;
    }
  }

  /** The builder's `config`: application id and the two ports. */
  class Config {
    const appId: u32
    const appDevicePort: u16
    var appSidePort: u16

    constructor (appId: u32, appDevicePort: u16, appSidePort: u16)
      ensures this.appId == appId && this.appDevicePort == appDevicePort
      ensures this.appSidePort == appSidePort
    {
      this.appId := appId;
      this.appDevicePort := appDevicePort;
      this.appSidePort := appSidePort;
    }

    method SetSidePort(port: u16)
      modifies this`appSidePort
      ensures appSidePort == port
    {
      appSidePort := port;
    }
  }
}
