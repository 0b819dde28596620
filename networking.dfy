/** The module-level state of wwd_networking.c and its two entry points,
    wwd_network_init and wwd_network_connect. */
module Networking {
  import opened Status
  import opened Bringup
  import opened Connecting

  /** The module-level state wwd_networking.c keeps: the stashed credentials
      (netx_ssid, netx_password, netx_mode), the live NetX objects (nx_pool[0],
      nx_pool[1], nx_ip, nx_dhcp_client, nx_dns_client), the calls made to the
      radio driver, and the trace of the other library calls made so far. */
  class NetX {
    var ssid: string
    var password: string
    var security: SecurityType
    var live: set<Resource>
    var radio: seq<RadioCall>
    var events: seq<Event>

    /** The state at boot: all statics zero, nothing created, nothing called. */
    constructor ()
      ensures ssid == [] && password == [] && security == SecurityOpen
      ensures live == {} && radio == [] && events == []
    {
      ssid, password, security := [], [], SecurityOpen;
      live, radio, events := {}, [], [];
    }

    /** wwd_network_init: stash the credentials, map the security mode, then run the
        acquisition chain; the first failing stage stops it, its hand-written
        cleanup deletes what was created, and its status is returned. When every
        stage succeeds TLS is initialised and NX_SUCCESS is returned. */
    method Init(ssid: string, password: string, mode: WiFiMode, o: InitOutcomes) returns (status: U32)
      modifies this
      ensures this.ssid == ssid && this.password == password && security == SecurityFor(mode)
      ensures status == InitStatus(o, ssid)
      ensures events == old(events) + InitEvents(FailedStage(o, ssid))
      ensures live == InitLive(old(live), FailedStage(o, ssid))
      ensures radio == old(radio) + (if PoolsCreated(o) then RadioCalls(ssid, o.bufferInit) else [])
    {
      this.ssid, this.password := ssid, password;
      security := SecurityFor(mode);
      ghost var before, wasLive := old(events), old(live);

      status, events, live := CreatePools(o, ssid, events, live);
      if status != NX_SUCCESS {
        return;
      }

      var calls;
      status, calls, events, live := StartWifi(o, ssid, before, wasLive, events, live);
      radio := radio + calls;
      if status != NX_SUCCESS {
        return;
      }

      status, events, live := CreateIp(o, ssid, before, wasLive, events, live);
      if status != NX_SUCCESS {
        return;
      }

      status, events, live := EnableTransports(o, ssid, before, wasLive, events, live);
      if status != NX_SUCCESS {
        return;
      }

      status, events, live := StartDhcp(o, ssid, before, wasLive, events, live);
      if status != NX_SUCCESS {
        return;
      }

      status, events, live := StartServices(o, ssid, before, wasLive, events, live);
    }
  
    /** wwd_network_connect: when the interface is not ready, reset the link and
        try to join up to five times with the stashed credentials, giving up with
        NX_NOT_SUCCESSFUL when no attempt succeeds; then obtain an address, register
        the DNS server and sync the time, returning the status of the sync. */
    method Connect(c: ConnectOutcomes) returns (status: U32)
      modifies this`events
      ensures status == ConnectStatus(c)
      ensures events == old(events) + ConnectTrace(c, Credentials(ssid, security, password))
    {
      var calls;
      status, calls := NetworkConnect(c, Credentials(ssid, security, password));
      events := events + calls;
    }
  }
}

