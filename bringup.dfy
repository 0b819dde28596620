/** Network bring-up of the MXChip AZ3166 board (wwd_network_init and wifi_init in
    wwd_networking.c): the security-mode mapping, and the staged acquisition of
    packet pools, radio, IP instance, protocols, DHCP, DNS and SNTP with its
    hand-written cleanup on failure.

    Every NetX, WICED, SNTP and TLS library call is foreign: its result is an input
    (an "outcome"), and the model records the call in an event trace so that the
    order and number of calls can be stated. */
module Bringup {
  import opened Status
  import opened Address
  import opened Wrappers
  import opened CStrings

  // ---------------------------------------------------------------------------
  // Security mode (cloud_config.h WiFi_Mode and the switch in wwd_network_init)
  // ---------------------------------------------------------------------------

  /** The configuration's security mode: None, WEP, WPA_PSK_TKIP, WPA2_PSK_AES. */
  datatype WiFiMode = ModeNone | ModeWep | ModeWpaPskTkip | ModeWpa2PskAes

  /** The WICED radio security constants the mode is translated to. */
  datatype SecurityType =
    | SecurityOpen | SecurityWepShared | SecurityWpaTkipPsk | SecurityWpa2AesPsk

  /** The switch in wwd_network_init that chooses netx_mode. */
  function SecurityFor(mode: WiFiMode): SecurityType
  {
    match mode
    case ModeNone => SecurityOpen
    case ModeWep => SecurityWepShared
    case ModeWpaPskTkip => SecurityWpaTkipPsk
    case ModeWpa2PskAes => SecurityWpa2AesPsk
  }

  /** No two modes share a radio security constant. */
  lemma SecurityForInjective(m1: WiFiMode, m2: WiFiMode)
    ensures SecurityFor(m1) == SecurityFor(m2) ==> m1 == m2
  {
  }

  // ---------------------------------------------------------------------------
  // Acquisition stages of wwd_network_init and their cleanup
  // ---------------------------------------------------------------------------

  /** One step of the acquisition chain. Stage WifiSetup is the repository's own
      wifi_init; every other stage is one library call. */
  datatype Stage =
    | TxPoolCreate | RxPoolCreate | WifiSetup | IpCreate
    | ArpEnable | TcpEnable | UdpEnable | IcmpEnable
    | DhcpCreate | DhcpStart | DnsCreate | SntpInit

  /** The fixed order in which wwd_network_init runs the stages. */
  const InitStages: seq<Stage> :=
    [TxPoolCreate, RxPoolCreate, WifiSetup, IpCreate,
     ArpEnable, TcpEnable, UdpEnable, IcmpEnable,
     DhcpCreate, DhcpStart, DnsCreate, SntpInit]

  /** The objects the chain creates and knows how to delete: nx_pool[0], nx_pool[1],
      nx_ip, nx_dhcp_client and nx_dns_client. */
  datatype Resource = TxPool | RxPool | IpInstance | DhcpClient | DnsClient

  const AllResources: set<Resource> := {TxPool, RxPool, IpInstance, DhcpClient, DnsClient}

  /** The resource a successful stage brings to life, if any. ARP, TCP, UDP and
      ICMP are features of the IP instance and go away with it; starting DHCP
      creates nothing deletable; the SNTP client's internals are not part of this
      model. */
  function Creates(s: Stage): Option<Resource>
  {
    match s
    case TxPoolCreate => Some(TxPool)
    case RxPoolCreate => Some(RxPool)
    case IpCreate => Some(IpInstance)
    case DhcpCreate => Some(DhcpClient)
    case DnsCreate => Some(DnsClient)
    case _ => None
  }

  /** The place of stage s in InitStages. */
  function Position(s: Stage): (i: nat)
    ensures i < |InitStages|
  {
    match s
    case TxPoolCreate => 0
    case RxPoolCreate => 1
    case WifiSetup => 2
    case IpCreate => 3
    case ArpEnable => 4
    case TcpEnable => 5
    case UdpEnable => 6
    case IcmpEnable => 7
    case DhcpCreate => 8
    case DhcpStart => 9
    case DnsCreate => 10
    case SntpInit => 11
  }

  /** The stage whose success brings resource r to life. */
  function CreatedBy(r: Resource): (s: Stage)
    ensures Creates(s) == Some(r)
  {
    match r
    case TxPool => TxPoolCreate
    case RxPool => RxPoolCreate
    case IpInstance => IpCreate
    case DhcpClient => DhcpCreate
    case DnsClient => DnsCreate
  }

  /** The resources that must be live when stage s runs: those whose creating
      stage comes earlier in the chain. */
  function AcquiredBefore(s: Stage): set<Resource>
  {
    set r | r in AllResources && Position(CreatedBy(r)) < Position(s)
  }

  /** What the device records happening, in order. */
  datatype Event =
    | Attempt(stage: Stage)               // the call of one acquisition stage
    | Release(resource: Resource)         // nx_packet_pool_delete, nx_ip_delete, nx_dhcp_delete, nx_dns_delete
    | TlsInitialize                       // nx_secure_tls_initialize
    | JoinHalt(halt: bool)                // wwd_wifi_join_halt
    | Leave                               // wwd_wifi_leave
    | Join(attempt: nat, ssid: string, security: SecurityType, password: string)  // wwd_wifi_join, with the texts it is given
    | Sleep(seconds: nat)                 // tx_thread_sleep
    | DhcpStartCall                       // nx_dhcp_start in dhcp_connect
    | LeaseCheck(attempt: nat, waitSeconds: nat)  // nx_ip_status_check for NX_IP_ADDRESS_RESOLVED
    | InterfaceAddressSet(address: Word, mask: Word)  // nx_ip_interface_address_set
    | GatewaySet(gateway: Word)           // nx_ip_gateway_address_set
    | DnsServerAdd(server: Word)          // nx_dns_server_add
    | SntpSync                            // sntp_sync

  /** The deletes wwd_network_init performs when stage s fails, in the order the
      code issues them. */
  function Cleanup(s: Stage): seq<Event>
  {
    match s
    case TxPoolCreate => []
    case RxPoolCreate => [Release(TxPool)]
    case WifiSetup => [Release(TxPool), Release(RxPool)]
    case IpCreate => [Release(TxPool), Release(RxPool)]
    case ArpEnable => [Release(IpInstance), Release(TxPool), Release(RxPool)]
    case TcpEnable => [Release(IpInstance), Release(TxPool), Release(RxPool)]
    case UdpEnable => [Release(IpInstance), Release(TxPool), Release(RxPool)]
    case IcmpEnable => [Release(IpInstance), Release(TxPool), Release(RxPool)]
    case DhcpCreate => [Release(IpInstance), Release(TxPool), Release(RxPool)]
    case DhcpStart => [Release(DhcpClient), Release(IpInstance), Release(TxPool), Release(RxPool)]
    case DnsCreate => [Release(DhcpClient), Release(IpInstance), Release(TxPool), Release(RxPool)]
    case SntpInit => [Release(DnsClient), Release(DhcpClient), Release(IpInstance), Release(TxPool), Release(RxPool)]
  }

  /** The resources the cleanup of stage s deletes. */
  function Freed(s: Stage): set<Resource>
  {
    match s
    case TxPoolCreate => {}
    case RxPoolCreate => {TxPool}
    case WifiSetup => {TxPool, RxPool}
    case IpCreate => {TxPool, RxPool}
    case ArpEnable => {IpInstance, TxPool, RxPool}
    case TcpEnable => {IpInstance, TxPool, RxPool}
    case UdpEnable => {IpInstance, TxPool, RxPool}
    case IcmpEnable => {IpInstance, TxPool, RxPool}
    case DhcpCreate => {IpInstance, TxPool, RxPool}
    case DhcpStart => {DhcpClient, IpInstance, TxPool, RxPool}
    case DnsCreate => {DhcpClient, IpInstance, TxPool, RxPool}
    case SntpInit => {DnsClient, DhcpClient, IpInstance, TxPool, RxPool}
  }

  /** The stage after s in the chain, if any. */
  function Next(s: Stage): Option<Stage>
  {
    match s
    case TxPoolCreate => Some(RxPoolCreate)
    case RxPoolCreate => Some(WifiSetup)
    case WifiSetup => Some(IpCreate)
    case IpCreate => Some(ArpEnable)
    case ArpEnable => Some(TcpEnable)
    case TcpEnable => Some(UdpEnable)
    case UdpEnable => Some(IcmpEnable)
    case IcmpEnable => Some(DhcpCreate)
    case DhcpCreate => Some(DhcpStart)
    case DhcpStart => Some(DnsCreate)
    case DnsCreate => Some(SntpInit)
    case SntpInit => None
  }

  /** The stage before s in the chain, if any. */
  function Prev(s: Stage): Option<Stage>
  {
    match s
    case TxPoolCreate => None
    case RxPoolCreate => Some(TxPoolCreate)
    case WifiSetup => Some(RxPoolCreate)
    case IpCreate => Some(WifiSetup)
    case ArpEnable => Some(IpCreate)
    case TcpEnable => Some(ArpEnable)
    case UdpEnable => Some(TcpEnable)
    case IcmpEnable => Some(UdpEnable)
    case DhcpCreate => Some(IcmpEnable)
    case DhcpStart => Some(DhcpCreate)
    case DnsCreate => Some(DhcpStart)
    case SntpInit => Some(DnsCreate)
  }

  /** Next and Prev walk InitStages one place forwards and backwards. */
  lemma NextAndPrevFollowInitStages(s: Stage)
    ensures Next(s).Some? <==> Position(s) + 1 < |InitStages|
    ensures Next(s).Some? ==> Next(s).value == InitStages[Position(s) + 1] && Prev(Next(s).value) == Some(s)
    ensures Prev(s).Some? <==> 0 < Position(s)
    ensures Prev(s).Some? ==> Prev(s).value == InitStages[Position(s) - 1]
  {
  }

  /** The attempts of every stage up to and including s, in chain order: those up
      to the stage before s, then s. */
  function Attempts(s: Stage): seq<Event>
  {
    match s
    case TxPoolCreate => [Attempt(TxPoolCreate)]
    case RxPoolCreate => [Attempt(TxPoolCreate), Attempt(RxPoolCreate)]
    case WifiSetup => [Attempt(TxPoolCreate), Attempt(RxPoolCreate), Attempt(WifiSetup)]
    case IpCreate => [Attempt(TxPoolCreate), Attempt(RxPoolCreate), Attempt(WifiSetup), Attempt(IpCreate)]
    case ArpEnable => [Attempt(TxPoolCreate), Attempt(RxPoolCreate), Attempt(WifiSetup), Attempt(IpCreate), Attempt(ArpEnable)]
    case TcpEnable => [Attempt(TxPoolCreate), Attempt(RxPoolCreate), Attempt(WifiSetup), Attempt(IpCreate), Attempt(ArpEnable), Attempt(TcpEnable)]
    case UdpEnable => [Attempt(TxPoolCreate), Attempt(RxPoolCreate), Attempt(WifiSetup), Attempt(IpCreate), Attempt(ArpEnable), Attempt(TcpEnable), Attempt(UdpEnable)]
    case IcmpEnable => [Attempt(TxPoolCreate), Attempt(RxPoolCreate), Attempt(WifiSetup), Attempt(IpCreate), Attempt(ArpEnable), Attempt(TcpEnable), Attempt(UdpEnable), Attempt(IcmpEnable)]
    case DhcpCreate => [Attempt(TxPoolCreate), Attempt(RxPoolCreate), Attempt(WifiSetup), Attempt(IpCreate), Attempt(ArpEnable), Attempt(TcpEnable), Attempt(UdpEnable), Attempt(IcmpEnable), Attempt(DhcpCreate)]
    case DhcpStart => [Attempt(TxPoolCreate), Attempt(RxPoolCreate), Attempt(WifiSetup), Attempt(IpCreate), Attempt(ArpEnable), Attempt(TcpEnable), Attempt(UdpEnable), Attempt(IcmpEnable), Attempt(DhcpCreate), Attempt(DhcpStart)]
    case DnsCreate => [Attempt(TxPoolCreate), Attempt(RxPoolCreate), Attempt(WifiSetup), Attempt(IpCreate), Attempt(ArpEnable), Attempt(TcpEnable), Attempt(UdpEnable), Attempt(IcmpEnable), Attempt(DhcpCreate), Attempt(DhcpStart), Attempt(DnsCreate)]
    case SntpInit => [Attempt(TxPoolCreate), Attempt(RxPoolCreate), Attempt(WifiSetup), Attempt(IpCreate), Attempt(ArpEnable), Attempt(TcpEnable), Attempt(UdpEnable), Attempt(IcmpEnable), Attempt(DhcpCreate), Attempt(DhcpStart), Attempt(DnsCreate), Attempt(SntpInit)]
  }

  /** The resources the chain has created when stage s starts, every stage before
      it having succeeded: those held when the stage before s started, plus what
      that stage created. */
  function Holding(s: Stage): set<Resource>
  {
    match s
    case TxPoolCreate => {}
    case RxPoolCreate => {TxPool}
    case WifiSetup => {TxPool, RxPool}
    case IpCreate => {TxPool, RxPool}
    case ArpEnable => {TxPool, RxPool, IpInstance}
    case TcpEnable => {TxPool, RxPool, IpInstance}
    case UdpEnable => {TxPool, RxPool, IpInstance}
    case IcmpEnable => {TxPool, RxPool, IpInstance}
    case DhcpCreate => {TxPool, RxPool, IpInstance}
    case DhcpStart => {TxPool, RxPool, IpInstance, DhcpClient}
    case DnsCreate => {TxPool, RxPool, IpInstance, DhcpClient}
    case SntpInit => {TxPool, RxPool, IpInstance, DhcpClient, DnsClient}
  }

  /** The radio driver calls wifi_init makes: none for an empty SSID, then
      wwd_buffer_init, and wwd_management_wifi_on only when that succeeded. */
  datatype RadioCall = BufferInit | WifiOn

  /** wifi_init's test netx_ssid[0] == 0 on the stashed SSID buffer. */
  predicate LeadingNul(ssid: seq<char>)
  {
    ssid == [] || ssid[0] == '\0'
  }

  function RadioCalls(ssid: seq<char>, bufferInit: U32): (calls: seq<RadioCall>)
    ensures calls == [] <==> Text(ssid) == []
    ensures calls <= [BufferInit, WifiOn]
    ensures WifiOn in calls <==> Text(ssid) != [] && bufferInit == WWD_SUCCESS
  {
    TextEmptyIffLeadingNul(ssid);
    if LeadingNul(ssid) then []
    else if bufferInit != WWD_SUCCESS then [BufferInit]
    else [BufferInit, WifiOn]
  }

  /** wifi_init: refuse an empty SSID before touching the radio, then hand the
      packet pools to the radio driver and switch the radio on, stopping at the
      first of the two that fails. */
  method WifiInit(ssid: seq<char>, bufferInit: U32, wifiOn: U32) returns (status: U32, calls: seq<RadioCall>)
    ensures status == WifiInitStatus(ssid, bufferInit, wifiOn)
    ensures calls == RadioCalls(ssid, bufferInit)
  {
    calls := [];
    if LeadingNul(ssid) {
      return NX_NOT_SUCCESSFUL, calls;
    }
    calls := calls + [BufferInit];
    if bufferInit != WWD_SUCCESS {
      return NX_NOT_SUCCESSFUL, calls;
    }
    calls := calls + [WifiOn];
    if wifiOn != WWD_SUCCESS {
      return NX_NOT_SUCCESSFUL, calls;
    }
    status := NX_SUCCESS;
  }

  /** The results the library calls of the chain return, one per stage, and the two
      results of the radio calls inside wifi_init (wwd_buffer_init and
      wwd_management_wifi_on), whose combination is that stage's status. */
  datatype InitOutcomes = InitOutcomes(
    txPoolCreate: U32, rxPoolCreate: U32, bufferInit: U32, wifiOn: U32, ipCreate: U32,
    arpEnable: U32, tcpEnable: U32, udpEnable: U32, icmpEnable: U32,
    dhcpCreate: U32, dhcpStart: U32, dnsCreate: U32, sntpInit: U32)

  /** The status wifi_init returns for the stashed SSID and the two radio results. */
  function WifiInitStatus(ssid: seq<char>, bufferInit: U32, wifiOn: U32): (status: U32)
    ensures status == NX_SUCCESS <==> Text(ssid) != [] && bufferInit == WWD_SUCCESS && wifiOn == WWD_SUCCESS
    ensures status == NX_SUCCESS || status == NX_NOT_SUCCESSFUL
  {
    TextEmptyIffLeadingNul(ssid);
    if LeadingNul(ssid) then NX_NOT_SUCCESSFUL
    else if bufferInit != WWD_SUCCESS then NX_NOT_SUCCESSFUL
    else if wifiOn != WWD_SUCCESS then NX_NOT_SUCCESSFUL
    else NX_SUCCESS
  }

  /** The status stage s reports. */
  function StageStatus(o: InitOutcomes, ssid: string, s: Stage): U32
  {
    match s
    case TxPoolCreate => o.txPoolCreate
    case RxPoolCreate => o.rxPoolCreate
    case WifiSetup => WifiInitStatus(ssid, o.bufferInit, o.wifiOn)
    case IpCreate => o.ipCreate
    case ArpEnable => o.arpEnable
    case TcpEnable => o.tcpEnable
    case UdpEnable => o.udpEnable
    case IcmpEnable => o.icmpEnable
    case DhcpCreate => o.dhcpCreate
    case DhcpStart => o.dhcpStart
    case DnsCreate => o.dnsCreate
    case SntpInit => o.sntpInit
  }

  /** The first failing stage at or after s, or None when all of them succeed. */
  function FirstFailure(o: InitOutcomes, ssid: string, s: Stage): Option<Stage>
    decreases |InitStages| - Position(s)
  {
    if StageStatus(o, ssid, s) != NX_SUCCESS then Some(s)
    else match Next(s)
      case None => None
      case Some(n) => FirstFailure(o, ssid, n)
  }

  /** The stage at which wwd_network_init stops, or None when it completes. */
  function FailedStage(o: InitOutcomes, ssid: string): Option<Stage>
  {
    FirstFailure(o, ssid, TxPoolCreate)
  }

  /** The status wwd_network_init returns: that of its first failing stage. */
  function InitStatus(o: InitOutcomes, ssid: string): U32
  {
    match FailedStage(o, ssid)
    case None => NX_SUCCESS
    case Some(s) => StageStatus(o, ssid, s)
  }

  /** The trace after wwd_network_init: every stage up to and including the
      failing one is attempted and the failing stage's cleanup runs; when all
      stages succeed, TLS is initialised. */
  function InitEvents(failed: Option<Stage>): seq<Event>
  {
    match failed
    case None => Attempts(SntpInit) + [TlsInitialize]
    case Some(s) => Attempts(s) + Cleanup(s)
  }

  /** The live resources after wwd_network_init, base being those live before: the
      chain adds what it creates, and on failure the failing stage's cleanup
      deletes what it lists. */
  function InitLive(base: set<Resource>, failed: Option<Stage>): set<Resource>
  {
    match failed
    case None => base + Holding(SntpInit)
    case Some(s) => base + Holding(s) - Freed(s)
  }

  /** Both packet pools are created: the radio is touched only after this. */
  predicate PoolsCreated(o: InitOutcomes)
  {
    o.txPoolCreate == NX_SUCCESS && o.rxPoolCreate == NX_SUCCESS
  }

  /** The status, trace and live resources are those wwd_network_init ends with,
      before and base being the trace and live resources it started from. */
  ghost predicate Finished(o: InitOutcomes, ssid: string, before: seq<Event>, base: set<Resource>,
                           status: U32, events: seq<Event>, live: set<Resource>)
  {
    var f := FailedStage(o, ssid);
    status == InitStatus(o, ssid) && events == before + InitEvents(f) && live == InitLive(base, f)
  }

  /** wwd_network_init has passed every stage up to done and is about to run next. */
  ghost predicate Running(o: InitOutcomes, ssid: string, done: Stage, next: Stage,
                          before: seq<Event>, base: set<Resource>,
                          events: seq<Event>, live: set<Resource>)
  {
    FailedStage(o, ssid) == FirstFailure(o, ssid, next) &&
    events == before + Attempts(done) && live == base + Holding(next)
  }

  /** The two packet pools, TX then RX: the first stages of wwd_network_init. */
  method CreatePools(o: InitOutcomes, ghost ssid: string, before: seq<Event>, wasLive: set<Resource>)
    returns (status: U32, events: seq<Event>, live: set<Resource>)
    ensures status != NX_SUCCESS ==> Finished(o, ssid, before, wasLive, status, events, live)
    ensures status == NX_SUCCESS <==> PoolsCreated(o)
    ensures status == NX_SUCCESS ==> Running(o, ssid, RxPoolCreate, WifiSetup, before, wasLive, events, live)
  {
    events, live := before, wasLive;
    events := events + [Attempt(TxPoolCreate)];
    status := o.txPoolCreate;
    if status != NX_SUCCESS {
      return;
    }
    live := live + {TxPool};

    assert FailedStage(o, ssid) == FirstFailure(o, ssid, RxPoolCreate);
    events := events + [Attempt(RxPoolCreate)];
    status := o.rxPoolCreate;
    if status != NX_SUCCESS {
      events := events + [Release(TxPool)];
      live := live - {TxPool};
      return;
    }
    live := live + {RxPool};
  }

  /** The wifi_init stage, which on failure deletes both packet pools. */
  method StartWifi(o: InitOutcomes, ssid: string, ghost before: seq<Event>, ghost wasLive: set<Resource>,
                   events0: seq<Event>, live0: set<Resource>)
    returns (status: U32, calls: seq<RadioCall>, events: seq<Event>, live: set<Resource>)
    requires Running(o, ssid, RxPoolCreate, WifiSetup, before, wasLive, events0, live0)
    ensures calls == RadioCalls(ssid, o.bufferInit)
    ensures status != NX_SUCCESS ==> Finished(o, ssid, before, wasLive, status, events, live)
    ensures status == NX_SUCCESS ==> Running(o, ssid, WifiSetup, IpCreate, before, wasLive, events, live)
  {
    events, live := events0 + [Attempt(WifiSetup)], live0;
    status, calls := WifiInit(ssid, o.bufferInit, o.wifiOn);
    if status != NX_SUCCESS {
      events := events + [Release(TxPool), Release(RxPool)];
      live := live - {TxPool, RxPool};
      return;
    }
    assert FailedStage(o, ssid) == FirstFailure(o, ssid, IpCreate);
  }

  /** The IP instance, then its ARP module. */
  method CreateIp(o: InitOutcomes, ghost ssid: string, ghost before: seq<Event>, ghost wasLive: set<Resource>,
                  events0: seq<Event>, live0: set<Resource>)
    returns (status: U32, events: seq<Event>, live: set<Resource>)
    requires Running(o, ssid, WifiSetup, IpCreate, before, wasLive, events0, live0)
    ensures status != NX_SUCCESS ==> Finished(o, ssid, before, wasLive, status, events, live)
    ensures status == NX_SUCCESS ==> Running(o, ssid, ArpEnable, TcpEnable, before, wasLive, events, live)
  {
    events, live := events0, live0;
    assert FailedStage(o, ssid) == FirstFailure(o, ssid, IpCreate);
    events := events + [Attempt(IpCreate)];
    status := o.ipCreate;
    if status != NX_SUCCESS {
      events := events + [Release(TxPool), Release(RxPool)];
      live := live - {TxPool, RxPool};
      return;
    }
    live := live + {IpInstance};

    assert FailedStage(o, ssid) == FirstFailure(o, ssid, ArpEnable);
    events := events + [Attempt(ArpEnable)];
    status := o.arpEnable;
    if status != NX_SUCCESS {
      events := events + [Release(IpInstance), Release(TxPool), Release(RxPool)];
      live := live - {IpInstance, TxPool, RxPool};
      return;
    }
  }

  /** The TCP, UDP and ICMP modules of the IP instance. */
  method EnableTransports(o: InitOutcomes, ghost ssid: string, ghost before: seq<Event>, ghost wasLive: set<Resource>,
                          events0: seq<Event>, live0: set<Resource>)
    returns (status: U32, events: seq<Event>, live: set<Resource>)
    requires Running(o, ssid, ArpEnable, TcpEnable, before, wasLive, events0, live0)
    ensures status != NX_SUCCESS ==> Finished(o, ssid, before, wasLive, status, events, live)
    ensures status == NX_SUCCESS ==> Running(o, ssid, IcmpEnable, DhcpCreate, before, wasLive, events, live)
  {
    events, live := events0, live0;
    assert FailedStage(o, ssid) == FirstFailure(o, ssid, TcpEnable);
    events := events + [Attempt(TcpEnable)];
    status := o.tcpEnable;
    if status != NX_SUCCESS {
      events := events + [Release(IpInstance), Release(TxPool), Release(RxPool)];
      live := live - {IpInstance, TxPool, RxPool};
      return;
    }

    assert FailedStage(o, ssid) == FirstFailure(o, ssid, UdpEnable);
    events := events + [Attempt(UdpEnable)];
    status := o.udpEnable;
    if status != NX_SUCCESS {
      events := events + [Release(IpInstance), Release(TxPool), Release(RxPool)];
      live := live - {IpInstance, TxPool, RxPool};
      return;
    }

    assert FailedStage(o, ssid) == FirstFailure(o, ssid, IcmpEnable);
    events := events + [Attempt(IcmpEnable)];
    status := o.icmpEnable;
    if status != NX_SUCCESS {
      events := events + [Release(IpInstance), Release(TxPool), Release(RxPool)];
      live := live - {IpInstance, TxPool, RxPool};
      return;
    }
  }

  /** The DHCP client: created, then started. */
  method StartDhcp(o: InitOutcomes, ghost ssid: string, ghost before: seq<Event>, ghost wasLive: set<Resource>,
                   events0: seq<Event>, live0: set<Resource>)
    returns (status: U32, events: seq<Event>, live: set<Resource>)
    requires Running(o, ssid, IcmpEnable, DhcpCreate, before, wasLive, events0, live0)
    ensures status != NX_SUCCESS ==> Finished(o, ssid, before, wasLive, status, events, live)
    ensures status == NX_SUCCESS ==> Running(o, ssid, DhcpStart, DnsCreate, before, wasLive, events, live)
  {
    events, live := events0, live0;
    assert FailedStage(o, ssid) == FirstFailure(o, ssid, DhcpCreate);
    events := events + [Attempt(DhcpCreate)];
    status := o.dhcpCreate;
    if status != NX_SUCCESS {
      events := events + [Release(IpInstance), Release(TxPool), Release(RxPool)];
      live := live - {IpInstance, TxPool, RxPool};
      return;
    }
    live := live + {DhcpClient};

    assert FailedStage(o, ssid) == FirstFailure(o, ssid, DhcpStart);
    events := events + [Attempt(DhcpStart)];
    status := o.dhcpStart;
    if status != NX_SUCCESS {
      events := events + [Release(DhcpClient), Release(IpInstance), Release(TxPool), Release(RxPool)];
      live := live - {DhcpClient, IpInstance, TxPool, RxPool};
      return;
    }
  }

  /** The DNS client, the SNTP client, and finally TLS. */
  method StartServices(o: InitOutcomes, ghost ssid: string, ghost before: seq<Event>, ghost wasLive: set<Resource>,
                       events0: seq<Event>, live0: set<Resource>)
    returns (status: U32, events: seq<Event>, live: set<Resource>)
    requires Running(o, ssid, DhcpStart, DnsCreate, before, wasLive, events0, live0)
    ensures Finished(o, ssid, before, wasLive, status, events, live)
  {
    events, live := events0, live0;
    assert FailedStage(o, ssid) == FirstFailure(o, ssid, DnsCreate);
    events := events + [Attempt(DnsCreate)];
    status := o.dnsCreate;
    if status != NX_SUCCESS {
      events := events + [Release(DhcpClient), Release(IpInstance), Release(TxPool), Release(RxPool)];
      live := live - {DhcpClient, IpInstance, TxPool, RxPool};
      return;
    }
    live := live + {DnsClient};

    assert FailedStage(o, ssid) == FirstFailure(o, ssid, SntpInit);
    events := events + [Attempt(SntpInit)];
    status := o.sntpInit;
    if status != NX_SUCCESS {
      events := events + [Release(DnsClient), Release(DhcpClient), Release(IpInstance), Release(TxPool), Release(RxPool)];
      live := live - {DnsClient, DhcpClient, IpInstance, TxPool, RxPool};
      return;
    }

    assert FailedStage(o, ssid) == None;
    events := events + [TlsInitialize];
  }


  // ---------------------------------------------------------------------------
  // Properties of the acquisition chain
  // ---------------------------------------------------------------------------

  /** FirstFailure finds the first failing stage: every stage from s up to it
      succeeds, and it fails. */
  lemma {:induction false} FirstFailureIsFirst(o: InitOutcomes, ssid: string, s: Stage)
    ensures var f := FirstFailure(o, ssid, s);
      && (f.Some? ==> Position(s) <= Position(f.value) && StageStatus(o, ssid, f.value) != NX_SUCCESS)
      && (forall t :: Position(s) <= Position(t) && (f.None? || Position(t) < Position(f.value)) ==>
            StageStatus(o, ssid, t) == NX_SUCCESS)
    decreases |InitStages| - Position(s)
  {
    if StageStatus(o, ssid, s) == NX_SUCCESS && Next(s).Some? {
      FirstFailureIsFirst(o, ssid, Next(s).value);
    }
  }

  /** The attempts follow InitStages: stage s and exactly the stages before it are
      attempted, once each, in chain order. */
  lemma {:induction false} AttemptsFollowChainOrder(s: Stage)
    ensures |Attempts(s)| == Position(s) + 1
    ensures forall i :: 0 <= i <= Position(s) ==> Attempts(s)[i] == Attempt(InitStages[i])
    ensures forall e :: e in Attempts(s) ==> e.Attempt?
    decreases Position(s)
  {
    NextAndPrevFollowInitStages(s);
    if Prev(s).Some? {
      AttemptsFollowChainOrder(Prev(s).value);
    }
  }

  /** wwd_network_init returns success exactly when every stage succeeds; otherwise
      it returns the failing stage's own (non-success) status. */
  lemma InitSucceedsIffAllStagesSucceed(o: InitOutcomes, ssid: string)
    ensures InitStatus(o, ssid) == NX_SUCCESS <==> forall t :: StageStatus(o, ssid, t) == NX_SUCCESS
    ensures FailedStage(o, ssid).Some? ==> InitStatus(o, ssid) == StageStatus(o, ssid, FailedStage(o, ssid).value)
  {
    FirstFailureIsFirst(o, ssid, TxPoolCreate);
  }

  /** TLS is initialised exactly when wwd_network_init succeeds; on failure the
      failing stage was attempted. */
  lemma TlsOnlyAfterFullSuccess(o: InitOutcomes, ssid: string)
    ensures TlsInitialize in InitEvents(FailedStage(o, ssid)) <==> InitStatus(o, ssid) == NX_SUCCESS
    ensures FailedStage(o, ssid).Some? ==>
              Attempt(FailedStage(o, ssid).value) in InitEvents(FailedStage(o, ssid))
  {
    FirstFailureIsFirst(o, ssid, TxPoolCreate);
    var f := FailedStage(o, ssid);
    if f.Some? {
      AttemptsFollowChainOrder(f.value);
      var attempts := Attempts(f.value);
      assert attempts[Position(f.value)] == Attempt(f.value);
      assert TlsInitialize !in Cleanup(f.value);
    } else {
      assert InitEvents(f)[|InitEvents(f)| - 1] == TlsInitialize;
    }
  }

  /** The stage that creates r is the one CreatedBy names. */
  lemma CreatesOnlyItsOwn(s: Stage, r: Resource)
    ensures Creates(s) == Some(r) <==> CreatedBy(r) == s
  {
  }

  /** Holding agrees with AcquiredBefore: when stage s starts, the chain has
      created exactly the resources whose creating stage comes earlier. */
  lemma {:induction false} HoldingIsAcquiredBefore(s: Stage)
    ensures Holding(s) == AcquiredBefore(s)
    decreases Position(s)
  {
    NextAndPrevFollowInitStages(s);
    if Prev(s).Some? {
      var p := Prev(s).value;
      HoldingIsAcquiredBefore(p);
      forall r | r in AllResources
        ensures r in AcquiredBefore(s) <==> r in AcquiredBefore(p) || Creates(p) == Some(r)
      {
        CreatesOnlyItsOwn(p, r);
        assert Position(CreatedBy(r)) == Position(p) ==> CreatedBy(r) == p;
      }
    }
  }

  /** No leak and no stray delete: the cleanup of stage s deletes exactly the
      resources created before s, and its events name exactly those. */
  lemma CleanupFreesWhatWasAcquired(s: Stage)
    ensures Freed(s) == AcquiredBefore(s)
    ensures forall r :: Release(r) in Cleanup(s) <==> r in Freed(s)
    ensures forall e :: e in Cleanup(s) ==> e.Release?
  {
  }

  /** The cleanup deletes each resource at most once. */
  lemma CleanupReleasesOnce(s: Stage)
    ensures forall i, j :: 0 <= i < j < |Cleanup(s)| ==> Cleanup(s)[i] != Cleanup(s)[j]
  {
    match s
    case TxPoolCreate =>
    case RxPoolCreate =>
    case WifiSetup =>
    case IpCreate =>
    case ArpEnable =>
    case TcpEnable =>
    case UdpEnable =>
    case IcmpEnable =>
    case DhcpCreate =>
    case DhcpStart =>
    case DnsCreate =>
    case SntpInit =>
  }

  /** Once both packet pools exist, the cleanup ends by deleting them in creation
      order (nx_pool[0] before nx_pool[1]), not in reverse. */
  lemma CleanupEndsWithPools(s: Stage)
    ensures 2 <= Position(s) ==>
              (|Cleanup(s)| >= 2 && Cleanup(s)[|Cleanup(s)| - 2..] == [Release(TxPool), Release(RxPool)])
  {
    match s
    case TxPoolCreate =>
    case RxPoolCreate =>
    case WifiSetup =>
    case IpCreate =>
    case ArpEnable =>
    case TcpEnable =>
    case UdpEnable =>
    case IcmpEnable =>
    case DhcpCreate =>
    case DhcpStart =>
    case DnsCreate =>
    case SntpInit =>
  }

  /** Before the pools, the cleanup deletes the other objects in reverse creation
      order. */
  lemma CleanupUnwindsObjects(s: Stage)
    ensures forall i, j :: 0 <= i < j < |Cleanup(s)| - 2 ==>
              Position(CreatedBy(Cleanup(s)[i].resource)) > Position(CreatedBy(Cleanup(s)[j].resource))
  {
    match s
    case TxPoolCreate =>
    case RxPoolCreate =>
    case WifiSetup =>
    case IpCreate =>
    case ArpEnable =>
    case TcpEnable =>
    case UdpEnable =>
    case IcmpEnable =>
    case DhcpCreate =>
    case DhcpStart =>
    case DnsCreate =>
    case SntpInit =>
  }

  /** After wwd_network_init nothing it created leaks: on failure the live set is
      what it was before minus everything the chain had created by then, and on
      success every resource is live. */
  lemma InitLeavesNothingBehind(base: set<Resource>, failed: Option<Stage>)
    ensures failed.None? ==> InitLive(base, failed) == base + AllResources
    ensures failed.Some? ==> InitLive(base, failed) == base - AcquiredBefore(failed.value)
  {
    match failed
    case None =>
      HoldingIsAcquiredBefore(SntpInit);
      assert AcquiredBefore(SntpInit) == AllResources;
    case Some(s) =>
      HoldingIsAcquiredBefore(s);
      CleanupFreesWhatWasAcquired(s);
  }
}
