/** Connecting the board (wwd_network_connect, dhcp_connect and dns_connect in
    wwd_networking.c): the bounded Wi-Fi join loop, the DHCP lease loop with its
    static fallback, the DNS server registration and the SNTP sync.

    As in the bring-up, every WICED, NetX and SNTP call is foreign: its result is an
    input and the call is recorded as an event. */
module Connecting {
  import opened Status
  import opened Address
  import opened Wrappers
  import opened Bringup
  import opened CStrings

  /** At most five wwd_wifi_join attempts, 5 s apart. */
  const JoinAttempts: nat := 5
  const JoinRetrySeconds: nat := 5

  /** At most three nx_ip_status_check waits of 60 s (DHCP_WAIT_TIME_TICKS). */
  const LeaseChecks: nat := 3
  const LeaseWaitSeconds: nat := 60

  /** The static configuration dhcp_connect falls back to, and the DNS server
      dns_connect registers. */
  const StaticAddress: Word := IpAddress(Octets(192, 168, 1, 150))
  const StaticMask: Word := IpAddress(Octets(255, 255, 255, 0))
  const StaticGateway: Word := IpAddress(Octets(192, 168, 1, 1))
  const PublicDns: Word := IpAddress(Octets(8, 8, 8, 8))

  /** The results the foreign calls of wwd_network_connect return: the readiness
      check, each join attempt and each lease check by its number (from 1), the
      DHCP start, the DNS server registration and the SNTP sync. */
  datatype ConnectOutcomes = ConnectOutcomes(
    ready: U32,
    join: nat -> U32,
    dhcpStart: U32,
    leaseCheck: nat -> U32,
    dnsAdd: U32,
    sntpSync: U32)

  /** The credentials wwd_network_init stashed: the SSID and password as the C
      strings the pointers designate (each read up to its first NUL), and the
      security mode. */
  datatype Credentials = Credentials(ssid: string, security: SecurityType, password: string)

  /** Attempt k of wwd_wifi_join: it is handed strlen bytes of the SSID and of the
      password, that is, their texts. */
  function JoinCall(k: nat, cred: Credentials): Event
  {
    Join(k, Text(cred.ssid), cred.security, Text(cred.password))
  }

  // ---------------------------------------------------------------------------
  // The join loop
  // ---------------------------------------------------------------------------

  /** The first successful join attempt from attempt k on, if any. */
  function FirstJoin(c: ConnectOutcomes, k: nat): Option<nat>
    decreases JoinAttempts + 1 - k
  {
    if k > JoinAttempts then None
    else if c.join(k) == WWD_SUCCESS then Some(k)
    else FirstJoin(c, k + 1)
  }

  /** The calls the join loop makes from attempt k on: each attempt joins, and a
      failed attempt sleeps 5 s before the next one, the last one included. */
  function JoinTrace(c: ConnectOutcomes, cred: Credentials, k: nat): seq<Event>
    decreases JoinAttempts + 1 - k
  {
    if k > JoinAttempts then []
    else if c.join(k) == WWD_SUCCESS then [JoinCall(k, cred)]
    else [JoinCall(k, cred), Sleep(JoinRetrySeconds)] + JoinTrace(c, cred, k + 1)
  }

  /** The Wi-Fi link is up after the readiness check and the join loop. */
  predicate Connected(c: ConnectOutcomes)
  {
    c.ready == WWD_SUCCESS || FirstJoin(c, 1).Some?
  }

  /** The calls that reset the link before joining. */
  const HaltAndLeave: seq<Event> := [JoinHalt(true), Leave, JoinHalt(false)]

  /** The link part of wwd_network_connect: nothing when the interface is ready,
      otherwise the reset and the join loop. */
  function LinkTrace(c: ConnectOutcomes, cred: Credentials): seq<Event>
  {
    if c.ready == WWD_SUCCESS then [] else HaltAndLeave + JoinTrace(c, cred, 1)
  }

  /** The join loop of wwd_network_connect: up to five attempts, each joining with
      the stashed credentials, stopping at the first success and sleeping 5 s
      after each failure. */
  method JoinNetwork(c: ConnectOutcomes, cred: Credentials) returns (joinResult: U32, calls: seq<Event>)
    ensures joinResult == WWD_SUCCESS <==> FirstJoin(c, 1).Some?
    ensures calls == JoinTrace(c, cred, 1)
  {
    ghost var first, all := FirstJoin(c, 1), JoinTrace(c, cred, 1);
    calls := [];
    joinResult := NX_NOT_SUCCESSFUL;  // overwritten by the first attempt
    var attempt: nat := 1;
    while attempt <= JoinAttempts
      invariant 1 <= attempt <= JoinAttempts + 1
      invariant joinResult != WWD_SUCCESS
      invariant first == FirstJoin(c, attempt)
      invariant calls + JoinTrace(c, cred, attempt) == all
      decreases JoinAttempts + 1 - attempt
    {
      calls := calls + [JoinCall(attempt, cred)];
      joinResult := c.join(attempt);
      if joinResult == WWD_SUCCESS {
        break;
      }
      calls := calls + [Sleep(JoinRetrySeconds)];
      attempt := attempt + 1;
    }
  }

  // ---------------------------------------------------------------------------
  // DHCP and DNS
  // ---------------------------------------------------------------------------

  /** The calls of the lease loop from check k on (k <= LeaseChecks) and, once all
      three failed (k == LeaseChecks + 1), the static fallback. */
  function LeaseTrace(c: ConnectOutcomes, k: nat): seq<Event>
    requires 1 <= k <= LeaseChecks + 1
    decreases LeaseChecks + 1 - k
  {
    if k > LeaseChecks then [InterfaceAddressSet(StaticAddress, StaticMask), GatewaySet(StaticGateway)]
    else if c.leaseCheck(k) == NX_SUCCESS then [LeaseCheck(k, LeaseWaitSeconds)]
    else [LeaseCheck(k, LeaseWaitSeconds)] + LeaseTrace(c, k + 1)
  }

  /** The calls dhcp_connect makes. */
  function DhcpTrace(c: ConnectOutcomes): seq<Event>
  {
    [DhcpStartCall] + if c.dhcpStart != NX_SUCCESS then [] else LeaseTrace(c, 1)
  }

  /** dhcp_connect: start the DHCP client, wait up to three times for an address,
      and fall back to the static configuration when none came. */
  method DhcpConnect(c: ConnectOutcomes) returns (status: U32, calls: seq<Event>)
    ensures status == NX_SUCCESS <==> c.dhcpStart == NX_SUCCESS
    ensures status != NX_SUCCESS ==> status == c.dhcpStart
    ensures calls == DhcpTrace(c)
  {
    calls := [DhcpStartCall];
    status := c.dhcpStart;
    if status != NX_SUCCESS {
      return;
    }

    var retries: int := LeaseChecks;
    while retries != 0
      invariant 0 <= retries <= LeaseChecks
      invariant calls + LeaseTrace(c, LeaseChecks + 1 - retries) == DhcpTrace(c)
      decreases retries
    {
      retries := retries - 1;
      var attempt := LeaseChecks - retries;
      calls := calls + [LeaseCheck(attempt, LeaseWaitSeconds)];
      status := c.leaseCheck(attempt);
      if status == NX_SUCCESS {
        return;
      }
    }

    calls := calls + [InterfaceAddressSet(StaticAddress, StaticMask), GatewaySet(StaticGateway)];
    status := NX_SUCCESS;
  }

  /** dns_connect: register 8.8.8.8 and return the registration's status. */
  method DnsConnect(c: ConnectOutcomes) returns (status: U32, calls: seq<Event>)
    ensures status == c.dnsAdd
    ensures calls == [DnsServerAdd(PublicDns)]
  {
    calls := [DnsServerAdd(PublicDns)];
    status := c.dnsAdd;
    if status != NX_SUCCESS {
      return;
    }
    return NX_SUCCESS, calls;
  }

  // ---------------------------------------------------------------------------
  // wwd_network_connect as a whole
  // ---------------------------------------------------------------------------

  /** The calls after the link is up: DHCP, DNS and SNTP, once each, in that order. */
  function ServiceTrace(c: ConnectOutcomes): seq<Event>
  {
    DhcpTrace(c) + [DnsServerAdd(PublicDns), SntpSync]
  }

  /** The calls wwd_network_connect makes. */
  function ConnectTrace(c: ConnectOutcomes, cred: Credentials): seq<Event>
  {
    LinkTrace(c, cred) + if Connected(c) then ServiceTrace(c) else []
  }

  /** The status wwd_network_connect returns. */
  function ConnectStatus(c: ConnectOutcomes): U32
  {
    if Connected(c) then c.sntpSync else NX_NOT_SUCCESSFUL
  }

  /** The body of wwd_network_connect, given the credentials it reads from the
      module state: when the interface is not ready, reset the link and run the
      join loop, giving up with NX_NOT_SUCCESSFUL when no attempt succeeded; then
      run DHCP, DNS and SNTP, overwriting the status each time, so the status of
      the sync is returned. */
  method NetworkConnect(c: ConnectOutcomes, cred: Credentials) returns (status: U32, calls: seq<Event>)
    ensures status == ConnectStatus(c)
    ensures calls == ConnectTrace(c, cred)
  {
    calls := [];
    if c.ready != WWD_SUCCESS {
      var joinResult, joinCalls := JoinNetwork(c, cred);
      calls := HaltAndLeave + joinCalls;
      if joinResult != WWD_SUCCESS {
        return NX_NOT_SUCCESSFUL, calls;
      }
    }

    var dhcpCalls, dnsCalls;
    status, dhcpCalls := DhcpConnect(c);
    status, dnsCalls := DnsConnect(c);
    status := c.sntpSync;
    calls := calls + dhcpCalls + dnsCalls + [SntpSync];
  }

  // ---------------------------------------------------------------------------
  // Properties of the join loop
  // ---------------------------------------------------------------------------

  /** FirstJoin finds the earliest successful attempt, and finds none only when
      every remaining attempt fails. */
  lemma {:induction false} FirstJoinIsFirst(c: ConnectOutcomes, k: nat)
    ensures FirstJoin(c, k).Some? ==>
      var j := FirstJoin(c, k).value;
      k <= j <= JoinAttempts && c.join(j) == WWD_SUCCESS &&
      forall i :: k <= i < j ==> c.join(i) != WWD_SUCCESS
    ensures FirstJoin(c, k).None? <==> forall i :: k <= i <= JoinAttempts ==> c.join(i) != WWD_SUCCESS
    decreases JoinAttempts + 1 - k
  {
    if k <= JoinAttempts && c.join(k) != WWD_SUCCESS {
      FirstJoinIsFirst(c, k + 1);
    }
  }

  /** The join loop from attempt k on only joins, with the stashed credentials and
      attempt numbers between k and 5, and sleeps 5 s. */
  lemma {:induction false} JoinTraceCalls(c: ConnectOutcomes, cred: Credentials, k: nat)
    ensures forall e :: e in JoinTrace(c, cred, k) ==>
      e == Sleep(JoinRetrySeconds) || (e.Join? && k <= e.attempt <= JoinAttempts && e == JoinCall(e.attempt, cred))
    decreases JoinAttempts + 1 - k
  {
    if k <= JoinAttempts && c.join(k) != WWD_SUCCESS {
      JoinTraceCalls(c, cred, k + 1);
    }
  }

  /** Dropping the first two calls keeps the parity of an index and lowers its
      half by one. */
  lemma HalfShift(i: int)
    requires i >= 2
    ensures (i - 2) % 2 == i % 2 && (i - 2) / 2 == i / 2 - 1
  {
  }

  /** The join loop alternates a join and a 5 s sleep, numbering the attempts
      from k; it stops right after the first successful join and otherwise makes
      every remaining attempt, sleeping after the last failed one too. */
  lemma {:induction false} JoinTraceAlternates(c: ConnectOutcomes, cred: Credentials, k: nat)
    requires 1 <= k <= JoinAttempts + 1
    ensures var t := JoinTrace(c, cred, k);
      forall i :: 0 <= i < |t| ==>
        t[i] == if i % 2 == 0 then JoinCall(k + i / 2, cred) else Sleep(JoinRetrySeconds)
    decreases JoinAttempts + 1 - k
  {
    if k <= JoinAttempts && c.join(k) != WWD_SUCCESS {
      JoinTraceAlternates(c, cred, k + 1);
      JoinTraceLength(c, cred, k + 1);
      var rest := JoinTrace(c, cred, k + 1);
      var t := JoinTrace(c, cred, k);
      assert t == [JoinCall(k, cred), Sleep(JoinRetrySeconds)] + rest;
      forall i | 2 <= i < |t|
        ensures t[i] == if i % 2 == 0 then JoinCall(k + i / 2, cred) else Sleep(JoinRetrySeconds)
      {
        assert t[i] == rest[i - 2];
        HalfShift(i);
      }
    }
  }

  /** The join loop makes one call per attempt up to the first successful one,
      and two (the join and the sleep) for each failed attempt. */
  lemma {:induction false} JoinTraceLength(c: ConnectOutcomes, cred: Credentials, k: nat)
    requires k <= JoinAttempts + 1
    ensures FirstJoin(c, k).None? ==> |JoinTrace(c, cred, k)| == 2 * (JoinAttempts + 1 - k)
    ensures FirstJoin(c, k).Some? ==> |JoinTrace(c, cred, k)| == 2 * (FirstJoin(c, k).value - k) + 1
    decreases JoinAttempts + 1 - k
  {
    if k <= JoinAttempts && c.join(k) != WWD_SUCCESS {
      JoinTraceLength(c, cred, k + 1);
    }
  }

  /** The join loop ends on a join exactly when some attempt succeeded, and that
      join is the first successful attempt; when all five fail it ends on a
      sleep. */
  lemma JoinLoopEndsOnSuccess(c: ConnectOutcomes, cred: Credentials)
    ensures JoinTrace(c, cred, 1) != []
    ensures FirstJoin(c, 1).Some? ==>
      JoinTrace(c, cred, 1)[|JoinTrace(c, cred, 1)| - 1] == JoinCall(FirstJoin(c, 1).value, cred)
    ensures FirstJoin(c, 1).None? ==>
      JoinTrace(c, cred, 1)[|JoinTrace(c, cred, 1)| - 1] == Sleep(JoinRetrySeconds)
  {
    JoinTraceAlternates(c, cred, 1);
    JoinTraceLength(c, cred, 1);
    var t := JoinTrace(c, cred, 1);
    if FirstJoin(c, 1).None? {
      assert (|t| - 1) % 2 == 1;
    } else {
      assert (|t| - 1) % 2 == 0;
    }
  }

  // ---------------------------------------------------------------------------
  // Properties of dhcp_connect
  // ---------------------------------------------------------------------------

  /** The lease checks of the loop from check k on are numbered from k, one after
      the other, none beyond the third, each waiting 60 s. */
  lemma {:induction false} LeaseTraceNumbers(c: ConnectOutcomes, k: nat)
    requires 1 <= k <= LeaseChecks + 1
    ensures var t := LeaseTrace(c, k);
      forall i :: 0 <= i < |t| && t[i].LeaseCheck? ==>
        t[i] == LeaseCheck(k + i, LeaseWaitSeconds) && k + i <= LeaseChecks
    decreases LeaseChecks + 1 - k
  {
    if k <= LeaseChecks && c.leaseCheck(k) != NX_SUCCESS {
      LeaseTraceNumbers(c, k + 1);
      var t, rest := LeaseTrace(c, k), LeaseTrace(c, k + 1);
      forall i | 1 <= i < |t| && t[i].LeaseCheck?
        ensures t[i] == LeaseCheck(k + i, LeaseWaitSeconds) && k + i <= LeaseChecks
      {
        assert t[i] == rest[i - 1];
      }
    }
  }

  /** The loop from check k on only checks for a lease and sets the static
      configuration, and it falls back to that configuration exactly when every
      remaining check fails. */
  lemma {:induction false} LeaseTraceFallback(c: ConnectOutcomes, k: nat)
    requires 1 <= k <= LeaseChecks + 1
    ensures InterfaceAddressSet(StaticAddress, StaticMask) in LeaseTrace(c, k) <==>
      forall i :: k <= i <= LeaseChecks ==> c.leaseCheck(i) != NX_SUCCESS
    ensures forall e :: e in LeaseTrace(c, k) ==> e.LeaseCheck? || e.InterfaceAddressSet? || e.GatewaySet?
    decreases LeaseChecks + 1 - k
  {
    if k <= LeaseChecks {
      if c.leaseCheck(k) != NX_SUCCESS {
        LeaseTraceFallback(c, k + 1);
      } else {
        assert InterfaceAddressSet(StaticAddress, StaticMask) !in LeaseTrace(c, k);
      }
    }
  }

  /** dhcp_connect checks for a lease at most three times, waiting 60 s each time,
      and assigns the static configuration exactly when the client started and all
      three checks failed. */
  lemma StaticFallbackIffNoLease(c: ConnectOutcomes)
    ensures forall i :: 0 <= i < |DhcpTrace(c)| && DhcpTrace(c)[i].LeaseCheck? ==>
      DhcpTrace(c)[i] == LeaseCheck(i, LeaseWaitSeconds) && i <= LeaseChecks
    ensures InterfaceAddressSet(StaticAddress, StaticMask) in DhcpTrace(c) <==>
      c.dhcpStart == NX_SUCCESS && forall i :: 1 <= i <= LeaseChecks ==> c.leaseCheck(i) != NX_SUCCESS
  {
    LeaseTraceNumbers(c, 1);
    LeaseTraceFallback(c, 1);
    var t := DhcpTrace(c);
    if c.dhcpStart == NX_SUCCESS {
      forall i | 1 <= i < |t| && t[i].LeaseCheck?
        ensures t[i] == LeaseCheck(i, LeaseWaitSeconds) && i <= LeaseChecks
      {
        assert t[i] == LeaseTrace(c, 1)[i - 1];
      }
    }
  }

  // ---------------------------------------------------------------------------
  // Properties of wwd_network_connect
  // ---------------------------------------------------------------------------

  /** wwd_network_connect succeeds exactly when the link was up or one of the five
      join attempts succeeded, and the SNTP sync succeeded: a failed DHCP start or
      DNS registration is reported on the console only and never changes the
      result. */
  lemma ConnectSucceedsIff(c: ConnectOutcomes)
    ensures ConnectStatus(c) == NX_SUCCESS <==>
      (c.ready == WWD_SUCCESS || exists i :: 1 <= i <= JoinAttempts && c.join(i) == WWD_SUCCESS) &&
      c.sntpSync == NX_SUCCESS
  {
    FirstJoinIsFirst(c, 1);
  }

  /** The link part of connecting only resets the link and joins: it holds the
      reset exactly when the interface was not ready. */
  lemma LinkTraceOnlyJoins(c: ConnectOutcomes, cred: Credentials)
    ensures forall e :: e in LinkTrace(c, cred) ==> e.JoinHalt? || e.Leave? || e.Join? || e.Sleep?
    ensures Leave in LinkTrace(c, cred) <==> c.ready != WWD_SUCCESS
  {
    JoinTraceCalls(c, cred, 1);
    if c.ready != WWD_SUCCESS {
      assert LinkTrace(c, cred)[1] == Leave;
    }
  }

  /** dhcp_connect starts the client exactly once and otherwise only checks for a
      lease and sets the static configuration. */
  lemma DhcpTraceStartsOnce(c: ConnectOutcomes)
    ensures DhcpTrace(c)[0] == DhcpStartCall
    ensures forall e :: e in DhcpTrace(c)[1..] ==> e.LeaseCheck? || e.InterfaceAddressSet? || e.GatewaySet?
    ensures forall e :: e in DhcpTrace(c) ==>
      e == DhcpStartCall || e.LeaseCheck? || e.InterfaceAddressSet? || e.GatewaySet?
  {
    LeaseTraceFallback(c, 1);
    assert DhcpTrace(c)[1..] == if c.dhcpStart != NX_SUCCESS then [] else LeaseTrace(c, 1);
  }

  /** Connecting resets the link only when the interface is not ready, and never
      creates or releases anything the bring-up owns. */
  lemma ConnectLeavesBringupAlone(c: ConnectOutcomes, cred: Credentials)
    ensures Leave in ConnectTrace(c, cred) <==> c.ready != WWD_SUCCESS
    ensures forall e :: e in ConnectTrace(c, cred) ==> !e.Attempt? && !e.Release? && !e.TlsInitialize?
  {
    LinkTraceOnlyJoins(c, cred);
    DhcpTraceStartsOnce(c);
    var link: seq<Event>, services: seq<Event> := LinkTrace(c, cred), if Connected(c) then ServiceTrace(c) else [];
    assert ConnectTrace(c, cred) == link + services;
    forall e: Event | e in link + services
      ensures !e.Attempt? && !e.Release? && !e.TlsInitialize?
    {
      if e !in link && Connected(c) {
        assert e in DhcpTrace(c) || e in [DnsServerAdd(PublicDns), SntpSync];
      }
    }
  }

  /** Once the link is up, the client is started first, 8.8.8.8 is registered
      next to last and the time is synced last, each exactly once. */
  lemma ServiceTraceOrder(c: ConnectOutcomes)
    ensures var s := ServiceTrace(c);
      forall i :: 0 <= i < |s| ==>
        (s[i] == DhcpStartCall <==> i == 0) &&
        (s[i].DnsServerAdd? <==> i == |s| - 2) &&
        (s[i] == SntpSync <==> i == |s| - 1)
    ensures var s := ServiceTrace(c); s[|s| - 2] == DnsServerAdd(PublicDns)
  {
    DhcpTraceStartsOnce(c);
    var dhcp := DhcpTrace(c);
    var s := ServiceTrace(c);
    forall i | 0 <= i < |s|
      ensures (s[i] == DhcpStartCall <==> i == 0) && (s[i].DnsServerAdd? <==> i == |s| - 2) &&
              (s[i] == SntpSync <==> i == |s| - 1)
    {
      if 0 < i < |dhcp| {
        assert s[i] == dhcp[1..][i - 1];
      }
    }
  }

  /** A call that the prefix never makes and the rest makes only at index k is
      made in the whole trace only at index |prefix| + k. */
  lemma OnlyAtAfterPrefix(prefix: seq<Event>, rest: seq<Event>, x: Event, k: nat)
    requires x !in prefix
    requires forall i :: 0 <= i < |rest| ==> (rest[i] == x <==> i == k)
    ensures forall i :: 0 <= i < |prefix + rest| ==> ((prefix + rest)[i] == x <==> i == |prefix| + k)
  {
    forall i | 0 <= i < |prefix + rest|
      ensures (prefix + rest)[i] == x <==> i == |prefix| + k
    {
      if i < |prefix| {
        assert (prefix + rest)[i] in prefix;
      } else {
        assert (prefix + rest)[i] == rest[i - |prefix|];
      }
    }
  }

  /** DHCP runs only once the link is up, and then starts the client exactly
      once, right after the link calls. */
  lemma DhcpOnlyOnLink(c: ConnectOutcomes, cred: Credentials)
    ensures var t := ConnectTrace(c, cred);
      forall i :: 0 <= i < |t| ==> (t[i] == DhcpStartCall <==> Connected(c) && i == |LinkTrace(c, cred)|)
  {
    LinkTraceOnlyJoins(c, cred);
    ServiceTraceOrder(c);
    if Connected(c) {
      OnlyAtAfterPrefix(LinkTrace(c, cred), ServiceTrace(c), DhcpStartCall, 0);
    } else {
      assert DhcpStartCall !in ConnectTrace(c, cred);
    }
  }

  /** The SNTP sync runs only once the link is up, and then exactly once, as the
      last call. */
  lemma SyncOnlyOnLinkAndLast(c: ConnectOutcomes, cred: Credentials)
    ensures var t := ConnectTrace(c, cred);
      forall i :: 0 <= i < |t| ==> (t[i] == SntpSync <==> Connected(c) && i == |t| - 1)
  {
    LinkTraceOnlyJoins(c, cred);
    ServiceTraceOrder(c);
    if Connected(c) {
      OnlyAtAfterPrefix(LinkTrace(c, cred), ServiceTrace(c), SntpSync, |ServiceTrace(c)| - 1);
    } else {
      assert SntpSync !in ConnectTrace(c, cred);
    }
  }

  /** The only DNS server connecting registers is 8.8.8.8. */
  lemma OnlyPublicDnsServer(c: ConnectOutcomes, cred: Credentials)
    ensures forall e :: e in ConnectTrace(c, cred) && e.DnsServerAdd? ==> e.server == PublicDns
  {
    var link := LinkTrace(c, cred);
    LinkTraceOnlyJoins(c, cred);
    if Connected(c) {
      var services := ServiceTrace(c);
      ServiceTraceOrder(c);
      forall e: Event | e in link + services && e.DnsServerAdd?
        ensures e.server == PublicDns
      {
        assert e !in link;
        var i :| 0 <= i < |services| && services[i] == e;
      }
    }
  }
}
