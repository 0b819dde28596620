# MXChip AZ3166 networking and MQTT client, modelled in Dafny

This project models the device-side control logic of an MXChip AZ3166 board running
Eclipse ThreadX with NetX Duo, and proves properties of that model. It covers two
pieces.

- **Network bring-up and connect** (`wwd_networking.c`):
  - `wwd_network_init` stashes the Wi-Fi credentials and maps the configured security mode to a radio security constant.
  - It then runs a fixed chain of twelve acquisition stages: TX pool, RX pool, `wifi_init`, IP instance, ARP, TCP, UDP, ICMP, DHCP create, DHCP start, DNS create and SNTP init. On failure it runs the hand-written cleanup of the failing stage.
  - `wwd_network_connect` resets the link and tries to join up to five times, sleeping 5 s after each failure.
  - It then runs `dhcp_connect`: at most three lease checks of 60 s, then a static 192.168.1.150/24 fallback with gateway 192.168.1.1.
  - It then runs `dns_connect`, which registers 8.8.8.8, and the SNTP sync, and returns the sync's status.
  - `print_address` splits a 32-bit address into dotted-quad octets.
- **MQTT session wrapper** (`mqtt_client.c`):
  - `mqtt_connect` creates the client and then connects to 18.134.118.11:1883.
  - `mqtt_publish` makes one QoS 0 publish.
  - `mqtt_subscribe` returns NULL on failure. On success it returns the one static 256-byte mailbox.
  - `mqtt_callback` copies each message into that mailbox in place and NUL-terminates it.

Every call into NetX, WICED, SNTP, TLS and the MQTT library is foreign code.
- Its status is an input of the model: `InitOutcomes`, `ConnectOutcomes`, a `U32` argument, or a `Delivery`.
- The model records the call in a trace: `Bringup.Event`, `Bringup.RadioCall` or `MqttClient.MqttCall`. Order, number and arguments of calls can therefore be stated and proved.
- Sleeps and the 60 s DHCP waits are recorded as events carrying their duration. No time passes.

Files:
- `status.dfy`: the `U32` type, the status constants and `Option`.
- `address.dfy`: `IP_ADDRESS` and `print_address` on `bv32`.
- `cstrings.dfy`: `strlen` and the text a NUL-terminated buffer holds.
- `bringup.dfy`: `wwd_network_init` and `wifi_init`.
- `connect.dfy`: `wwd_network_connect`, `dhcp_connect` and `dns_connect`.
- `networking.dfy`: the module state of `wwd_networking.c`, as class `NetX`.
- `mqtt.dfy`: `mqtt_client.c`, as class `Session`.

How the model is structured:
- `wwd_network_init` is one C function built as an else-if chain. Its model `NetX.Init` runs the chain in six phase methods of `Bringup` (`CreatePools` … `StartServices`). Each phase returns at the first failing stage, after running that stage's cleanup.
- `NetX.Connect` delegates the body of `wwd_network_connect` to `Connecting.NetworkConnect`. The join loop of that body is `Connecting.JoinNetwork`.
- The Init phases, `NetworkConnect` and `JoinNetwork` work on values. Their results are stored in the object's fields in one place.

The SSID and password are modelled as the character buffers the stashed pointers designate. Each operation reads them as C does: `wifi_init` tests the first byte, and `wwd_wifi_join` is handed the text up to the first NUL.

Where the code and the design notes of the repository disagree, the model follows the code:
- The cleanup is not a strict reverse-order unwind. From the `wifi_init` stage on, the two packet pools are deleted last and in creation order, `nx_pool[0]` then `nx_pool[1]`. A failed RX pool creation deletes only `nx_pool[0]`.
- `wwd_network_init` has no guard against being called twice. A second call starts again from the first stage, on top of whatever is live.
- No `BufferOverflow` error is reported anywhere. `mqtt_callback` writes its terminators unchecked; see Findings.
- `wifi_init`'s radio calls are not undone when a later stage fails. `NetX.radio` keeps them.

## Model

| member | source | states |
|---|---|---|
| Address.IpAddress | MXChip/AZ3166/app/wwd_networking.c:152-153 | `IP_ADDRESS(a, b, c, d)` puts `a` in bits 31-24 and `d` in bits 7-0 |
| Address.PrintedOctetsRoundTrip | MXChip/AZ3166/app/wwd_networking.c:58-66 | reassembling the four octets `print_address` prints gives back the 32-bit address |
| Address.IpAddressPrintsItsOctets | MXChip/AZ3166/app/wwd_networking.c:60-65 | `print_address` of `IP_ADDRESS(a, b, c, d)` prints a, b, c, d, most significant first |
| CStrings.StrLen | MXChip/AZ3166/app/mqtt_client.c:62-63 | `strlen` counts the characters before the first NUL, all of which are non-NUL |
| CStrings.TextOfTerminated | MXChip/AZ3166/app/mqtt_client.c:88-89 | a NUL-free text followed by a NUL reads back as that text, whatever follows |
| CStrings.TextEmptyIffLeadingNul | MXChip/AZ3166/app/examples/subscriber_mxchip.c:48 | a buffer reads as the empty string exactly when its first character is NUL |
| Bringup.SecurityForInjective | MXChip/AZ3166/app/wwd_networking.c:187-201 | the four modes map to four distinct radio security constants |
| Bringup.NextAndPrevFollowInitStages | MXChip/AZ3166/app/wwd_networking.c:206-338 | the successor and predecessor of a stage are its neighbours in the fixed chain order |
| Bringup.RadioCalls | MXChip/AZ3166/app/wwd_networking.c:75-93 | `wifi_init` touches the radio only when the SSID's text is non-empty (its first byte is not NUL); it calls buffer init, then wifi on only if buffer init succeeded |
| Bringup.WifiInitStatus | MXChip/AZ3166/app/wwd_networking.c:75-106 | `wifi_init` succeeds exactly when the SSID's text is non-empty and both radio calls succeed, and otherwise returns NX_NOT_SUCCESSFUL |
| Bringup.WifiInit | MXChip/AZ3166/app/wwd_networking.c:69-107 | the early-return body computes that status and makes exactly those radio calls |
| Bringup.CreatePools | MXChip/AZ3166/app/wwd_networking.c:207-219 | creates TX then RX pool; if the RX pool fails, the TX pool is deleted; succeeds exactly when both pools are created |
| Bringup.StartWifi | MXChip/AZ3166/app/wwd_networking.c:221-227 | runs `wifi_init`; on failure it deletes both pools, leaves the radio calls in place, and returns the status |
| Bringup.CreateIp | MXChip/AZ3166/app/wwd_networking.c:229-252 | IP instance and ARP stages; each failure releases exactly what was created before it |
| Bringup.EnableTransports | MXChip/AZ3166/app/wwd_networking.c:254-279 | TCP, UDP and ICMP stages, with the same cleanup of IP instance and pools on failure |
| Bringup.StartDhcp | MXChip/AZ3166/app/wwd_networking.c:281-298 | DHCP create and start stages; a failed start also deletes the DHCP client |
| Bringup.StartServices | MXChip/AZ3166/app/wwd_networking.c:300-338 | DNS create and SNTP init stages, then TLS initialisation once every stage has passed |
| Bringup.FirstFailureIsFirst | MXChip/AZ3166/app/wwd_networking.c:207-338 | the stage where the chain stops is the first failing one: every earlier stage passed |
| Bringup.AttemptsFollowChainOrder | MXChip/AZ3166/app/wwd_networking.c:207-338 | up to stage s, the chain attempts exactly the stages before and including s, one each, in the fixed order |
| Bringup.InitSucceedsIffAllStagesSucceed | MXChip/AZ3166/app/wwd_networking.c:207-340 | init returns success exactly when all twelve stages succeed; otherwise it returns the failing stage's status |
| Bringup.TlsOnlyAfterFullSuccess | MXChip/AZ3166/app/wwd_networking.c:334-340 | TLS is initialised exactly when init succeeds; a failing stage is always attempted |
| Bringup.CreatesOnlyItsOwn | MXChip/AZ3166/app/wwd_networking.c:206-308 | each live object is created by exactly one stage |
| Bringup.HoldingIsAcquiredBefore | MXChip/AZ3166/app/wwd_networking.c:206-332 | the objects live when a stage runs are exactly those created by earlier stages |
| Bringup.CleanupFreesWhatWasAcquired | MXChip/AZ3166/app/wwd_networking.c:214-332 | each stage's cleanup deletes exactly the objects created before it: no leak and no stray delete |
| Bringup.CleanupReleasesOnce | MXChip/AZ3166/app/wwd_networking.c:214-332 | no cleanup deletes an object twice |
| Bringup.CleanupEndsWithPools | MXChip/AZ3166/app/wwd_networking.c:224-225 | from `wifi_init` on, every cleanup ends by deleting `nx_pool[0]` and then `nx_pool[1]`, in creation order |
| Bringup.CleanupUnwindsObjects | MXChip/AZ3166/app/wwd_networking.c:246-332 | before the pools, a cleanup deletes DNS, DHCP and IP objects in reverse creation order |
| Bringup.InitLeavesNothingBehind | MXChip/AZ3166/app/wwd_networking.c:214-332 | after a failed init nothing the chain created is live; after success all five objects are |
| Networking.NetX.constructor | MXChip/AZ3166/app/wwd_networking.c:48-56 | at boot nothing is stashed, live or called |
| Networking.NetX.Init | MXChip/AZ3166/app/wwd_networking.c:179-341 | stashes ssid, password and the mapped mode unchanged; status, calls and live objects are those of the first failing stage, or of full success with TLS |
| Connecting.JoinNetwork | MXChip/AZ3166/app/wwd_networking.c:363-382 | the join loop makes the calls of the join trace; its last result is success exactly when some attempt succeeded |
| Connecting.DhcpConnect | MXChip/AZ3166/app/wwd_networking.c:109-159 | `dhcp_connect` fails only with a failing start's status; otherwise it succeeds, after the lease-check trace |
| Connecting.DnsConnect | MXChip/AZ3166/app/wwd_networking.c:162-177 | `dns_connect` makes one registration, of 8.8.8.8, and returns its status |
| Connecting.NetworkConnect | MXChip/AZ3166/app/wwd_networking.c:343-414 | returns NX_NOT_SUCCESSFUL if the join fails, and otherwise the SNTP sync's status; makes exactly the connect trace |
| Networking.NetX.Connect | MXChip/AZ3166/app/wwd_networking.c:343-414 | joins with the credentials stashed by init and appends the connect trace to the object's calls |
| Connecting.FirstJoinIsFirst | MXChip/AZ3166/app/wwd_networking.c:364-378 | the join loop stops at the first successful attempt; it finds none only when all five fail |
| Connecting.JoinTraceCalls | MXChip/AZ3166/app/wwd_networking.c:364-382 | the loop only joins and sleeps 5 s; every join uses attempt numbers 1 to 5, the stashed mode, and the texts (`strlen` bytes) of the stashed SSID and password |
| Connecting.JoinTraceAlternates | MXChip/AZ3166/app/wwd_networking.c:364-382 | joins and 5 s sleeps alternate, and the attempts are numbered consecutively |
| Connecting.JoinTraceLength | MXChip/AZ3166/app/wwd_networking.c:364-382 | there is one join per attempt up to the first success and one sleep per failure, including the fifth: 10 calls when all fail |
| Connecting.JoinLoopEndsOnSuccess | MXChip/AZ3166/app/wwd_networking.c:373-389 | the loop ends on the successful join when there is one, and on a sleep when all five fail |
| Connecting.LeaseTraceNumbers | MXChip/AZ3166/app/wwd_networking.c:128-148 | lease checks are numbered consecutively, each waits 60 s, and there are at most three |
| Connecting.LeaseTraceFallback | MXChip/AZ3166/app/wwd_networking.c:128-155 | the static address is set exactly when every remaining lease check fails |
| Connecting.StaticFallbackIffNoLease | MXChip/AZ3166/app/wwd_networking.c:119-158 | `dhcp_connect` falls back to 192.168.1.150/24 exactly when the start succeeded and all three checks failed; it makes at most three checks |
| Connecting.ConnectSucceedsIff | MXChip/AZ3166/app/wwd_networking.c:351-413 | connect succeeds exactly when the link was ready or some join succeeded, and the SNTP sync succeeded; DHCP and DNS results never matter |
| Connecting.LinkTraceOnlyJoins | MXChip/AZ3166/app/wwd_networking.c:351-390 | the link phase only halts, leaves, joins and sleeps; it resets the link exactly when the interface is not ready |
| Connecting.DhcpTraceStartsOnce | MXChip/AZ3166/app/wwd_networking.c:109-159 | `dhcp_connect` calls `nx_dhcp_start` once, first, and otherwise only checks leases and sets the static configuration |
| Connecting.ConnectLeavesBringupAlone | MXChip/AZ3166/app/wwd_networking.c:351-413 | connect resets the link only when it is not ready, and never creates or deletes a bring-up object, even after five failed joins |
| Connecting.ServiceTraceOrder | MXChip/AZ3166/app/wwd_networking.c:392-413 | after the link is up, DHCP start comes first, the registration of 8.8.8.8 next to last and the SNTP sync last, each once |
| Connecting.DhcpOnlyOnLink | MXChip/AZ3166/app/wwd_networking.c:384-393 | `nx_dhcp_start` is called exactly once, right after the link calls, and only when the link is up |
| Connecting.SyncOnlyOnLinkAndLast | MXChip/AZ3166/app/wwd_networking.c:384-413 | the SNTP sync runs exactly once, as the last call, and only when the link is up |
| Connecting.OnlyPublicDnsServer | MXChip/AZ3166/app/wwd_networking.c:168-177 | the only DNS server ever registered is 8.8.8.8 |
| MqttClient.ConnectCalls | MXChip/AZ3166/app/mqtt_client.c:30-53 | `mqtt_connect` creates the client first and connects to 18.134.118.11:1883 (keep-alive 60, clean session) only when creation succeeded |
| MqttClient.PublishCall | MXChip/AZ3166/app/mqtt_client.c:61-64 | the sent topic and message are the prefixes of the given buffers that end at their first NUL (what `strlen` measures), with those lengths, retain false and QoS 0 |
| MqttClient.Session.constructor | MXChip/AZ3166/app/mqtt_client.c:9-11 | at boot no call is made, no callback is installed, and the 256-byte mailbox is zero-filled |
| MqttClient.Session.Connect | MXChip/AZ3166/app/mqtt_client.c:20-56 | appends exactly the create and connect calls above |
| MqttClient.Session.Publish | MXChip/AZ3166/app/mqtt_client.c:59-74 | appends exactly one publish, whatever its status; there is no retry |
| MqttClient.Session.Subscribe | MXChip/AZ3166/app/mqtt_client.c:95-111 | returns NULL on failure with no callback installed; on success it installs the callback and returns the shared mailbox; it never touches the mailbox |
| MqttClient.Session.Callback | MXChip/AZ3166/app/mqtt_client.c:78-92 | copies the message in place and terminates it at its length; it reports an overrun exactly when a length reaches its buffer's size |
| MqttClient.Session.CallbackWithRoom | MXChip/AZ3166/app/mqtt_client.c:84-89 | the corrected callback: with capacities one less, no terminator falls outside its buffer, and the mailbox is terminated in place and reads as the message |
| MqttClient.DeliveredReadsAsMessage | MXChip/AZ3166/app/mqtt_client.c:85-89 | a delivered NUL-free message shorter than the mailbox reads back as exactly that message |
| MqttClient.LastWriteWins | MXChip/AZ3166/app/mqtt_client.c:84-89 | after two deliveries without a read, the mailbox reads as the second message; only bytes of the first past the second's terminator remain |
| MqttClient.ZeroedMailboxReadsEmpty | MXChip/AZ3166/app/mqtt_client.c:11 | before any delivery the zero-filled mailbox reads as the empty string |
| MqttClient.FullMessageOverruns | MXChip/AZ3166/app/mqtt_client.c:84-89 | a 256-byte payload fits the capacity the callback passes, yet its terminator falls outside the mailbox |
| MqttClient.RoomForTerminatorNeverOverruns | MXChip/AZ3166/app/mqtt_client.c:84-89 | with capacities 99 and 255 no delivery can overrun |

## Left out

- `mqtt_init` only prints a line. `printf` logging, the MAC address read and print, and `print_address`'s output channel are not modelled; only the octets it prints are.
- `nx_system_initialize`, the pool, stack and ARP cache sizes, and the other arguments of the NetX create calls are not modelled. They are not decisions of this code.
- The `#ifdef NX_DNS_CLIENT_USER_CREATE_PACKET_POOL` stage is not modelled. The model fixes the configuration without that macro, and the chain is the twelve stages above.
- What the libraries do internally is not modelled. Each call's status is an arbitrary input. This includes `nx_dhcp_start` being called again by `dhcp_connect` after `wwd_network_init` already started the client: what the second start returns is just another input.
- Connect does not record the `wwd_wifi_is_ready_to_transceive` query. Its result is the input `ready`.
- The `nx_ip_address_get` and `nx_ip_gateway_address_get` reads are not modelled. They only feed `print_address`.
- The copy of the SSID into the 32-byte `wiced_ssid` buffer is not modelled. The join event carries the SSID's whole text. An SSID longer than the WICED buffer is outside the model; the buffer's size is part of the WICED SDK, and the WICED SDK is not part of this model.
- The IP mutex around `wwd_wifi_join` is not modelled. Neither is concurrency between the MQTT stack thread that runs `mqtt_callback` and the thread that reads the mailbox; a callback and a read are separate, interleaved calls.
- Real time is not modelled. `tx_thread_sleep` and the 60 s DHCP wait become events carrying their duration. Calls with `NX_WAIT_FOREVER` return some status.
- MqttClient.Session.Connect: does not take the broker-connect status. `mqtt_connect` only prints it and returns nothing.
- MqttClient.Session.Callback: the library's status from `nxd_mqtt_client_message_get` is not modelled. The delivered lengths are assumed to be within the capacities passed (`Fits`). On a real failure the C code reads uninitialised lengths.
- MqttClient.Session.Callback: when a terminator would fall outside its buffer, the model reports the overrun and skips that write. The C code writes out of bounds.
- `main.c` and the two example applications are not modelled, apart from the empty-mailbox test of the subscriber (`ZeroedMailboxReadsEmpty`).

## Findings

| source | as written | input that shows it | evidently intended | confidence | as-written member | corrected member |
|---|---|---|---|---|---|---|
| MXChip/AZ3166/app/mqtt_client.c:84-89 | the callback passes `sizeof(topic_buffer)` (100) and `sizeof(received_message)` (256) as capacities to `nxd_mqtt_client_message_get`, then writes `'\0'` at index `topic_length` and `message_length` | a 256-byte payload (or a 100-byte topic): the library may fill the whole buffer, and the terminator lands one past its end | keep one byte for the terminator: pass 99 and 255 | not executed; assumes the library fills a buffer up to the capacity it is given | MqttClient.FullMessageOverruns | MqttClient.Session.CallbackWithRoom |
