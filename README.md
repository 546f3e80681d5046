# A verified model of the Mullvad VPN connected state and its helpers

This project models, in Dafny, the part of the Mullvad VPN client that decides
what happens while the tunnel is up, together with the small pure helpers
around it:

- **The Connected state of the tunnel state machine** (`connected_state.dfy`,
  module `TunnelStateMachine`). Each stimulus is one of:
  - a tunnel command;
  - a tunnel event;
  - the result of the tunnel-close future.

  The handler changes the shared tunnel-state values and calls the firewall,
  the DNS monitor and the route manager in a fixed order. It then either stays
  (`SameState`) or moves to Disconnecting, Error or Connecting.
  - Each handler is specified by a pure function that returns an `Outcome`: the
    new shared values, the collaborator calls in order (`Effect`s, including
    the acknowledgements sent back to the caller) and the consequence.
  - The handlers themselves are methods over the class
    `SharedTunnelStateValues`. That class holds the five shared values and an
    append-only trace of the calls issued. Each method's postcondition ties
    the new fields and the new trace to the specification function.
  - Whether the firewall or the DNS monitor accepted a request is an input of
    each handler.
  - The `select!` race between the three stimuli becomes a `Stimulus` value
    the caller chooses.
  - The Linux build is modelled, so after DNS is reset, routes are cleared and
    then routing rules.
- **WireGuard parameters and keys** (`wireguard.dfy`, `tunnel_types.dfy`):
  - next-hop, entry and exit endpoints;
  - validation of 32-byte keys from base64;
  - key equality and hashing;
  - the serde round trip of keys.

  Base64 is the padded standard alphabet of section 4 of RFC 4648, modelled
  in `base64.dfy` with both round trips proved.
- **The API connector** (`https_client.dfy`, `proxy.dfy`):
  - how an API connection mode becomes the connector's inner mode;
  - which address is dialled first;
  - how a URI is resolved to a socket address;
  - which checks `call` makes;
  - the connector's list of stream handles: pruned by `poll_ready`, emptied
    and closed on every configuration request, grown by a successful call;
  - the proxy endpoint of each connection mode and the decision logic of the
    connection-mode cache.
- **Command-line helpers** (`account_cmd.dfy`, `cli_cmds.dfy`):
  - duration formatting;
  - voucher and standard-input normalisation;
  - case-insensitive device lookup;
  - sorting devices by creation time;
  - account selection;
  - the on/off `BooleanOption`;
  - the yes/no confirmation prompt.
- **The DNS leak test's bookkeeping** (`dns_test.dfy`):
  - the counter that decides when enough DNS packets were captured;
  - the encoding of a subset of content blockers as the expected resolver
    address `100.64.0.b`.

`net.dfy`, `text.dfy` and `wrappers.dfy` hold the shared value types:
- addresses and ports;
- Unicode whitespace, ASCII case folding, trimming and decimal rendering;
- `Option` and `Result`.

External code becomes a function parameter:
- the cipher table of the Shadowsocks library;
- `IpAddr::from_str`;
- the DNS resolver;
- the JSON decoder;
- the result of the final connection attempt.

Fixed-width integers are modelled as bounded subset types (`u16`, `byte`,
`bv8`) where the width matters.

## Model

| member | source | states |
|---|---|---|
| TunnelStateMachine.GetFirewallPolicy | talpid-core/src/tunnel_state_machine/connected_state.rs:106-143 | The policy's peer endpoint is the tunnel's next-hop endpoint. Its allowed clients are `All` exactly when an OpenVPN local proxy is in use, otherwise `Root`. The tunnel metadata and allow-LAN come from the state and the shared values. The DNS servers are the gateways for the default setting, otherwise the custom addresses. |
| TunnelStateMachine.SharedTunnelStateValues.SetAllowLan | talpid-core/src/tunnel_state_machine/connected_state.rs:249-250 | Stores the new allow-LAN value and reports whether it differs from the old one; nothing else changes. |
| TunnelStateMachine.SharedTunnelStateValues.SetDnsConfig | talpid-core/src/tunnel_state_machine/connected_state.rs:280-281 | Stores the new DNS setting and reports whether it differs from the old one; nothing else changes. |
| TunnelStateMachine.SetFirewallPolicy | talpid-core/src/tunnel_state_machine/connected_state.rs:81-104 | Applies the connected policy computed from the current values. Every failure is reported as `Generic`. The shared values are unchanged. |
| TunnelStateMachine.SetDnsServers | talpid-core/src/tunnel_state_machine/connected_state.rs:156-186 | Hands the resolved servers for the tunnel interface to the DNS monitor and reports its answer. |
| TunnelStateMachine.ResetDnsAndRoutes | talpid-core/src/tunnel_state_machine/connected_state.rs:188-224 | Issues the DNS reset, then clears routes, then clears routing rules. Failures are ignored and no shared value changes. |
| TunnelStateMachine.DisconnectState | talpid-core/src/tunnel_state_machine/connected_state.rs:226-239 | Always resets DNS and routes (in that order) and moves to Disconnecting with the given after-disconnect directive unchanged. |
| TunnelStateMachine.EnterSpec | talpid-core/src/tunnel_state_machine/connected_state.rs:38-79 | What `enter` does: the firewall policy is applied first. DNS is set exactly when that succeeds. `enter` never resets DNS, clears routes or acknowledges, and only ever leaves towards Disconnecting with a block cause. |
| TunnelStateMachine.CommandSpec | talpid-core/src/tunnel_state_machine/connected_state.rs:241-342 | What `handle_commands` does: a command leaves the state only towards Disconnecting. A closed channel, `Connect`, `Disconnect` and `Block` change no shared value and always leave. |
| TunnelStateMachine.EventSpec | talpid-core/src/tunnel_state_machine/connected_state.rs:391-404 | What `handle_tunnel_events` does: no shared value changes. Leaving the state always means Disconnecting with `Reconnect(0)`, and staying issues no call. |
| TunnelStateMachine.CloseSpec | talpid-core/src/tunnel_state_machine/connected_state.rs:406-423 | What `handle_tunnel_close_event` does: it resets DNS and clears the routes and routing rules, changes no shared value, and always leaves, to a state other than Disconnecting. |
| TunnelStateMachine.StepSpec | talpid-core/src/tunnel_state_machine/connected_state.rs:427-452 | What `handle_event` does: only a command changes shared values, and it leaves to the error state or Connecting exactly for a tunnel close. |
| TunnelStateMachine.Enter | talpid-core/src/tunnel_state_machine/connected_state.rs:38-79 | The trace grows by exactly the calls `EnterSpec` lists, the shared values are unchanged, and the transition is the one `EnterSpec` gives. |
| TunnelStateMachine.EnterEscalatesFailures | talpid-core/src/tunnel_state_machine/connected_state.rs:60-72 | `enter` applies the firewall first; a firewall failure gives Disconnecting with `Block(SetFirewallPolicyError)` and never sets DNS; a DNS failure gives `Block(SetDnsError)`; no path resets DNS or clears routes. |
| TunnelStateMachine.EnterConnectedIffBothSucceed | talpid-core/src/tunnel_state_machine/connected_state.rs:54-58 | `enter` reports Connected exactly when both firewall and DNS succeed, with the tunnel endpoint whose interface is the metadata's. |
| TunnelStateMachine.HandleCommands | talpid-core/src/tunnel_state_machine/connected_state.rs:241-342 | New shared values, appended calls and consequence are exactly those of `CommandSpec` for the command and the collaborators' answers. |
| TunnelStateMachine.HandleTunnelEvents | talpid-core/src/tunnel_state_machine/connected_state.rs:391-404 | New shared values, appended calls and consequence are exactly those of `EventSpec`. |
| TunnelStateMachine.HandleTunnelCloseEvent | talpid-core/src/tunnel_state_machine/connected_state.rs:406-423 | New shared values, appended calls and consequence are exactly those of `CloseSpec`. |
| TunnelStateMachine.HandleEvent | talpid-core/src/tunnel_state_machine/connected_state.rs:427-452 | Dispatches the stimulus that arrived; the outcome is exactly `StepSpec`'s, with a failed close future treated as a close without a cause. |
| TunnelStateMachine.StepFirewallBeforeDns | talpid-core/src/tunnel_state_machine/connected_state.rs:287-297 | For every stimulus, each DNS-setting call comes after a firewall call. |
| TunnelStateMachine.StepWellShaped | talpid-core/src/tunnel_state_machine/connected_state.rs:241-423 | For every stimulus the outcome is well shaped: the reset calls and the acknowledgements obey the rules of the two lemmas below. |
| TunnelStateMachine.NewStateIffReset | talpid-core/src/tunnel_state_machine/connected_state.rs:226-239 | A handler leaves the Connected state exactly when it resets DNS. It then resets DNS once and clears the routes once, as its last calls before any acknowledgement. |
| TunnelStateMachine.AckSentOnce | talpid-core/src/tunnel_state_machine/connected_state.rs:249-322 | Each acknowledged command (`AllowLan`, `AllowEndpoint`, `Dns`, `BlockWhenDisconnected`) is acknowledged exactly once, as the last call. The one exception is a changed DNS setting whose firewall refresh fails, which sends no acknowledgement. Nothing else acknowledges. |
| TunnelStateMachine.AllowLanBehaviour | talpid-core/src/tunnel_state_machine/connected_state.rs:249-273 | The value is stored. An unchanged value only acknowledges. A changed one re-applies the firewall with the new value and stays exactly when that succeeds, else blocks with `SetFirewallPolicyError`. |
| TunnelStateMachine.DnsBehaviour | talpid-core/src/tunnel_state_machine/connected_state.rs:280-316 | The setting is stored. An unchanged one only acknowledges. A changed one refreshes the firewall with the new setting, then sets DNS to the newly resolved servers. A firewall failure blocks without setting DNS or acknowledging. A DNS failure blocks with `SetDnsError`. |
| TunnelStateMachine.CommandMapping | talpid-core/src/tunnel_state_machine/connected_state.rs:275-342 | `Connect` gives `Reconnect(0)`; `Disconnect` and a closed channel give `Nothing`; `Block(r)` gives `Block(r)`. Connectivity is stored and blocks with `IsOffline` exactly when offline. `AllowEndpoint` and `BlockWhenDisconnected` store their value, acknowledge, and stay. |
| TunnelStateMachine.OnlyNamedValueChanges | talpid-core/src/tunnel_state_machine/connected_state.rs:241-342 | A shared value changes only through the command that names it. |
| TunnelStateMachine.RepeatedSettingIsAcknowledgedOnly | talpid-core/src/tunnel_state_machine/connected_state.rs:249-316 | Repeating an `AllowLan` or `Dns` command that stayed in the state only acknowledges, whatever the collaborators answer. |
| TunnelStateMachine.TunnelEventBehaviour | talpid-core/src/tunnel_state_machine/connected_state.rs:398-403 | `Down` or a closed event channel resets and reconnects from attempt 0; any other event stays without calls. |
| TunnelStateMachine.TunnelCloseBehaviour | talpid-core/src/tunnel_state_machine/connected_state.rs:406-423 | A close resets DNS and routes. It then goes to the error state with a fatal cause, or to Connecting(0) without one. A stopped monitor is handled like a close without a cause. |
| WireGuard.GetEndpoint | talpid-types/src/net/wireguard.rs:46-51 | The entry endpoint is the peer's address over UDP. |
| WireGuard.GetExitEndpoint | talpid-types/src/net/wireguard.rs:53-58 | `None` exactly when there is no exit peer, otherwise the exit peer's address over UDP. |
| WireGuard.GetNextHopEndpoint | talpid-types/src/net/wireguard.rs:24-29 | The obfuscator's endpoint when obfuscation is configured, otherwise the peer's endpoint over UDP. |
| WireGuard.PrivateKeyEq | talpid-types/src/net/wireguard.rs:133-137 | Two private keys are equal exactly when their bytes are. |
| WireGuard.PublicKeyEq | talpid-types/src/net/wireguard.rs:245-249 | Two public keys are equal exactly when their bytes are. |
| WireGuard.HashAgreesWithEq | talpid-types/src/net/wireguard.rs:239-243 | A public key is hashed over its bytes only, so equal keys hash alike and the hash input determines the key. |
| WireGuard.PublicKeyTryFrom | talpid-types/src/net/wireguard.rs:211-219 | A slice whose length is not 32 fails with `Length(len)`; otherwise the key holds exactly those bytes. |
| WireGuard.DecodeKey | talpid-types/src/net/wireguard.rs:308-316 | The reference definition of `key_from_base64`. Text that is not canonical base64 gives `Format`. A decoded length other than 32 gives `Length` of that length. Otherwise the key is exactly the decoded bytes. |
| WireGuard.KeyFromBase64 | talpid-types/src/net/wireguard.rs:308-316 | The method returns exactly what `DecodeKey` defines, so `Format`, `Length(n)` or the decoded bytes. The key buffer, filled byte by byte, holds exactly the decoded bytes. |
| WireGuard.DecodeKeyAcceptsExactlyEncodings | talpid-types/src/net/wireguard.rs:308-316 | A string decodes to a key exactly when it is the canonical base64 encoding of that key's bytes. |
| WireGuard.SerializePrivateKey | talpid-types/src/net/wireguard.rs:153-160 | A private key is serialised as its `to_base64` text, which is 44 characters long. |
| WireGuard.SerializePublicKey | talpid-types/src/net/wireguard.rs:221-228 | A public key is serialised as its `to_base64` text, which is 44 characters long. |
| WireGuard.DeserializePrivateKey | talpid-types/src/net/wireguard.rs:297-306 | A private key is deserialised exactly when `key_from_base64` accepts the text, and with its error otherwise. The text is then the key's own serialisation. |
| WireGuard.DeserializePublicKey | talpid-types/src/net/wireguard.rs:297-306 | A public key is deserialised exactly when `key_from_base64` accepts the text, and with its error otherwise. The text is then the key's own serialisation. |
| WireGuard.KeySerdeRoundTrip | talpid-types/src/net/wireguard.rs:290-306 | Serialising a private or public key and deserialising the string gives back the same key. |
| WireGuard.DecodeKeyLengthError | talpid-types/src/net/wireguard.rs:310-312 | The encoding of a byte string of any length other than 32 is rejected with `Length` of that length. |
| Base64.DecodeEncode | talpid-types/src/net/wireguard.rs:294 | Decoding the standard base64 encoding of any bytes gives those bytes back. |
| Base64.EncodeDecode | talpid-types/src/net/wireguard.rs:309 | A string that decodes is the encoding of what it decodes to, so the decoder accepts canonical encodings only. |
| ApiProxy.ProxyEndpoint | mullvad-api/src/proxy.rs:74-89 | Shadowsocks, remote SOCKS5 and encrypted-DNS proxies are reached over TCP at their configured address (the V4 address for encrypted DNS). A local SOCKS5 proxy reports its stored remote endpoint unchanged. |
| ApiProxy.FromCustomProxy | mullvad-api/src/proxy.rs:91-99 | A custom proxy becomes the proxy config of the same variant and payload, never an encrypted-DNS one, and converts back to itself. |
| ApiProxy.FromEncryptedDnsConfig | mullvad-api/src/proxy.rs:101-105 | An encrypted-DNS config becomes `EncryptedDnsProxy` of exactly that config, which no custom proxy converts to. |
| ApiProxy.ToCustomProxy | mullvad-api/src/proxy.rs:91-99 | The inverse of `From<CustomProxy>`: it is defined exactly on the proxy configs that are not encrypted-DNS ones. |
| ApiProxy.ConversionsPreservePayload | mullvad-api/src/proxy.rs:91-99 | Every proxy config that is not an encrypted-DNS one is the conversion of the custom proxy it converts back to, so the conversion is a bijection onto those configs. |
| ApiProxy.GetEndpoint | mullvad-api/src/proxy.rs:169-174 | `None` exactly for Direct, else the proxy's endpoint. |
| ApiProxy.IsProxyIffEndpoint | mullvad-api/src/proxy.rs:176-178 | A mode is a proxy exactly when it is not Direct, and exactly when it has an endpoint. |
| ApiProxy.FromCache | mullvad-api/src/proxy.rs:122-142 | A missing file gives Direct. Any other read error is returned unchanged. A read file gives the parsed mode, and exactly the error `Other` "deserialization failed" when parsing fails. |
| ApiProxy.TryFromCache | mullvad-api/src/proxy.rs:110-118 | Never fails: the cached mode when reading succeeded, otherwise Direct. |
| ApiProxy.CachedProxyWasParsed | mullvad-api/src/proxy.rs:110-142 | A proxy comes out of the cache only when the file was read and parsed to that proxy. |
| ApiProxy.IntoProvider | mullvad-api/src/proxy.rs:180-182 | The static provider built by `into_provider` starts from exactly the mode it was built from (its `initial`, proxy.rs:43-45). |
| HttpsClient.TryFromMode | mullvad-api/src/https_client_with_sni.rs:258-291 | Direct stays direct. A local SOCKS5 proxy is dialled at 127.0.0.1 on its local port without authentication. A remote SOCKS5 proxy keeps its endpoint and authentication. Encrypted DNS passes through. Shadowsocks keeps peer and password and fails with `InvalidCipher(cipher)` exactly when the cipher is not recognised. |
| HttpsClient.FirstHop | mullvad-api/src/https_client_with_sni.rs:94-171 | The address `connect` opens its socket to: the target for a direct mode, and the proxy's peer for Shadowsocks and SOCKS5. For encrypted DNS it is the proxy's IPv4 address. |
| HttpsClient.FirstHopIsProxyAddress | mullvad-api/src/https_client_with_sni.rs:94-165 | The first hop is the target for Direct, the proxy's endpoint address for Shadowsocks, remote SOCKS5 and encrypted DNS, and 127.0.0.1 at the local port for a local SOCKS5 proxy. |
| HttpsClient.ChoosePort | mullvad-api/src/https_client_with_sni.rs:417-421 | The URI's port when present, else the resolved port, else 443 when the resolved port is 0. |
| HttpsClient.ResolveAddress | mullvad-api/src/https_client_with_sni.rs:402-423 | No host gives `InvalidInput`. An IP literal keeps its address with the URI port or 443. Otherwise a resolver error is passed on, an empty answer is an error, and the first resolved address is used with the chosen port. |
| HttpsClient.IpLiteralNeedsNoLookup | mullvad-api/src/https_client_with_sni.rs:408-411 | For an IP-literal host the result does not depend on the resolver and keeps the literal address. |
| HttpsClient.CheckUri | mullvad-api/src/https_client_with_sni.rs:455-466 | A scheme other than https is refused with "not https". A missing host is refused with "missing host". Both are `InvalidInput`. Otherwise the host is returned. |
| HttpsClient.CallTarget | mullvad-api/src/https_client_with_sni.rs:454-467 | The URI checks come first and their error is returned. A resolution error is returned next. The call reaches a first hop exactly when both succeed, and it is the mode's first hop for the resolved address. |
| HttpsClient.CallRejectsBeforeResolving | mullvad-api/src/https_client_with_sni.rs:455-467 | With a wrong scheme or no host, `call` fails with `InvalidInput` whatever the resolver would say. |
| HttpsClient.OpenHandlesExactlyOpen | mullvad-api/src/https_client_with_sni.rs:440 | The handles kept are open ones from the list, and every open handle of the list is kept. |
| HttpsClient.HttpsConnectorWithSni.constructor | mullvad-api/src/https_client_with_sni.rs:321-324 | A new connector is direct and has no stream handles. |
| HttpsClient.HttpsConnectorWithSni.HandleRequest | mullvad-api/src/https_client_with_sni.rs:330-355 | A valid new mode replaces the current one and an invalid one (or a reset) leaves it. The handle list is emptied and every handle that was in it is closed. |
| HttpsClient.HttpsConnectorWithSni.PollReady | mullvad-api/src/https_client_with_sni.rs:438-442 | The handle list keeps exactly its open handles, in order; the mode is unchanged. |
| HttpsClient.HttpsConnectorWithSni.Call | mullvad-api/src/https_client_with_sni.rs:444-504 | A first hop is dialled exactly when the URI checks and resolution succeed. It is the mode's first hop for the resolved address. Any earlier error or a failed connection is returned and leaves the list unchanged. A success appends exactly one new, open handle. |
| AccountCmd.DurationUnit | mullvad-cli/src/cmds/account.rs:247-254 | Days from 86400 seconds, else hours from 3600, else minutes from 60, else seconds. |
| AccountCmd.FormatDuration | mullvad-cli/src/cmds/account.rs:245-256 | The text is the decimal count of the chosen unit, followed by " days", " hours", " minutes" or " seconds". |
| AccountCmd.FormatDurationMeaning | mullvad-cli/src/cmds/account.rs:245-256 | The count is the truncated number of whole units of the largest unit that fits. It is 0 only for 0 seconds, which reads "0 seconds", and it reads back from the text. |
| AccountCmd.RetainAlphanumeric | mullvad-cli/src/cmds/account.rs:192 | The voucher keeps exactly its alphanumeric characters, in order. |
| AccountCmd.CleanVoucherUnchanged | mullvad-cli/src/cmds/account.rs:192 | A voucher of alphanumeric characters only is left as it is. |
| AccountCmd.SplitWhitespace | mullvad-cli/src/cmds/account.rs:242 | The words are non-empty and contain no whitespace. |
| AccountCmd.ConcatSplitIsFilter | mullvad-cli/src/cmds/account.rs:242 | Splitting on whitespace and joining with nothing removes exactly the whitespace and keeps the rest in order. |
| AccountCmd.FromStdin | mullvad-cli/src/cmds/account.rs:233-243 | The line read, with all whitespace (including the newline) removed. |
| AccountCmd.UnwrapOrFromStdin | mullvad-cli/src/cmds/account.rs:223-231 | A supplied value is returned unchanged without prompting. Otherwise the user is prompted and the normalised line is returned. |
| AccountCmd.FirstMatch | mullvad-cli/src/cmds/account.rs:178-182 | The index of the first device whose name or id equals the query ignoring ASCII case. |
| AccountCmd.DeviceToRevoke | mullvad-cli/src/cmds/account.rs:178-186 | `DeviceNotFound` exactly when no device matches, in which case nothing is removed. Otherwise the id of the first match. |
| AccountCmd.DeviceLookupIgnoresCase | mullvad-cli/src/cmds/account.rs:181 | Queries that differ only in ASCII case select the same device. |
| AccountCmd.SortByCreated | mullvad-cli/src/cmds/account.rs:151 | Sorts the devices in place by creation time, as a permutation of the original list. |
| AccountCmd.AccountElseCurrent | mullvad-cli/src/cmds/account.rs:207-221 | An explicit account is returned unchanged. Otherwise the logged-in account's number is returned. A failed query is passed on, and a logged-out or revoked device is an error. |
| AccountCmd.ExplicitAccountIgnoresDevice | mullvad-cli/src/cmds/account.rs:211-212 | With an explicit account the device query has no influence. |
| CliCmds.BooleanOption.Display | mullvad-cli/src/cmds/mod.rs:77-85 | The on label when the state is true, the off label otherwise. |
| CliCmds.WithLabels | mullvad-cli/src/cmds/mod.rs:62-68 | The option has the given state (deref gives it back) and displays the label of that state. |
| CliCmds.FromBool | mullvad-cli/src/cmds/mod.rs:71-75 | `From<bool>` keeps the state with the labels "on" and "off". Deref gives the state back, and the option displays as "on" or "off". |
| CliCmds.CustomParse | mullvad-cli/src/cmds/mod.rs:53-60 | It requires distinct labels. Exactly the two labels parse, and the state is whether the value is the on label. Any other value is refused. |
| CliCmds.ParseDisplayRoundTrip | mullvad-cli/src/cmds/mod.rs:53-85 | Displaying a parsed option gives back the label that was parsed, and parsing a displayed option gives back the option. |
| CliCmds.ValueParse | mullvad-cli/src/cmds/mod.rs:44-48 | The default parser accepts exactly "on" and "off", giving `From<bool>` of whether the value is "on", and refuses anything else with that value. |
| CliCmds.ValueParseIsFromBool | mullvad-cli/src/cmds/mod.rs:46-47 | The default parser of "on"/"off" agrees with `From<bool>`. |
| CliCmds.HelperStr | mullvad-cli/src/cmds/mod.rs:88-91 | "[Y/n]" when the default is yes, "[y/N]" otherwise. |
| CliCmds.ClassifyAnswer | mullvad-cli/src/cmds/mod.rs:102-107 | One input line: it takes the default exactly when it is blank after trimming. A yes is at most three characters and starts with y or Y; a no is at most two and starts with n or N. |
| CliCmds.ClassifyAnswerMeaning | mullvad-cli/src/cmds/mod.rs:102-106 | After trimming, a blank line (one made only of whitespace) takes the default. A yes is exactly "yes" or one of its abbreviations "y", "ye", and a no is exactly "no" or "n", each in any ASCII letter case. Anything else is unrecognised. |
| CliCmds.ReceiveConfirmation | mullvad-cli/src/cmds/mod.rs:95-109 | Unrecognised lines are skipped. The first line that is a read error gives false, and the first recognised answer gives its verdict. Running out of input gives the default, as an empty read does. |
| DnsTest.DnsPacketsFound.constructor | test/test-manager/src/tests/dns.rs:720-727 | Both counts start at 0 and the minimums are stored. |
| DnsTest.DnsPacketsFound.HandlePacket | test/test-manager/src/tests/dns.rs:729-739 | The new counts and the answer are exactly `PacketStep` of the old counts. |
| DnsTest.PacketStepBehaviour | test/test-manager/src/tests/dns.rs:730-738 | Per packet:<br>- a UDP packet to or from port 53 adds one to the UDP count only;<br>- a TCP one adds one to the TCP count only;<br>- other packets change nothing and continue;<br>- the capture stops exactly when a counted packet leaves both counts at or above their minimums. |
| DnsTest.CountsAreTallies | test/test-manager/src/tests/dns.rs:733-737 | Over any run of packets the counts grow by exactly the number of UDP and TCP DNS packets seen. They never decrease and grow by at most one per packet. |
| DnsTest.CombineCases | test/test-manager/src/tests/dns.rs:465-492 | The name, the resolver address 100.64.0.b and the options are the left folds of the chosen cases. The folds are: " + " before every name but the first; b as the OR of their bits; each flag as the OR of their flags. |
| DnsTest.ContentBlockerBits | test/test-manager/src/tests/dns.rs:421-462 | The five cases carry the bits 1<<0 … 1<<4, which are pairwise disjoint. |
| DnsTest.SubsetEncodesAsOctet | test/test-manager/src/tests/dns.rs:420-500 | The last octet of a chosen subset is the subset's 5-bit mask, so distinct subsets give distinct addresses and non-empty ones an octet in 1..31. |
| DnsTest.ChosenOptions | test/test-manager/src/tests/dns.rs:475-479 | Each blocking option is enabled exactly when its case is in the subset. |
| DnsTest.CombinedNameIsJoin | test/test-manager/src/tests/dns.rs:469-473 | With non-empty case names the combination name is the names in order joined by " + ", and never empty. |

## Left out

- Tokio, `select!`, channels and the completion senders: a stimulus is a value and an acknowledgement is an `AckSent` call in the trace.
- The concrete firewall, DNS monitor, route manager and filtering resolver: each is a call in the trace plus a success flag given to the handler.
- The Windows, macOS and Android branches of the Connected state are not modelled. That covers `get_relay_client`, the split-tunnel interface, `LOCAL_DNS_RESOLVER`, `BypassSocket` and `SetExcludedApps`, and the Android DNS handling.
- The Disconnecting, Error and Connecting states are only named by the constructors they are entered with; their code is not part of this model.
- `TunnelParameters::get_tunnel_endpoint`, `TunnelMetadata::gateways`, `DnsConfig::resolve`, the OpenVPN parameters, and `SharedTunnelStateValues::set_allow_lan` and `set_dns_config` are defined outside the modelled files. The two setters are modelled as "store the value and report whether it changed", as their call sites use them. They are reduced to the fields the Connected state reads, and `ResolvedDnsConfig` is reduced to its server list.
- TLS, socket opening, timeouts and the Shadowsocks, SOCKS5 and encrypted-DNS stream construction are not modelled.
- HttpsClient.HttpsConnectorWithSni.Call: the abort-notify retry loop is not modelled, because its point is racing concurrent configuration changes. The call is given the outcome of its one connection attempt as `connected`. The other half of that mechanism, the request loop's `notify_waiters()` after a mode change (https_client_with_sni.rs:355), is left out of `HandleRequest` for the same reason.
- `Arc<Mutex>` locking: the connector's inner state is a plain object.
- The Android socket-bypass channel is not modelled.
- File reading, writing and deleting, and JSON (de)serialisation, in the connection-mode cache: only the decision over a read result and a parser is modelled.
- The `AsyncRead`/`AsyncWrite` wrappers are not modelled.
- WireGuard.DecodeKey: `InvalidKey::Format` carries no payload; the `base64::DecodeError` it wraps (wireguard.rs:179, 309) is not modelled, only the fact that decoding failed.
- WireGuard.DeserializePrivateKey and WireGuard.DeserializePublicKey: a refused key is returned as its `InvalidKey` value; serde's `Error::custom` wrapping of its message text (wireguard.rs:305) is not modelled.
- x25519 key derivation, random key generation, zeroize-on-drop and the `daita` fields are not modelled.
- All RPC calls, printing, chrono's time-zone rendering, and standard input and output: lines read are parameters.
- clap's `PossibleValuesParser`: only its two-label contract is modelled.
- AccountCmd.FormatDuration: inputs are at most `i64::MAX / 1000` seconds. That is the largest duration `chrono::Duration::seconds` accepts; above it that call panics and the `u64` to `i64` cast would wrap the largest values.
- AccountCmd.RetainAlphanumeric: keeps ASCII letters and digits only. Unicode's alphanumeric class is not modelled.
- DnsTest.DnsPacketsFound.HandlePacket: the counts are unbounded naturals; a `usize` wrap after 2^64 packets is not modelled.
- Packet capture, spoofing, spawned tasks, timeouts and the nonce of the DNS tests are not modelled.
- The `powerset` iterator is not modelled. A subset is given as a bit mask choosing cases in their listed order, as `powerset` yields them.
- TunnelStateMachine.CommandSpec: a changed DNS setting whose firewall refresh fails returns early, before `complete_tx.send(())`, so no acknowledgement is sent (connected_state.rs:288-294). The model follows this code, although every other acknowledged path sends one.
- TunnelStateMachine.EnterSpec: the two failure paths of `enter` go to Disconnecting without resetting DNS or clearing routes, as the code does.
