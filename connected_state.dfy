/** The Connected state of the tunnel state machine (Linux profile).

    Each stimulus (a command, a tunnel event or the tunnel-close result) is
    handled by applying side effects to the shared values in a fixed order
    and answering with `SameState` or a `NewState`. The firewall, the DNS
    monitor and the route manager are collaborators: whether one of their
    calls succeeds is an input, and every call made on them (and every
    acknowledgement sent) is appended to the shared values' `trace`.

    The functions below say what each handler does, as a function of the
    shared values before the call; the methods do it step by step on a
    `SharedTunnelStateValues` object, and their contracts tie them to the
    functions. */
module TunnelStateMachine {
  import opened Net
  import opened Wrappers
  import opened TunnelTypes

  /** What the Disconnecting state does once the tunnel is down. */
  datatype AfterDisconnect =
    | Nothing
    | Block(cause: ErrorStateCause)
    | Reconnect(retryAttempt: nat)

  /** The commands the Connected state handles on Linux. Those with a
      completion channel are acknowledged. */
  datatype TunnelCommand =
    | AllowLan(allowLan: bool)
    | AllowEndpoint(endpoint: AllowedEndpoint)
    | Dns(servers: DnsConfig)
    | BlockWhenDisconnected(blockWhenDisconnected: bool)
    | SetConnectivity(connectivity: Connectivity)
    | Connect
    | Disconnect
    | BlockCommand(reason: ErrorStateCause)

  /** The state entered next. The other states are not modelled beyond the
      arguments they are entered with. */
  datatype NextState =
    | Disconnecting(after: AfterDisconnect)
    | ErrorState(cause: ErrorStateCause)
    | Connecting(retryAttempt: nat)

  datatype EventConsequence = SameState | NewState(next: NextState)

  /** The transition reported by `enter`. */
  datatype TunnelStateTransition =
    | TransitionConnected(endpoint: TunnelEndpoint)
    | TransitionDisconnecting(after: AfterDisconnect)

  /** The policy the firewall enforces while connected. */
  datatype FirewallPolicy = ConnectedPolicy(
    peerEndpoint: AllowedEndpoint,
    tunnel: TunnelMetadata,
    allowLan: bool,
    dnsConfig: ResolvedDnsConfig)

  /** A collaborator call or an acknowledgement, as it appears in the trace. */
  datatype Effect =
    | ApplyFirewall(policy: FirewallPolicy)
    | SetDns(interface: string, config: ResolvedDnsConfig)
    | ResetDns
    | ClearRoutes
    | ClearRoutingRules
    | AckSent

  /** The shared values a handler may change. */
  datatype Values = Values(
    allowLan: bool,
    dnsConfig: DnsConfig,
    connectivity: Connectivity,
    blockWhenDisconnected: bool,
    allowedEndpoint: AllowedEndpoint)

  /** The tunnel-monitor thread went away without reporting. */
  datatype Canceled = Canceled

  /** The stimulus that won the race between the command channel, the
      tunnel-event channel and the tunnel-close event. A closed channel
      yields `None`. */
  datatype Stimulus =
    | Command(command: Option<TunnelCommand>)
    | Event(event: Option<TunnelEvent>)
    | Close(result: Result<Option<ErrorStateCause>, Canceled>)

  /** What a handler does: the new shared values, the effects it issues in
      order, and its answer. */
  datatype Outcome = Outcome(values: Values, effects: seq<Effect>, consequence: EventConsequence)

  datatype EnterOutcome = EnterOutcome(effects: seq<Effect>, transition: TunnelStateTransition)

  /** The Connected state itself; its channels are not modelled. */
  datatype ConnectedState = ConnectedState(metadata: TunnelMetadata, tunnelParameters: TunnelParameters)

  // ---------------------------------------------------------------------
  // Specification of each handler

  function ResolveDns(metadata: TunnelMetadata, v: Values): ResolvedDnsConfig
  {
    v.dnsConfig.Resolve(metadata.Gateways())
  }

  /** `get_firewall_policy` off Windows and macOS: the relay is reachable at
      the next hop, by every process only when a local OpenVPN proxy must
      reach it, and the LAN and DNS settings come from the shared values. */
  function GetFirewallPolicy(s: ConnectedState, v: Values): (p: FirewallPolicy)
    ensures p.peerEndpoint.endpoint == GetNextHopEndpoint(s.tunnelParameters)
    ensures p.peerEndpoint.clients == All <==> GetOpenVpnLocalProxySettings(s.tunnelParameters).Some?
    ensures p.tunnel == s.metadata && p.allowLan == v.allowLan
    ensures p.dnsConfig.servers == (if v.dnsConfig.DefaultDns? then s.metadata.Gateways() else v.dnsConfig.addresses)
  {
    var clients := if GetOpenVpnLocalProxySettings(s.tunnelParameters).Some? then All else Root;
    ConnectedPolicy(
      AllowedEndpoint(GetNextHopEndpoint(s.tunnelParameters), clients),
      s.metadata,
      v.allowLan,
      ResolveDns(s.metadata, v))
  }

  function FirewallEffect(s: ConnectedState, v: Values): Effect
  {
    ApplyFirewall(GetFirewallPolicy(s, v))
  }

  function DnsEffect(s: ConnectedState, v: Values): Effect
  {
    SetDns(s.metadata.interface, ResolveDns(s.metadata, v))
  }

  /** `reset_dns` followed by `reset_routes` on Linux. */
  const ResetEffects: seq<Effect> := [ResetDns, ClearRoutes, ClearRoutingRules]

  const FirewallFailure: AfterDisconnect := Block(SetFirewallPolicyError(Generic))

  /** The endpoint reported on entry: the tunnel's, with its interface. */
  function ConnectedEndpoint(s: ConnectedState): TunnelEndpoint
  {
    GetTunnelEndpoint(s.tunnelParameters).(tunnelInterface := Some(s.metadata.interface))
  }

  /** `enter`: apply the firewall policy, then set DNS; the first failure
      goes to Disconnecting with the matching block cause. */
  function EnterSpec(s: ConnectedState, v: Values, firewallOk: bool, dnsOk: bool): (o: EnterOutcome)
    ensures |o.effects| >= 1 && o.effects[0] == FirewallEffect(s, v)
    ensures DnsEffect(s, v) in o.effects <==> firewallOk
    ensures NoResetNorAck(o.effects)
    ensures o.transition.TransitionDisconnecting? ==> o.transition.after.Block?
  {
    if !firewallOk then
      EnterOutcome([FirewallEffect(s, v)], TransitionDisconnecting(FirewallFailure))
    else if !dnsOk then
      EnterOutcome([FirewallEffect(s, v), DnsEffect(s, v)], TransitionDisconnecting(Block(SetDnsError)))
    else
      EnterOutcome([FirewallEffect(s, v), DnsEffect(s, v)], TransitionConnected(ConnectedEndpoint(s)))
  }

  /** `disconnect`, after `effects` were issued. */
  function DisconnectSpec(v: Values, effects: seq<Effect>, after: AfterDisconnect): Outcome
  {
    Outcome(v, effects + ResetEffects, NewState(Disconnecting(after)))
  }

  function WithAck(o: Outcome): Outcome
  {
    o.(effects := o.effects + [AckSent])
  }

  /** `handle_commands` on Linux. */
  function CommandSpec(s: ConnectedState, v: Values, command: Option<TunnelCommand>,
                       firewallOk: bool, dnsOk: bool): (o: Outcome)
    ensures o.consequence.NewState? ==> o.consequence.next.Disconnecting?
    ensures command.None? || command.value.Connect? || command.value.Disconnect? || command.value.BlockCommand?
            ==> o.values == v && o.consequence.NewState?
  {
    match command
    case None => DisconnectSpec(v, [], Nothing)
    case Some(AllowLan(allowLan)) =>
      var v' := v.(allowLan := allowLan);
      if v.allowLan == allowLan then WithAck(Outcome(v', [], SameState))
      else if firewallOk then WithAck(Outcome(v', [FirewallEffect(s, v')], SameState))
      else WithAck(DisconnectSpec(v', [FirewallEffect(s, v')], FirewallFailure))
    case Some(AllowEndpoint(endpoint)) =>
      WithAck(Outcome(v.(allowedEndpoint := endpoint), [], SameState))
    case Some(Dns(servers)) =>
      var v' := v.(dnsConfig := servers);
      if v.dnsConfig == servers then WithAck(Outcome(v', [], SameState))
      else if !firewallOk then DisconnectSpec(v', [FirewallEffect(s, v')], FirewallFailure)
      else if !dnsOk then
        WithAck(DisconnectSpec(v', [FirewallEffect(s, v'), DnsEffect(s, v')], Block(SetDnsError)))
      else WithAck(Outcome(v', [FirewallEffect(s, v'), DnsEffect(s, v')], SameState))
    case Some(BlockWhenDisconnected(block)) =>
      WithAck(Outcome(v.(blockWhenDisconnected := block), [], SameState))
    case Some(SetConnectivity(connectivity)) =>
      var v' := v.(connectivity := connectivity);
      if connectivity.IsOffline() then DisconnectSpec(v', [], Block(IsOffline))
      else Outcome(v', [], SameState)
    case Some(Connect) => DisconnectSpec(v, [], Reconnect(0))
    case Some(Disconnect) => DisconnectSpec(v, [], Nothing)
    case Some(BlockCommand(reason)) => DisconnectSpec(v, [], Block(reason))
  }

  /** `handle_tunnel_events`. */
  function EventSpec(v: Values, event: Option<TunnelEvent>): (o: Outcome)
    ensures o.values == v
    ensures o.consequence.NewState? ==> o.consequence == NewState(Disconnecting(Reconnect(0)))
    ensures o.consequence == SameState ==> o.effects == []
  {
    match event
    case None => DisconnectSpec(v, [], Reconnect(0))
    case Some(Down) => DisconnectSpec(v, [], Reconnect(0))
    case Some(_) => Outcome(v, [], SameState)
  }

  /** `handle_tunnel_close_event`. */
  function CloseSpec(v: Values, blockReason: Option<ErrorStateCause>): (o: Outcome)
    ensures o.values == v && o.effects == ResetEffects
    ensures o.consequence.NewState? && !o.consequence.next.Disconnecting?
  {
    match blockReason
    case Some(cause) => Outcome(v, ResetEffects, NewState(ErrorState(cause)))
    case None => Outcome(v, ResetEffects, NewState(Connecting(0)))
  }

  /** `handle_event`: a monitor that stopped without a verdict counts as a
      close without a cause. */
  function StepSpec(s: ConnectedState, v: Values, stimulus: Stimulus,
                    firewallOk: bool, dnsOk: bool): (o: Outcome)
    ensures !stimulus.Command? ==> o.values == v
    ensures o.consequence.NewState? && !o.consequence.next.Disconnecting? <==> stimulus.Close?
  {
    match stimulus
    case Command(command) => CommandSpec(s, v, command, firewallOk, dnsOk)
    case Event(event) => EventSpec(v, event)
    case Close(result) => CloseSpec(v, if result.Ok? then result.value else None)
  }

  // ---------------------------------------------------------------------
  // The shared values and the handlers, step by step

  class SharedTunnelStateValues {
    var allowLan: bool
    var dnsConfig: DnsConfig
    var connectivity: Connectivity
    var blockWhenDisconnected: bool
    var allowedEndpoint: AllowedEndpoint
    /** The collaborator calls and acknowledgements issued so far. */
    var trace: seq<Effect>

    constructor (v: Values)
      ensures Snapshot() == v && trace == []
    {
      allowLan := v.allowLan;
      dnsConfig := v.dnsConfig;
      connectivity := v.connectivity;
      blockWhenDisconnected := v.blockWhenDisconnected;
      allowedEndpoint := v.allowedEndpoint;
      trace := [];
    }

    function Snapshot(): Values
      reads this
    {
      Values(allowLan, dnsConfig, connectivity, blockWhenDisconnected, allowedEndpoint)
    }

    /** `set_allow_lan`: stores the value and tells whether it changed. */
    method SetAllowLan(value: bool) returns (changed: bool)
      modifies this
      ensures changed <==> old(allowLan) != value
      ensures Snapshot() == old(Snapshot()).(allowLan := value) && trace == old(trace)
    {
      changed := allowLan != value;
      allowLan := value;
    }

    /** `set_dns_config`: stores the value and tells whether it changed. */
    method SetDnsConfig(value: DnsConfig) returns (changed: bool)
      modifies this
      ensures changed <==> old(dnsConfig) != value
      ensures Snapshot() == old(Snapshot()).(dnsConfig := value) && trace == old(trace)
    {
      changed := dnsConfig != value;
      dnsConfig := value;
    }

    /** Records a collaborator call or an acknowledgement. */
    method Issue(e: Effect)
      modifies this
      ensures Snapshot() == old(Snapshot()) && trace == old(trace) + [e]
    {
      trace := trace + [e];
    }
  }

  /** `set_firewall_policy`: every firewall error becomes `Generic`. */
  method SetFirewallPolicy(s: ConnectedState, shared: SharedTunnelStateValues, firewallOk: bool)
    returns (r: Result<(), FirewallPolicyError>)
    modifies shared
    ensures shared.Snapshot() == old(shared.Snapshot())
    ensures shared.trace == old(shared.trace) + [FirewallEffect(s, old(shared.Snapshot()))]
    ensures r == if firewallOk then Ok(()) else Err(Generic)
  {
    var policy := GetFirewallPolicy(s, shared.Snapshot());
    shared.Issue(ApplyFirewall(policy));
    if firewallOk {
      r := Ok(());
    } else {
      r := Err(Generic);
    }
  }

  /** `set_dns`: hands the resolved servers to the DNS monitor. */
  method SetDnsServers(s: ConnectedState, shared: SharedTunnelStateValues, dnsOk: bool)
    returns (ok: bool)
    modifies shared
    ensures shared.Snapshot() == old(shared.Snapshot())
    ensures shared.trace == old(shared.trace) + [DnsEffect(s, old(shared.Snapshot()))]
    ensures ok == dnsOk
  {
    var config := ResolveDns(s.metadata, shared.Snapshot());
    shared.Issue(SetDns(s.metadata.interface, config));
    ok := dnsOk;
  }

  /** `reset_dns` then `reset_routes`; their failures are only logged. */
  method ResetDnsAndRoutes(shared: SharedTunnelStateValues)
    modifies shared
    ensures shared.Snapshot() == old(shared.Snapshot())
    ensures shared.trace == old(shared.trace) + ResetEffects
  {
    shared.Issue(ResetDns);
    shared.Issue(ClearRoutes);
    shared.Issue(ClearRoutingRules);
  }

  /** `disconnect`. */
  method DisconnectState(shared: SharedTunnelStateValues, after: AfterDisconnect)
    returns (c: EventConsequence)
    modifies shared
    ensures shared.Snapshot() == old(shared.Snapshot())
    ensures shared.trace == old(shared.trace) + ResetEffects
    ensures c == NewState(Disconnecting(after))
  {
    ResetDnsAndRoutes(shared);
    c := NewState(Disconnecting(after));
  }

  /** `enter`. */
  method Enter(shared: SharedTunnelStateValues, metadata: TunnelMetadata,
               tunnelParameters: TunnelParameters, firewallOk: bool, dnsOk: bool)
    returns (s: ConnectedState, transition: TunnelStateTransition)
    modifies shared
    ensures s == ConnectedState(metadata, tunnelParameters)
    ensures var o := EnterSpec(s, old(shared.Snapshot()), firewallOk, dnsOk);
      shared.Snapshot() == old(shared.Snapshot())
      && shared.trace == old(shared.trace) + o.effects
      && transition == o.transition
  {
    s := ConnectedState(metadata, tunnelParameters);
    var endpoint := GetTunnelEndpoint(tunnelParameters).(tunnelInterface := Some(metadata.interface));
    var firewall := SetFirewallPolicy(s, shared, firewallOk);
    if firewall.Err? {
      return s, TransitionDisconnecting(Block(SetFirewallPolicyError(firewall.error)));
    }
    var dns := SetDnsServers(s, shared, dnsOk);
    if !dns {
      return s, TransitionDisconnecting(Block(SetDnsError));
    }
    transition := TransitionConnected(endpoint);
  }

  /** `handle_commands`. */
  method HandleCommands(s: ConnectedState, command: Option<TunnelCommand>,
                        shared: SharedTunnelStateValues, firewallOk: bool, dnsOk: bool)
    returns (c: EventConsequence)
    modifies shared
    ensures var o := CommandSpec(s, old(shared.Snapshot()), command, firewallOk, dnsOk);
      shared.Snapshot() == o.values
      && shared.trace == old(shared.trace) + o.effects
      && c == o.consequence
  {
    match command {
      case None =>
        c := DisconnectState(shared, Nothing);
      case Some(AllowLan(allowLan)) =>
        var changed := shared.SetAllowLan(allowLan);
        if changed {
          var firewall := SetFirewallPolicy(s, shared, firewallOk);
          if firewall.Ok? {
            c := SameState;
          } else {
            c := DisconnectState(shared, Block(SetFirewallPolicyError(firewall.error)));
          }
        } else {
          c := SameState;
        }
        shared.Issue(AckSent);
      case Some(AllowEndpoint(endpoint)) =>
        shared.allowedEndpoint := endpoint;
        shared.Issue(AckSent);
        c := SameState;
      case Some(Dns(servers)) =>
        var changed := shared.SetDnsConfig(servers);
        if changed {
          var firewall := SetFirewallPolicy(s, shared, firewallOk);
          if firewall.Err? {
            c := DisconnectState(shared, Block(SetFirewallPolicyError(firewall.error)));
            return;
          }
          var dns := SetDnsServers(s, shared, dnsOk);
          if dns {
            c := SameState;
          } else {
            c := DisconnectState(shared, Block(SetDnsError));
          }
        } else {
          c := SameState;
        }
        shared.Issue(AckSent);
      case Some(BlockWhenDisconnected(block)) =>
        shared.blockWhenDisconnected := block;
        shared.Issue(AckSent);
        c := SameState;
      case Some(SetConnectivity(connectivity)) =>
        shared.connectivity := connectivity;
        if connectivity.IsOffline() {
          c := DisconnectState(shared, Block(IsOffline));
        } else {
          c := SameState;
        }
      case Some(Connect) =>
        c := DisconnectState(shared, Reconnect(0));
      case Some(Disconnect) =>
        c := DisconnectState(shared, Nothing);
      case Some(BlockCommand(reason)) =>
        c := DisconnectState(shared, Block(reason));
    }
  }

  /** `handle_tunnel_events`. */
  method HandleTunnelEvents(event: Option<TunnelEvent>, shared: SharedTunnelStateValues)
    returns (c: EventConsequence)
    modifies shared
    ensures var o := EventSpec(old(shared.Snapshot()), event);
      shared.Snapshot() == o.values
      && shared.trace == old(shared.trace) + o.effects
      && c == o.consequence
  {
    match event {
      case None =>
        c := DisconnectState(shared, Reconnect(0));
      case Some(Down) =>
        c := DisconnectState(shared, Reconnect(0));
      case Some(_) =>
        c := SameState;
    }
  }

  /** `handle_tunnel_close_event`. */
  method HandleTunnelCloseEvent(blockReason: Option<ErrorStateCause>, shared: SharedTunnelStateValues)
    returns (c: EventConsequence)
    modifies shared
    ensures var o := CloseSpec(old(shared.Snapshot()), blockReason);
      shared.Snapshot() == o.values
      && shared.trace == old(shared.trace) + o.effects
      && c == o.consequence
  {
    if blockReason.Some? {
      ResetDnsAndRoutes(shared);
      return NewState(ErrorState(blockReason.value));
    }
    ResetDnsAndRoutes(shared);
    c := NewState(Connecting(0));
  }

  /** `handle_event`: dispatches the stimulus that arrived first. */
  method HandleEvent(s: ConnectedState, stimulus: Stimulus, shared: SharedTunnelStateValues,
                     firewallOk: bool, dnsOk: bool)
    returns (c: EventConsequence)
    modifies shared
    ensures var o := StepSpec(s, old(shared.Snapshot()), stimulus, firewallOk, dnsOk);
      shared.Snapshot() == o.values
      && shared.trace == old(shared.trace) + o.effects
      && c == o.consequence
  {
    match stimulus {
      case Command(command) =>
        c := HandleCommands(s, command, shared, firewallOk, dnsOk);
      case Event(event) =>
        c := HandleTunnelEvents(event, shared);
      case Close(result) =>
        var blockReason := if result.Ok? then result.value else None;
        c := HandleTunnelCloseEvent(blockReason, shared);
    }
  }

  // ---------------------------------------------------------------------
  // Properties of the handlers

  /** Every `SetDns` in a trace comes after some `ApplyFirewall`. */
  predicate FirewallBeforeDns(effects: seq<Effect>)
  {
    forall j | 0 <= j < |effects| && effects[j].SetDns? ::
      exists i | 0 <= i < j :: effects[i].ApplyFirewall?
  }

  /** The effects end with the DNS reset and route clearing of
      `disconnect`, possibly followed by one acknowledgement. */
  predicate EndsWithReset(effects: seq<Effect>)
  {
    (|effects| >= 3 && effects[|effects| - 3..] == ResetEffects)
    || (|effects| >= 4 && effects[|effects| - 1] == AckSent
        && effects[|effects| - 4..|effects| - 1] == ResetEffects)
  }

  /** The commands that carry a completion channel. */
  predicate Acknowledged(command: TunnelCommand)
  {
    command.AllowLan? || command.AllowEndpoint? || command.Dns? || command.BlockWhenDisconnected?
  }

  /** `enter` escalates the first failing call and never resets DNS or
      clears routes; DNS is left alone when the firewall fails. */
  lemma EnterEscalatesFailures(s: ConnectedState, v: Values, firewallOk: bool, dnsOk: bool)
    ensures var o := EnterSpec(s, v, firewallOk, dnsOk);
      && (!firewallOk ==> o.transition == TransitionDisconnecting(Block(SetFirewallPolicyError(Generic))))
      && (!firewallOk ==> forall e <- o.effects :: !e.SetDns?)
      && (firewallOk && !dnsOk ==> o.transition == TransitionDisconnecting(Block(SetDnsError)))
      && ResetDns !in o.effects && ClearRoutes !in o.effects && ClearRoutingRules !in o.effects
      && FirewallBeforeDns(o.effects)
      && |o.effects| >= 1 && o.effects[0] == ApplyFirewall(GetFirewallPolicy(s, v))
  {
    var o := EnterSpec(s, v, firewallOk, dnsOk);
    if firewallOk {
      assert o.effects[1].SetDns? && o.effects[0].ApplyFirewall?;
    }
  }

  /** `enter` reports Connected exactly when both calls succeed, with the
      tunnel's endpoint and the interface from the metadata. */
  lemma EnterConnectedIffBothSucceed(s: ConnectedState, v: Values, firewallOk: bool, dnsOk: bool)
    ensures var o := EnterSpec(s, v, firewallOk, dnsOk);
      && (o.transition.TransitionConnected? <==> firewallOk && dnsOk)
      && (o.transition.TransitionConnected? ==>
            o.transition.endpoint.tunnelInterface == Some(s.metadata.interface)
            && o.transition.endpoint.(tunnelInterface := None) == GetTunnelEndpoint(s.tunnelParameters))
  {
  }

  /** Whatever the stimulus, the firewall is applied before DNS is set. */
  lemma StepFirewallBeforeDns(s: ConnectedState, v: Values, stimulus: Stimulus,
                              firewallOk: bool, dnsOk: bool)
    ensures FirewallBeforeDns(StepSpec(s, v, stimulus, firewallOk, dnsOk).effects)
  {
    var o := StepSpec(s, v, stimulus, firewallOk, dnsOk);
    if stimulus.Command? && stimulus.command.Some? && stimulus.command.value.Dns?
       && v.dnsConfig != stimulus.command.value.servers && firewallOk {
      assert o.effects[0].ApplyFirewall? && o.effects[1].SetDns?;
      assert forall j | 2 <= j < |o.effects| :: !o.effects[j].SetDns?;
    }
  }

  /** The collaborator calls other than firewall and DNS setting. */
  predicate NoResetNorAck(effects: seq<Effect>)
  {
    ResetDns !in effects && ClearRoutes !in effects && ClearRoutingRules !in effects && AckSent !in effects
  }

  /** A new state exactly when DNS is reset and routes cleared, once each
      and in that order at the end (before any acknowledgement). */
  predicate ResetShaped(o: Outcome)
  {
    && (o.consequence.NewState? <==> ResetDns in o.effects)
    && (o.consequence.NewState? ==> EndsWithReset(o.effects))
    && multiset(o.effects)[ResetDns] == (if o.consequence.NewState? then 1 else 0)
    && multiset(o.effects)[ClearRoutes] == (if o.consequence.NewState? then 1 else 0)
  }

  /** `acks` acknowledgements, the last effect when there is one. */
  predicate AckShaped(o: Outcome, acks: nat)
  {
    && multiset(o.effects)[AckSent] == acks
    && (AckSent in o.effects ==> o.effects[|o.effects| - 1] == AckSent)
  }

  predicate WellShaped(o: Outcome, acks: nat)
  {
    ResetShaped(o) && AckShaped(o, acks)
  }

  lemma DisconnectShape(v: Values, pre: seq<Effect>, after: AfterDisconnect)
    requires NoResetNorAck(pre)
    ensures WellShaped(DisconnectSpec(v, pre, after), 0)
  {
    var e := pre + ResetEffects;
    assert multiset(pre)[ResetDns] == 0 && multiset(pre)[ClearRoutes] == 0 && multiset(pre)[AckSent] == 0;
    assert multiset(e) == multiset(pre) + multiset{ResetDns, ClearRoutes, ClearRoutingRules};
    assert e[|pre|] == ResetDns;
    assert e[|e| - 3..] == ResetEffects;
  }

  lemma DisconnectAckedShape(v: Values, pre: seq<Effect>, after: AfterDisconnect)
    requires NoResetNorAck(pre)
    ensures WellShaped(WithAck(DisconnectSpec(v, pre, after)), 1)
  {
    var e := pre + ResetEffects + [AckSent];
    assert multiset(pre)[ResetDns] == 0 && multiset(pre)[ClearRoutes] == 0 && multiset(pre)[AckSent] == 0;
    assert multiset(e) == multiset(pre) + multiset{ResetDns, ClearRoutes, ClearRoutingRules, AckSent};
    assert e[|pre|] == ResetDns;
    assert e[|e| - 4..|e| - 1] == ResetEffects;
  }

  lemma StayShape(v: Values, effects: seq<Effect>)
    requires NoResetNorAck(effects)
    ensures WellShaped(Outcome(v, effects, SameState), 0)
  {
  }

  lemma StayAckedShape(v: Values, effects: seq<Effect>)
    requires NoResetNorAck(effects)
    ensures WellShaped(WithAck(Outcome(v, effects, SameState)), 1)
  {
    assert multiset(effects + [AckSent]) == multiset(effects) + multiset{AckSent};
  }

  lemma CloseShape(o: Outcome)
    requires o.effects == ResetEffects && o.consequence.NewState?
    ensures WellShaped(o, 0)
  {
    DisconnectShape(o.values, [], Nothing);
    assert [] + ResetEffects == ResetEffects;
  }

  /** The number of acknowledgements a stimulus calls for: one for each
      acknowledged command, except a changed DNS setting whose firewall
      refresh fails. */
  function ExpectedAcks(v: Values, stimulus: Stimulus, firewallOk: bool): nat
  {
    if stimulus.Command? && stimulus.command.Some? && Acknowledged(stimulus.command.value)
       && !(stimulus.command.value.Dns? && v.dnsConfig != stimulus.command.value.servers && !firewallOk)
    then 1 else 0
  }

  lemma AllowLanWellShaped(s: ConnectedState, v: Values, allowLan: bool, firewallOk: bool, dnsOk: bool)
    ensures WellShaped(CommandSpec(s, v, Some(AllowLan(allowLan)), firewallOk, dnsOk), 1)
  {
    var v' := v.(allowLan := allowLan);
    if v.allowLan == allowLan {
      StayAckedShape(v', []);
    } else if firewallOk {
      StayAckedShape(v', [FirewallEffect(s, v')]);
    } else {
      DisconnectAckedShape(v', [FirewallEffect(s, v')], FirewallFailure);
    }
  }

  lemma DnsWellShaped(s: ConnectedState, v: Values, servers: DnsConfig, firewallOk: bool, dnsOk: bool)
    ensures WellShaped(CommandSpec(s, v, Some(Dns(servers)), firewallOk, dnsOk),
                       if v.dnsConfig != servers && !firewallOk then 0 else 1)
  {
    var v' := v.(dnsConfig := servers);
    if v.dnsConfig == servers {
      StayAckedShape(v', []);
    } else if !firewallOk {
      DisconnectShape(v', [FirewallEffect(s, v')], FirewallFailure);
    } else if !dnsOk {
      DisconnectAckedShape(v', [FirewallEffect(s, v'), DnsEffect(s, v')], Block(SetDnsError));
    } else {
      StayAckedShape(v', [FirewallEffect(s, v'), DnsEffect(s, v')]);
    }
  }

  lemma CommandWellShaped(s: ConnectedState, v: Values, command: TunnelCommand, firewallOk: bool, dnsOk: bool)
    ensures WellShaped(CommandSpec(s, v, Some(command), firewallOk, dnsOk),
                       ExpectedAcks(v, Command(Some(command)), firewallOk))
  {
    match command {
      case AllowLan(allowLan) => AllowLanWellShaped(s, v, allowLan, firewallOk, dnsOk);
      case Dns(servers) => DnsWellShaped(s, v, servers, firewallOk, dnsOk);
      case AllowEndpoint(endpoint) => StayAckedShape(v.(allowedEndpoint := endpoint), []);
      case BlockWhenDisconnected(block) => StayAckedShape(v.(blockWhenDisconnected := block), []);
      case SetConnectivity(connectivity) =>
        if connectivity.IsOffline() {
          DisconnectShape(v.(connectivity := connectivity), [], Block(IsOffline));
        } else {
          StayShape(v.(connectivity := connectivity), []);
        }
      case Connect => DisconnectShape(v, [], Reconnect(0));
      case Disconnect => DisconnectShape(v, [], Nothing);
      case BlockCommand(reason) => DisconnectShape(v, [], Block(reason));
    }
  }

  lemma EventWellShaped(v: Values, event: Option<TunnelEvent>)
    ensures WellShaped(EventSpec(v, event), 0)
  {
    if event.None? || event == Some(Down) {
      DisconnectShape(v, [], Reconnect(0));
    } else {
      StayShape(v, []);
    }
  }

  lemma CloseWellShaped(v: Values, blockReason: Option<ErrorStateCause>)
    ensures WellShaped(CloseSpec(v, blockReason), 0)
  {
    CloseShape(CloseSpec(v, blockReason));
  }

  lemma StepWellShaped(s: ConnectedState, v: Values, stimulus: Stimulus, firewallOk: bool, dnsOk: bool)
    ensures WellShaped(StepSpec(s, v, stimulus, firewallOk, dnsOk), ExpectedAcks(v, stimulus, firewallOk))
  {
    match stimulus {
      case Event(event) => EventWellShaped(v, event);
      case Close(result) => CloseWellShaped(v, if result.Ok? then result.value else None);
      case Command(None) => DisconnectShape(v, [], Nothing);
      case Command(Some(command)) => CommandWellShaped(s, v, command, firewallOk, dnsOk);
    }
  }

  /** A handler moves to a new state exactly when it resets DNS and clears
      the routes, which it then does once each, in that order, as its last
      collaborator calls. */
  lemma NewStateIffReset(s: ConnectedState, v: Values, stimulus: Stimulus,
                         firewallOk: bool, dnsOk: bool)
    ensures var o := StepSpec(s, v, stimulus, firewallOk, dnsOk);
      && (o.consequence.NewState? <==> ResetDns in o.effects)
      && (o.consequence.NewState? ==> EndsWithReset(o.effects))
      && multiset(o.effects)[ResetDns] == (if o.consequence.NewState? then 1 else 0)
      && multiset(o.effects)[ClearRoutes] == (if o.consequence.NewState? then 1 else 0)
  {
    StepWellShaped(s, v, stimulus, firewallOk, dnsOk);
  }

  /** Each acknowledged command is acknowledged exactly once, after its
      consequence is settled, except a changed DNS setting whose firewall
      refresh fails; no other command or stimulus sends an acknowledgement. */
  lemma AckSentOnce(s: ConnectedState, v: Values, stimulus: Stimulus, firewallOk: bool, dnsOk: bool)
    ensures var o := StepSpec(s, v, stimulus, firewallOk, dnsOk);
      && multiset(o.effects)[AckSent] == ExpectedAcks(v, stimulus, firewallOk)
      && (AckSent in o.effects ==> o.effects[|o.effects| - 1] == AckSent)
  {
    StepWellShaped(s, v, stimulus, firewallOk, dnsOk);
  }

  /** `AllowLan`: the new value is stored; an unchanged value applies
      nothing, a changed one re-applies the firewall with it, and a failure
      to do so blocks. */
  lemma AllowLanBehaviour(s: ConnectedState, v: Values, allowLan: bool, firewallOk: bool, dnsOk: bool)
    ensures var o := CommandSpec(s, v, Some(AllowLan(allowLan)), firewallOk, dnsOk);
      && o.values == v.(allowLan := allowLan)
      && (v.allowLan == allowLan ==> o.consequence == SameState && o.effects == [AckSent])
      && (v.allowLan != allowLan ==>
            o.effects[0].ApplyFirewall? && o.effects[0].policy.allowLan == allowLan
            && (firewallOk <==> o.consequence == SameState)
            && (!firewallOk ==> o.consequence == NewState(Disconnecting(Block(SetFirewallPolicyError(Generic))))))
  {
  }

  /** `Dns`: the new setting is stored; an unchanged one applies nothing;
      a changed one refreshes the firewall, then sets DNS to the new
      servers, and the first failure blocks with its cause. */
  lemma DnsBehaviour(s: ConnectedState, v: Values, servers: DnsConfig, firewallOk: bool, dnsOk: bool)
    ensures var o := CommandSpec(s, v, Some(Dns(servers)), firewallOk, dnsOk);
      && o.values == v.(dnsConfig := servers)
      && (v.dnsConfig == servers ==> o.consequence == SameState && o.effects == [AckSent])
      && (v.dnsConfig != servers ==>
            o.effects[0] == ApplyFirewall(GetFirewallPolicy(s, v.(dnsConfig := servers)))
            && (!firewallOk ==> o.consequence == NewState(Disconnecting(Block(SetFirewallPolicyError(Generic))))
                                && AckSent !in o.effects && forall e <- o.effects :: !e.SetDns?)
            && (firewallOk ==> o.effects[1] == SetDns(s.metadata.interface, servers.Resolve(s.metadata.Gateways())))
            && (firewallOk && !dnsOk ==> o.consequence == NewState(Disconnecting(Block(SetDnsError))))
            && (firewallOk && dnsOk ==> o.consequence == SameState))
  {
  }

  /** The commands that only disconnect, and the ones that only store a
      value. */
  lemma CommandMapping(s: ConnectedState, v: Values, command: Option<TunnelCommand>,
                       firewallOk: bool, dnsOk: bool)
    ensures var o := CommandSpec(s, v, command, firewallOk, dnsOk);
      && (command == Some(Connect) ==> o.consequence == NewState(Disconnecting(Reconnect(0))) && o.values == v)
      && (command == Some(Disconnect) || command.None? ==>
            o.consequence == NewState(Disconnecting(Nothing)) && o.values == v)
      && (command.Some? && command.value.BlockCommand? ==>
            o.consequence == NewState(Disconnecting(Block(command.value.reason))) && o.values == v)
      && (command.Some? && command.value.SetConnectivity? ==>
            o.values == v.(connectivity := command.value.connectivity)
            && (command.value.connectivity.IsOffline() <==> o.consequence == NewState(Disconnecting(Block(IsOffline))))
            && (!command.value.connectivity.IsOffline() <==> o.consequence == SameState))
      && (command.Some? && command.value.AllowEndpoint? ==>
            o.values == v.(allowedEndpoint := command.value.endpoint)
            && o.consequence == SameState && o.effects == [AckSent])
      && (command.Some? && command.value.BlockWhenDisconnected? ==>
            o.values == v.(blockWhenDisconnected := command.value.blockWhenDisconnected)
            && o.consequence == SameState && o.effects == [AckSent])
  {
  }

  /** A shared value changes only through the command that names it. */
  lemma OnlyNamedValueChanges(s: ConnectedState, v: Values, stimulus: Stimulus,
                              firewallOk: bool, dnsOk: bool)
    ensures var o := StepSpec(s, v, stimulus, firewallOk, dnsOk);
      && (o.values.allowLan != v.allowLan ==> stimulus.Command? && stimulus.command.Some? && stimulus.command.value.AllowLan?)
      && (o.values.dnsConfig != v.dnsConfig ==> stimulus.Command? && stimulus.command.Some? && stimulus.command.value.Dns?)
      && (o.values.connectivity != v.connectivity ==> stimulus.Command? && stimulus.command.Some? && stimulus.command.value.SetConnectivity?)
      && (o.values.blockWhenDisconnected != v.blockWhenDisconnected ==>
            stimulus.Command? && stimulus.command.Some? && stimulus.command.value.BlockWhenDisconnected?)
      && (o.values.allowedEndpoint != v.allowedEndpoint ==>
            stimulus.Command? && stimulus.command.Some? && stimulus.command.value.AllowEndpoint?)
  {
  }

  /** Repeating an `AllowLan` or `Dns` command that was applied without
      leaving the state does nothing but acknowledge. */
  lemma RepeatedSettingIsAcknowledgedOnly(s: ConnectedState, v: Values, command: TunnelCommand,
                                          firewallOk: bool, dnsOk: bool, firewallOk': bool, dnsOk': bool)
    requires command.AllowLan? || command.Dns?
    requires CommandSpec(s, v, Some(command), firewallOk, dnsOk).consequence == SameState
    ensures var v' := CommandSpec(s, v, Some(command), firewallOk, dnsOk).values;
      CommandSpec(s, v', Some(command), firewallOk', dnsOk') == Outcome(v', [AckSent], SameState)
  {
  }

  /** Tunnel events: `Down` or a closed channel reconnects from attempt 0,
      anything else keeps the state and issues nothing. */
  lemma TunnelEventBehaviour(v: Values, event: Option<TunnelEvent>)
    ensures var o := EventSpec(v, event);
      && o.values == v
      && (event.None? || event == Some(Down) <==> o.consequence == NewState(Disconnecting(Reconnect(0))))
      && (o.consequence == SameState ==> o.effects == [])
      && (o.consequence.NewState? ==> o.effects == ResetEffects)
  {
  }

  /** Tunnel close: DNS is reset and the routes cleared, then a fatal cause
      leads to the error state and no cause to Connecting from attempt 0;
      a monitor that stopped unexpectedly is treated as no cause. */
  lemma TunnelCloseBehaviour(s: ConnectedState, v: Values, result: Result<Option<ErrorStateCause>, Canceled>,
                             firewallOk: bool, dnsOk: bool)
    ensures var o := StepSpec(s, v, Close(result), firewallOk, dnsOk);
      && o.values == v && o.effects == ResetEffects
      && (result.Ok? && result.value.Some? ==> o.consequence == NewState(ErrorState(result.value.value)))
      && (result.Err? || result.value.None? ==> o.consequence == NewState(Connecting(0)))
      && (result.Err? ==> o == StepSpec(s, v, Close(Ok(None)), firewallOk, dnsOk))
  {
  }
}
