/** The configuration a node's network actor is built from: transport
    settings, which this core only stores, and the firewall permissions. */
module Config {
  import opened Common
  import opened AccessControl

  datatype NetworkConfig = NetworkConfig(
    requestTimeout: Option<Duration>,
    connectionTimeout: Option<Duration>,
    connectionsLimit: Option<ConnectionLimits>,
    enableMdns: bool,
    enableRelay: bool,
    addresses: Option<AddressInfo>,
    peerPermissions: map<PeerId, Permissions>,
    permissionsDefault: Permissions)
  {
    /** `NetworkConfig::new`: the given permissions for every peer without
        an override, no per-peer overrides, and every other setting at its
        `Default` (no timeouts or limits set, mdns and relay off). */
    static function New(defaultPermissions: Permissions): (c: NetworkConfig)
      ensures c.permissionsDefault == defaultPermissions
      ensures c.peerPermissions == map[]
      ensures !c.enableMdns && !c.enableRelay
      ensures c.requestTimeout.None? && c.connectionTimeout.None? && c.connectionsLimit.None? && c.addresses.None?
    {
      NetworkConfig(None, None, None, false, false, None, map[], defaultPermissions)
    }

    // Each setter sets one field and leaves every other field as it was.

    function WithRequestTimeout(t: Duration): (c: NetworkConfig)
      ensures c.requestTimeout == Some(t) && c.(requestTimeout := requestTimeout) == this
    {
      this.(requestTimeout := Some(t))
    }

    function WithConnectionsLimit(limit: ConnectionLimits): (c: NetworkConfig)
      ensures c.connectionsLimit == Some(limit) && c.(connectionsLimit := connectionsLimit) == this
    {
      this.(connectionsLimit := Some(limit))
    }

    function WithConnectionTimeout(t: Duration): (c: NetworkConfig)
      ensures c.connectionTimeout == Some(t) && c.(connectionTimeout := connectionTimeout) == this
    {
      this.(connectionTimeout := Some(t))
    }

    function WithMdnsEnabled(isEnabled: bool): (c: NetworkConfig)
      ensures c.enableMdns == isEnabled && c.(enableMdns := enableMdns) == this
    {
      this.(enableMdns := isEnabled)
    }

    function WithRelayEnabled(isEnabled: bool): (c: NetworkConfig)
      ensures c.enableRelay == isEnabled && c.(enableRelay := enableRelay) == this
    {
      this.(enableRelay := isEnabled)
    }

    function WithAddressInfo(info: AddressInfo): (c: NetworkConfig)
      ensures c.addresses == Some(info) && c.(addresses := addresses) == this
    {
      this.(addresses := Some(info))
    }
  }

  /** No transport setter touches the firewall permissions: each one, on any
      configuration, keeps the per-peer overrides and the default permissions,
      so any chain of them keeps them too. */
  lemma SettersKeepPermissions(c: NetworkConfig, t: Duration, limit: ConnectionLimits, flag: bool, info: AddressInfo)
    ensures var r := c.WithRequestTimeout(t);
      r.peerPermissions == c.peerPermissions && r.permissionsDefault == c.permissionsDefault
    ensures var r := c.WithConnectionTimeout(t);
      r.peerPermissions == c.peerPermissions && r.permissionsDefault == c.permissionsDefault
    ensures var r := c.WithConnectionsLimit(limit);
      r.peerPermissions == c.peerPermissions && r.permissionsDefault == c.permissionsDefault
    ensures var r := c.WithMdnsEnabled(flag);
      r.peerPermissions == c.peerPermissions && r.permissionsDefault == c.permissionsDefault
    ensures var r := c.WithRelayEnabled(flag);
      r.peerPermissions == c.peerPermissions && r.permissionsDefault == c.permissionsDefault
    ensures var r := c.WithAddressInfo(info);
      r.peerPermissions == c.peerPermissions && r.permissionsDefault == c.permissionsDefault
  {
  }
}
