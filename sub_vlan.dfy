/**
 * The sub-interface creator: once the site, the device and the parent
 * interface are found by name, the request body for a VLAN sub-interface is
 * built from the parent's id and VRF context and the command-line values.
 */
module SubVlan {
  import opened Wrappers
  import opened Json
  import Text
  import Inventory

  /** `args.desc if args.desc else f"subinterface vlan {args.vlan}"` */
  function Description(desc: Option<string>, vlan: string): (r: string)
    ensures desc.Some? && desc.value != "" ==> r == desc.value
    ensures desc.None? || desc.value == "" ==> r == "subinterface vlan " + vlan
  {
    if desc.Some? && desc.value != "" then desc.value else "subinterface vlan " + vlan
  }

  /** The keys of the request body, in the order the script writes them, seven at a time. */
  const KeysA: seq<string> := ["parent", "type", "used_for", "power_usage_threshold", "mtu", "name", "description"]
  const KeysB: seq<string> := ["attached_lan_networks", "site_wan_interface_ids", "mac_address", "ipv4_config",
                               "ipv6_config", "dhcp_relay", "ethernet_port"]
  const KeysC: seq<string> := ["admin_up", "nat_address", "nat_port", "nat_address_v6", "nat_port_v6",
                               "bound_interfaces", "sub_interface"]
  const KeysD: seq<string> := ["pppoe_config", "network_context_id", "bypass_pair", "peer_bypasspair_wan_port_type",
                               "port_channel_config", "service_link_config", "sgi_apply_static_tag", "scope"]
  const KeysE: seq<string> := ["tags", "nat_zone_id", "devicemgmt_policysetstack_id", "nat_pools", "directed_broadcast",
                               "ipfixcollectorcontext_id", "ipfixfiltercontext_id", "secondary_ip_configs"]
  const KeysF: seq<string> := ["static_arp_configs", "cellular_config", "multicast_config", "poe_enabled", "lldp_enabled",
                               "switch_port_config", "authentication_config", "vlan_config", "interface_profile_id"]
  const KeysG: seq<string> := ["vrf_context_id", "fec_mode", "loopback_config"]

  const SubInterfaceKeys: seq<string> := KeysA + KeysB + KeysC + KeysD + KeysE + KeysF + KeysG

  /** The static IPv4 block: the given address and no DNS servers. */
  function Ipv4Config(ip: string): (r: Value)
    ensures At(r, "type") == Str("static")
    ensures At(At(r, "static_config"), "address") == Str(ip)
  {
    var fs := [
      Field("dhcp_config", Null),
      Field("type", Str("static")),
      Field("routes", Null),
      Field("dns_v4_config", Obj([Field("name_servers", List([]))])),
      Field("static_config", Obj([Field("address", Str(ip))]))
    ];
    IndexOfIs(fs, "static_config", 4);
    Obj(fs)
  }

  /** The sub-interface block: the VLAN id and a tagged (not native) VLAN. */
  function SubInterface(vlan: string): (r: Value)
    ensures At(r, "vlan_id") == Str(vlan) && At(r, "native_vlan") == Bool(false)
  {
    var fs := [Field("vlan_id", Str(vlan)), Field("native_vlan", Bool(false))];
    IndexOfIs(fs, "native_vlan", 1);
    Obj(fs)
  }

  function PartA(parentId: Value, description: string): (r: seq<Field>)
    ensures Keys(r) == KeysA
    ensures Find(r, "parent") == Some(parentId) && Find(r, "type") == Some(Str("subinterface"))
    ensures Find(r, "used_for") == Some(Str("lan")) && Find(r, "description") == Some(Str(description))
  {
    var fs := [
      Field("parent", parentId),
      Field("type", Str("subinterface")),
      Field("used_for", Str("lan")),
      Field("power_usage_threshold", Int(0)),
      Field("mtu", Int(0)),
      Field("name", Str("")),
      Field("description", Str(description))
    ];
    IndexOfIs(fs, "type", 1);
    IndexOfIs(fs, "used_for", 2);
    IndexOfIs(fs, "description", 6);
    fs
  }

  function PartB(ip: string): (r: seq<Field>)
    ensures Keys(r) == KeysB
    ensures Find(r, "ipv4_config") == Some(Ipv4Config(ip))
  {
    var fs := [
      Field("attached_lan_networks", Null),
      Field("site_wan_interface_ids", Null),
      Field("mac_address", Null),
      Field("ipv4_config", Ipv4Config(ip)),
      Field("ipv6_config", Null),
      Field("dhcp_relay", Null),
      Field("ethernet_port", Obj([Field("full_duplex", Bool(false)), Field("speed", Int(0))]))
    ];
    assert Keys(fs) == KeysB;
    KeyPlaces();
    IndexOfIs(fs, "ipv4_config", 3);
    fs
  }

  function PartC(vlan: string): (r: seq<Field>)
    ensures Keys(r) == KeysC
    ensures Find(r, "sub_interface") == Some(SubInterface(vlan))
  {
    var fs := [
      Field("admin_up", Bool(true)),
      Field("nat_address", Null),
      Field("nat_port", Null),
      Field("nat_address_v6", Null),
      Field("nat_port_v6", Int(0)),
      Field("bound_interfaces", Null),
      Field("sub_interface", SubInterface(vlan))
    ];
    IndexOfIs(fs, "sub_interface", 6);
    fs
  }

  function PartD(): (r: seq<Field>)
    ensures Keys(r) == KeysD
  {
    [
      Field("pppoe_config", Null),
      Field("network_context_id", Null),
      Field("bypass_pair", Null),
      Field("peer_bypasspair_wan_port_type", Str("none")),
      Field("port_channel_config", Null),
      Field("service_link_config", Null),
      Field("sgi_apply_static_tag", Null),
      Field("scope", Str("global"))
    ]
  }

  function PartE(): (r: seq<Field>)
    ensures Keys(r) == KeysE
  {
    [
      Field("tags", Null),
      Field("nat_zone_id", Null),
      Field("devicemgmt_policysetstack_id", Null),
      Field("nat_pools", Null),
      Field("directed_broadcast", Bool(false)),
      Field("ipfixcollectorcontext_id", Null),
      Field("ipfixfiltercontext_id", Null),
      Field("secondary_ip_configs", Null)
    ]
  }

  function PartF(): (r: seq<Field>)
    ensures Keys(r) == KeysF
  {
    [
      Field("static_arp_configs", Null),
      Field("cellular_config", Null),
      Field("multicast_config", Null),
      Field("poe_enabled", Bool(false)),
      Field("lldp_enabled", Null),
      Field("switch_port_config", Null),
      Field("authentication_config", Null),
      Field("vlan_config", Null),
      Field("interface_profile_id", Null)
    ]
  }

  function PartG(vrf: Value): (r: seq<Field>)
    ensures Keys(r) == KeysG
    ensures Find(r, "vrf_context_id") == Some(vrf)
  {
    [
      Field("vrf_context_id", vrf),
      Field("fec_mode", Null),
      Field("loopback_config", Null)
    ]
  }

  /** The whole body, the seven parts in order. */
  function BodyFields(parentId: Value, description: string, ip: string, vlan: string, vrf: Value): (r: seq<Field>)
    ensures Keys(r) == SubInterfaceKeys
  {
    var fs := PartA(parentId, description) + PartB(ip) + PartC(vlan) + PartD() + PartE() + PartF() + PartG(vrf);
    KeysAppend(PartA(parentId, description), PartB(ip));
    KeysAppend(PartA(parentId, description) + PartB(ip), PartC(vlan));
    KeysAppend(PartA(parentId, description) + PartB(ip) + PartC(vlan), PartD());
    KeysAppend(PartA(parentId, description) + PartB(ip) + PartC(vlan) + PartD(), PartE());
    KeysAppend(PartA(parentId, description) + PartB(ip) + PartC(vlan) + PartD() + PartE(), PartF());
    KeysAppend(PartA(parentId, description) + PartB(ip) + PartC(vlan) + PartD() + PartE() + PartF(), PartG(vrf));
    fs
  }

  /**
   * The request body for the new sub-interface, from the parent interface
   * object: `parent` is the parent's id and `vrf_context_id` the parent's
   * VRF context (None when it has none). A parent without an `id`, or
   * without the `name` the script prints, raises a KeyError.
   */
  function SubInterfacePayload(parent: Value, vlan: string, ip: string, desc: Option<string>): (r: Result<Value>)
    ensures r.Raise? <==> !Has(parent, "id") || !Has(parent, "name")
    ensures r.Ok? ==> KeysOf(r.value) == SubInterfaceKeys
    ensures r.Ok? ==> Get(r.value, "parent") == Some(At(parent, "id"))
    ensures r.Ok? ==> Get(r.value, "type") == Some(Str("subinterface")) && Get(r.value, "used_for") == Some(Str("lan"))
    ensures r.Ok? ==> Get(r.value, "description") == Some(Str(Description(desc, vlan)))
    ensures r.Ok? ==> At(At(r.value, "sub_interface"), "vlan_id") == Str(vlan)
    ensures r.Ok? ==> At(At(At(r.value, "ipv4_config"), "static_config"), "address") == Str(ip)
    ensures r.Ok? ==> Get(r.value, "vrf_context_id") == Some(At(parent, "vrf_context_id"))
  {
    if !Has(parent, "id") || !Has(parent, "name") then Raise("KeyError")
    else
      var fs := BodyFields(At(parent, "id"), Description(desc, vlan), ip, vlan, At(parent, "vrf_context_id"));
      PartsLookups(PartA(At(parent, "id"), Description(desc, vlan)), PartB(ip), PartC(vlan), PartD(), PartE(), PartF(),
                   PartG(At(parent, "vrf_context_id")));
      Ok(Obj(fs))
  }

  /** What `main` ends with: an exit naming what was not found, a KeyError, what a lookup raised, or the POST body. */
  datatype Request = Exit(what: string) | Missing(key: string) | Failed(error: string) | Post(payload: Value)

  /**
   * The lookups of `main` chained: the site, then the device among that
   * site's elements, then the parent among that device's interfaces
   * (`elementsOf` and `interfacesOf` stand for the GETs), then the body.
   */
  function SubInterfaceRequest(sites: seq<Value>, elementsOf: Value -> seq<Value>, interfacesOf: (Value, Value) -> seq<Value>,
                               site: string, device: string, iface: string,
                               vlan: string, ip: string, desc: Option<string>): (r: Request)
    ensures Inventory.FindItem(sites, site, Inventory.VlanKeys) == Ok(None) <==> r == Exit("Site")
    ensures Inventory.FindItem(sites, site, Inventory.VlanKeys).Raise? ==> r == Failed("AttributeError")
    ensures r.Post? ==> exists s, dev, p | s in sites && dev in elementsOf(At(s, "id")) && p in interfacesOf(At(s, "id"), At(dev, "id")) ::
              Inventory.Matches(s, Text.Fold(site), Inventory.VlanKeys) &&
              Inventory.Matches(dev, Text.Fold(device), Inventory.VlanKeys) &&
              Inventory.Matches(p, Text.Fold(iface), Inventory.VlanKeys) &&
              SubInterfacePayload(p, vlan, ip, desc) == Ok(r.payload)
  {
    match Inventory.FindItem(sites, site, Inventory.VlanKeys)
    case Raise(e) => Failed(e)
    case Ok(None) => Exit("Site")
    case Ok(Some(s)) =>
      if !Has(s, "id") then Missing("id")
      else DeviceRequest(At(s, "id"), elementsOf(At(s, "id")), interfacesOf, device, iface, vlan, ip, desc)
  }

  /** The part of `main` after the site is found: the device among its elements, then the parent and the body. */
  function DeviceRequest(siteId: Value, elements: seq<Value>, interfacesOf: (Value, Value) -> seq<Value>, device: string, iface: string,
                         vlan: string, ip: string, desc: Option<string>): (r: Request)
    ensures Inventory.FindItem(elements, device, Inventory.VlanKeys) == Ok(None) <==> r == Exit("Device")
    ensures r.Exit? ==> r.what in ["Device", "Interface"]
    ensures r.Post? ==> exists dev, p | dev in elements && p in interfacesOf(siteId, At(dev, "id")) ::
              Inventory.Matches(dev, Text.Fold(device), Inventory.VlanKeys) &&
              Inventory.Matches(p, Text.Fold(iface), Inventory.VlanKeys) &&
              SubInterfacePayload(p, vlan, ip, desc) == Ok(r.payload)
  {
    match Inventory.FindItem(elements, device, Inventory.VlanKeys)
    case Raise(e) => Failed(e)
    case Ok(None) => Exit("Device")
    case Ok(Some(dev)) =>
      if !Has(dev, "id") then Missing("id")
      else InterfaceRequest(interfacesOf(siteId, At(dev, "id")), iface, vlan, ip, desc)
  }

  /** The part of `main` after the device is found: the parent among its interfaces, then the body. */
  function InterfaceRequest(interfaces: seq<Value>, iface: string, vlan: string, ip: string, desc: Option<string>): (r: Request)
    ensures Inventory.FindItem(interfaces, iface, Inventory.VlanKeys) == Ok(None) <==> r == Exit("Interface")
    ensures r.Exit? ==> r.what == "Interface"
    ensures r.Post? ==> exists p | p in interfaces ::
              Inventory.Matches(p, Text.Fold(iface), Inventory.VlanKeys) && SubInterfacePayload(p, vlan, ip, desc) == Ok(r.payload)
  {
    match Inventory.FindItem(interfaces, iface, Inventory.VlanKeys)
    case Raise(e) => Failed(e)
    case Ok(None) => Exit("Interface")
    case Ok(Some(p)) =>
      var body := SubInterfacePayload(p, vlan, ip, desc);
      if body.Raise? then Missing(if Has(p, "id") then "name" else "id")
      else Post(body.value)
  }

  /** Where each stated key of the body is found: in its own part. */
  lemma PartsLookups(a: seq<Field>, b: seq<Field>, c: seq<Field>, d: seq<Field>, e: seq<Field>, f: seq<Field>, g: seq<Field>)
    requires Keys(a) == KeysA && Keys(b) == KeysB && Keys(c) == KeysC && Keys(d) == KeysD
    requires Keys(e) == KeysE && Keys(f) == KeysF
    ensures forall k | k in KeysA :: Find(a + b + c + d + e + f + g, k) == Find(a, k)
    ensures Find(a + b + c + d + e + f + g, "ipv4_config") == Find(b, "ipv4_config")
    ensures Find(a + b + c + d + e + f + g, "sub_interface") == Find(c, "sub_interface")
    ensures Find(a + b + c + d + e + f + g, "vrf_context_id") == Find(g, "vrf_context_id")
  {
    FrontKeys(a, b, c);
    FrontFinds(a, b, c);
    forall k | k in KeysA + KeysB + KeysC
      ensures Find(a + b + c + d + e + f + g, k) == Find(a + b + c, k)
    {
      FrontLookup(a + b + c, d, e, f, g, k);
    }
    assert "ipv4_config" in KeysB && "sub_interface" in KeysC;
    KeysAppend(a + b + c, d);
    KeysAppend(a + b + c + d, e);
    KeysAppend(a + b + c + d + e, f);
    VrfLookup(a + b + c + d + e + f, g);
  }

  lemma FrontKeys(a: seq<Field>, b: seq<Field>, c: seq<Field>)
    requires Keys(a) == KeysA && Keys(b) == KeysB && Keys(c) == KeysC
    ensures Keys(a + b + c) == KeysA + KeysB + KeysC
  {
    KeysAppend(a, b);
    KeysAppend(a + b, c);
  }

  /** A key of the first three parts is found there, whatever follows. */
  lemma FrontLookup(abc: seq<Field>, d: seq<Field>, e: seq<Field>, f: seq<Field>, g: seq<Field>, k: string)
    requires k in Keys(abc)
    ensures Find(abc + d + e + f + g, k) == Find(abc, k)
  {
    KeysAppend(abc, d);
    KeysAppend(abc + d, e);
    KeysAppend(abc + d + e, f);
    FindAppend(abc + d + e + f, g, k);
    FindAppend(abc + d + e, f, k);
    FindAppend(abc + d, e, k);
    FindAppend(abc, d, k);
  }

  /** Each key of the first three parts is found in its own part. */
  lemma FrontFinds(a: seq<Field>, b: seq<Field>, c: seq<Field>)
    requires Keys(a) == KeysA && Keys(b) == KeysB && Keys(c) == KeysC
    ensures forall k | k in KeysA :: Find(a + b + c, k) == Find(a, k)
    ensures Find(a + b + c, "ipv4_config") == Find(b, "ipv4_config")
    ensures Find(a + b + c, "sub_interface") == Find(c, "sub_interface")
  {
    FrontFindsFirst(a, b, c);
    KeyPlaces();
    FindAppend(a + b, c, "ipv4_config");
    FindAppend(a, b, "ipv4_config");
    FindAppend(a + b, c, "sub_interface");
  }

  /** Which part carries the IPv4 configuration and the sub-interface. */
  lemma KeyPlaces()
    ensures "ipv4_config" !in KeysA && "ipv4_config" in KeysB
    ensures "sub_interface" !in KeysA && "sub_interface" !in KeysB
    ensures forall j | 0 <= j < 3 :: KeysB[j] != "ipv4_config"
  {
    assert KeysB[3] == "ipv4_config";
  }

  /** The keys of the first part are found in it, whatever follows. */
  lemma FrontFindsFirst(a: seq<Field>, b: seq<Field>, c: seq<Field>)
    requires Keys(a) == KeysA
    ensures forall k | k in KeysA :: Find(a + b + c, k) == Find(a, k)
  {
    KeysAppend(a, b);
    forall k | k in KeysA
      ensures Find(a + b + c, k) == Find(a, k)
    {
      FindAppend(a + b, c, k);
      FindAppend(a, b, k);
    }
  }

  /** The VRF context comes from the last part: no earlier part has that key. */
  lemma VrfLookup(front: seq<Field>, g: seq<Field>)
    requires Keys(front) == KeysA + KeysB + KeysC + KeysD + KeysE + KeysF
    ensures Find(front + g, "vrf_context_id") == Find(g, "vrf_context_id")
  {
    assert "vrf_context_id" !in KeysA && "vrf_context_id" !in KeysB && "vrf_context_id" !in KeysC;
    assert "vrf_context_id" !in KeysD && "vrf_context_id" !in KeysE && "vrf_context_id" !in KeysF;
    FindAppend(front, g, "vrf_context_id");
  }
}
