/** The builder of the Application Gateway resource: from the cluster's addon
    list to the gateway definition that the deployment template carries.

    The builder's choices that the expected outputs do not fix are parameters,
    gathered in a `Context`: the name of the ingress addon, whether an addon with
    a given `Enabled` flag is consulted at all, which `appgw-sku` values select a
    Web Application Firewall tier, and which `appgw-private-ip` values request a
    private frontend. The tests fix only that an addon with `Enabled = true` is
    consulted, that `WAF_v2` is a firewall tier and that `10.0.0.1` requests a
    private frontend; the scenario lemmas assume exactly those points. */
module ApplicationGateway {
  import opened Wrappers
  import opened Arm

  /** An addon of the cluster's Kubernetes configuration; `enabled` is the
      source's optional boolean. */
  datatype Addon = Addon(name: string, enabled: Option<bool>, config: map<string, string>)

  datatype Context = Context(
    ingressAddonName: string,
    consults: Option<bool> -> bool,
    isWafSku: string -> bool,
    requestsPrivateIp: string -> bool)

  const SkuOption := "appgw-sku"
  const PrivateIpOption := "appgw-private-ip"

  // ---------------------------------------------------------------------------
  // Template expressions, kept as opaque literals

  const ApiVersionNetwork := "[variables('apiVersionNetwork')]"
  const PublicIpDependency := "[concat('Microsoft.Network/publicIPAddresses/', variables('appGwPublicIPAddressName'))]"
  const VirtualNetworkDependency := "[concat('Microsoft.Network/virtualNetworks/', variables('virtualNetworkName'))]"
  const LocationVariable := "[variables('location')]"
  const NameVariable := "[variables('appGwName')]"
  const SkuParameter := "[parameters('appGwSku')]"
  const SubnetId := "[concat(variables('vnetID'),'/subnets/',variables('appGwSubnetName'))]"
  const PublicIpId := "[resourceId('Microsoft.Network/publicIpAddresses',variables('appGwPublicIPAddressName'))]"
  const GatewayType := "Microsoft.Network/applicationGateways"

  const GatewayIPName := "gatewayIP"
  const PublicFrontendName := "frontendIP"
  const PrivateFrontendName := "privateIp"
  const HttpPortName := "httpPort"
  const PoolName := "pool"
  const ListenerName := "httpListener"
  const SettingsName := "setting"
  const RuleName := "rule"

  const PublicFrontend := FrontendIPConfiguration(PublicFrontendName, Some(SubResource(PublicIpId)), None)

  function PrivateFrontend(address: string): FrontendIPConfiguration
  {
    FrontendIPConfiguration(PrivateFrontendName, None, Some(address))
  }

  // ---------------------------------------------------------------------------
  // Reading the ingress addon's options

  /** The position of the first addon called `name`, if any. */
  function FindAddon(addons: seq<Addon>, name: string): (r: Option<nat>)
    ensures r.Some? ==> r.value < |addons| && addons[r.value].name == name
    ensures r.Some? ==> forall j :: 0 <= j < r.value ==> addons[j].name != name
    ensures r.None? ==> forall j :: 0 <= j < |addons| ==> addons[j].name != name
  {
    if |addons| == 0 then None
    else if addons[0].name == name then Some(0)
    else match FindAddon(addons[1..], name)
      case None => None
      case Some(i) => Some(i + 1)
  }

  /** The value of option `key` of the ingress addon, when that addon exists,
      is consulted and sets the key. */
  function IngressOption(addons: seq<Addon>, c: Context, key: string): Option<string>
  {
    match FindAddon(addons, c.ingressAddonName)
    case None => None
    case Some(i) =>
      var a := addons[i];
      if c.consults(a.enabled) && key in a.config then Some(a.config[key]) else None
  }

  function WafRequested(addons: seq<Addon>, c: Context): bool
  {
    match IngressOption(addons, c, SkuOption)
    case None => false
    case Some(sku) => c.isWafSku(sku)
  }

  function RequestedPrivateIp(addons: seq<Addon>, c: Context): Option<string>
  {
    match IngressOption(addons, c, PrivateIpOption)
    case None => None
    case Some(ip) => if c.requestsPrivateIp(ip) then Some(ip) else None
  }

  // ---------------------------------------------------------------------------
  // The builder

  function CreateApplicationGateway(addons: seq<Addon>, c: Context): (r: ApplicationGatewayArm)
    ensures Consistent(r.gateway)
    ensures r.gateway.frontendIPConfigurations[0] == PublicFrontend
  {
    var frontends := [PublicFrontend] + match RequestedPrivateIp(addons, c)
      case None => []
      case Some(ip) => [PrivateFrontend(ip)];
    var waf := if WafRequested(addons, c) then Some(WafConfiguration(true, Detection)) else None;
    var g := ApplicationGateway(
      LocationVariable,
      NameVariable,
      Sku(SkuParameter, SkuParameter, 2),
      [GatewayIPConfiguration(GatewayIPName, SubResource(SubnetId))],
      frontends,
      [FrontendPort(HttpPortName, 80)],
      [BackendAddressPool(PoolName, [])],
      [HttpListener(ListenerName, Http,
                    SubResource(SubResourceId(FrontendPortsKind, HttpPortName)),
                    SubResource(SubResourceId(FrontendIPConfigurationsKind, PublicFrontendName)))],
      [BackendHttpSettings(SettingsName, 80, Http)],
      [RequestRoutingRule(RuleName,
                          SubResource(SubResourceId(HttpListenersKind, ListenerName)),
                          SubResource(SubResourceId(BackendAddressPoolsKind, PoolName)),
                          SubResource(SubResourceId(BackendHttpSettingsKind, SettingsName)))],
      waf,
      GatewayType);
    assert ResolvesToFrontendPort(g, g.httpListeners[0].frontendPort) by {
      assert RefersTo(g.httpListeners[0].frontendPort, FrontendPortsKind, g.frontendPorts[0].name);
    }
    assert ResolvesToFrontendIP(g, g.httpListeners[0].frontendIPConfiguration) by {
      assert RefersTo(g.httpListeners[0].frontendIPConfiguration, FrontendIPConfigurationsKind, g.frontendIPConfigurations[0].name);
    }
    assert ResolvesToListener(g, g.requestRoutingRules[0].httpListener) by {
      assert RefersTo(g.requestRoutingRules[0].httpListener, HttpListenersKind, g.httpListeners[0].name);
    }
    assert ResolvesToPool(g, g.requestRoutingRules[0].backendAddressPool) by {
      assert RefersTo(g.requestRoutingRules[0].backendAddressPool, BackendAddressPoolsKind, g.backendAddressPools[0].name);
    }
    assert ResolvesToSettings(g, g.requestRoutingRules[0].backendHttpSettings) by {
      assert RefersTo(g.requestRoutingRules[0].backendHttpSettings, BackendHttpSettingsKind, g.backendHttpSettingsCollection[0].name);
    }
    assert PublicFrontendName != PrivateFrontendName by {
      assert PublicFrontendName[0] != PrivateFrontendName[0];
    }
    ApplicationGatewayArm(ArmResource(ApiVersionNetwork, [PublicIpDependency, VirtualNetworkDependency]), g)
  }

  // ---------------------------------------------------------------------------
  // Independent characterisation of which option values take effect

  /** Addon `i` is the one the builder reads: the first with the ingress name,
      and one that is consulted. */
  ghost predicate Selected(addons: seq<Addon>, c: Context, i: int)
  {
    && 0 <= i < |addons|
    && addons[i].name == c.ingressAddonName
    && (forall j :: 0 <= j < i ==> addons[j].name != c.ingressAddonName)
    && c.consults(addons[i].enabled)
  }

  /** The selected ingress addon sets option `key` to `v`. */
  ghost predicate OptionSet(addons: seq<Addon>, c: Context, key: string, v: string)
  {
    exists i :: Selected(addons, c, i) && key in addons[i].config && addons[i].config[key] == v
  }

  lemma IngressOptionMeaning(addons: seq<Addon>, c: Context, key: string)
    ensures forall v :: IngressOption(addons, c, key) == Some(v) <==> OptionSet(addons, c, key, v)
  {
    var found := FindAddon(addons, c.ingressAddonName);
    forall v ensures IngressOption(addons, c, key) == Some(v) <==> OptionSet(addons, c, key, v) {
      if OptionSet(addons, c, key, v) {
        var i :| Selected(addons, c, i) && key in addons[i].config && addons[i].config[key] == v;
        assert found == Some(i);
      }
      if IngressOption(addons, c, key) == Some(v) {
        assert Selected(addons, c, found.value);
      }
    }
  }

  // ---------------------------------------------------------------------------
  // Properties of the builder over all addon lists

  /** Only the frontend IP list and the firewall block vary with the addons;
      every other field, and the public frontend at the head of the list, is
      what the builder produces with no addons at all. */
  lemma OnlyTwoAxesVary(addons: seq<Addon>, c: Context)
    ensures var d := CreateApplicationGateway([], c);
            var r := CreateApplicationGateway(addons, c);
            && r.resource == d.resource
            && r.gateway.(frontendIPConfigurations := d.gateway.frontendIPConfigurations,
                          webApplicationFirewallConfiguration := None) == d.gateway
            && r.gateway.frontendIPConfigurations[0] == d.gateway.frontendIPConfigurations[0]
  {
  }

  /** With no ingress addon to consult the result is the default shape: a single
      frontend bound to the public IP resource and no firewall. */
  lemma DefaultShape(addons: seq<Addon>, c: Context)
    requires forall j :: 0 <= j < |addons| ==> addons[j].name != c.ingressAddonName
    ensures var g := CreateApplicationGateway(addons, c).gateway;
            && g.frontendIPConfigurations == [FrontendIPConfiguration(PublicFrontendName, Some(SubResource(PublicIpId)), None)]
            && g.webApplicationFirewallConfiguration.None?
  {
  }

  /** The SKU ignores `appgw-sku`: name and tier are the template parameter and
      the capacity is two, whatever the addons. */
  lemma SkuIsFixed(addons: seq<Addon>, c: Context)
    ensures CreateApplicationGateway(addons, c).gateway.sku == Sku("[parameters('appGwSku')]", "[parameters('appGwSku')]", 2)
  {
  }

  /** The resource depends on the public IP address, then the virtual network. */
  lemma DependsOnPublicIpThenNetwork(addons: seq<Addon>, c: Context)
    ensures CreateApplicationGateway(addons, c).resource.dependsOn == [
      "[concat('Microsoft.Network/publicIPAddresses/', variables('appGwPublicIPAddressName'))]",
      "[concat('Microsoft.Network/virtualNetworks/', variables('virtualNetworkName'))]"]
  {
  }

  /** The frontend port and the backend settings speak HTTP on port 80, and the
      backend pool starts without addresses. */
  lemma HttpOnPort80(addons: seq<Addon>, c: Context)
    ensures var g := CreateApplicationGateway(addons, c).gateway;
            && g.frontendPorts[0].port == 80
            && g.httpListeners[0].protocol == Http
            && g.backendHttpSettingsCollection[0] == BackendHttpSettings(g.backendHttpSettingsCollection[0].name, 80, Http)
            && g.backendAddressPools[0].backendAddresses == []
  {
  }

  /** The firewall block is present exactly when the selected ingress addon's
      `appgw-sku` is a firewall tier, and it is then enabled in detection mode. */
  lemma WafAxis(addons: seq<Addon>, c: Context)
    ensures var waf := CreateApplicationGateway(addons, c).gateway.webApplicationFirewallConfiguration;
            && (waf.Some? <==> exists v :: OptionSet(addons, c, SkuOption, v) && c.isWafSku(v))
            && (waf.Some? ==> waf.value == WafConfiguration(true, Detection))
  {
    IngressOptionMeaning(addons, c, SkuOption);
  }

  /** A second frontend appears exactly when the selected ingress addon's
      `appgw-private-ip` requests one; it follows the public frontend and carries
      that literal address and no public IP reference. */
  lemma PrivateIpAxis(addons: seq<Addon>, c: Context)
    ensures var fs := CreateApplicationGateway(addons, c).gateway.frontendIPConfigurations;
            && (|fs| == 2 <==> exists v :: OptionSet(addons, c, PrivateIpOption, v) && c.requestsPrivateIp(v))
            && (forall v :: OptionSet(addons, c, PrivateIpOption, v) && c.requestsPrivateIp(v) ==>
                  fs == [PublicFrontend, FrontendIPConfiguration("privateIp", None, Some(v))])
  {
    IngressOptionMeaning(addons, c, PrivateIpOption);
  }

  /** Setting one option on any addon leaves every other option as the builder
      reads it. */
  lemma SettingOneOptionKeepsOthers(addons: seq<Addon>, c: Context, i: nat, key: string, v: string, other: string)
    requires i < |addons| && other != key
    ensures var updated := addons[i := addons[i].(config := addons[i].config[key := v])];
            IngressOption(updated, c, other) == IngressOption(addons, c, other)
  {
    var updated := addons[i := addons[i].(config := addons[i].config[key := v])];
    SameNamesSameLookup(addons, updated, c.ingressAddonName);
  }

  /** Setting `appgw-private-ip` leaves the firewall block alone. */
  lemma PrivateIpOptionKeepsWaf(addons: seq<Addon>, c: Context, i: nat, v: string)
    requires i < |addons|
    ensures var withIp := addons[i := addons[i].(config := addons[i].config[PrivateIpOption := v])];
            CreateApplicationGateway(withIp, c).gateway.webApplicationFirewallConfiguration
              == CreateApplicationGateway(addons, c).gateway.webApplicationFirewallConfiguration
  {
    assert SkuOption != PrivateIpOption by { assert |SkuOption| != |PrivateIpOption|; }
    SettingOneOptionKeepsOthers(addons, c, i, PrivateIpOption, v, SkuOption);
  }

  /** Setting `appgw-sku` leaves the frontend list alone. */
  lemma SkuOptionKeepsFrontends(addons: seq<Addon>, c: Context, i: nat, v: string)
    requires i < |addons|
    ensures var withSku := addons[i := addons[i].(config := addons[i].config[SkuOption := v])];
            CreateApplicationGateway(withSku, c).gateway.frontendIPConfigurations
              == CreateApplicationGateway(addons, c).gateway.frontendIPConfigurations
  {
    assert SkuOption != PrivateIpOption by { assert |SkuOption| != |PrivateIpOption|; }
    SettingOneOptionKeepsOthers(addons, c, i, SkuOption, v, PrivateIpOption);
  }

  /** Only the first addon with the ingress name is ever read: when it is not
      consulted, every later addon of that name is ignored and the result is
      the one for no addons at all. */
  lemma UnconsultedFirstAddonHidesLaterOnes(addons: seq<Addon>, c: Context, i: nat)
    requires i < |addons| && addons[i].name == c.ingressAddonName
    requires forall j :: 0 <= j < i ==> addons[j].name != c.ingressAddonName
    requires !c.consults(addons[i].enabled)
    ensures CreateApplicationGateway(addons, c) == CreateApplicationGateway([], c)
  {
    assert FindAddon(addons, c.ingressAddonName) == Some(i);
  }

  /** The addon lookup sees only the names. */
  lemma {:induction false} SameNamesSameLookup(a1: seq<Addon>, a2: seq<Addon>, name: string)
    requires |a1| == |a2|
    requires forall j :: 0 <= j < |a1| ==> a1[j].name == a2[j].name
    ensures FindAddon(a1, name) == FindAddon(a2, name)
  {
    if |a1| > 0 && a1[0].name != name {
      SameNamesSameLookup(a1[1..], a2[1..], name);
    }
  }

  /** The listener goes on referring to the public frontend when a private one
      is added: the only frontend its reference names is the public one. */
  lemma ListenerKeepsPublicFrontend(addons: seq<Addon>, c: Context, k: nat)
    ensures var g := CreateApplicationGateway(addons, c).gateway;
            k < |g.frontendIPConfigurations|
            && RefersTo(g.httpListeners[0].frontendIPConfiguration, FrontendIPConfigurationsKind, g.frontendIPConfigurations[k].name)
            ==> k == 0 && g.frontendIPConfigurations[k].publicIPAddress == Some(SubResource(PublicIpId))
                && g.frontendIPConfigurations[k].privateIPAddress.None?
  {
    var g := CreateApplicationGateway(addons, c).gateway;
    assert PrivateFrontendName != PublicFrontendName by {
      assert PrivateFrontendName[0] != PublicFrontendName[0];
    }
    if k < |g.frontendIPConfigurations|
       && RefersTo(g.httpListeners[0].frontendIPConfiguration, FrontendIPConfigurationsKind, g.frontendIPConfigurations[k].name)
    {
      SubResourceIdInjective(FrontendIPConfigurationsKind, g.frontendIPConfigurations[k].name, PublicFrontendName);
    }
  }
}
