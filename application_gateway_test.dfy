/** The three expected gateways of the builder's tests, written out with the
    template expressions exactly as the tests spell them, and the lemmas that
    the builder produces each of them. */
module ApplicationGatewayTest {
  import opened Wrappers
  import opened Arm
  import opened ApplicationGateway

  /** The gateway expected when the cluster has no addons. */
  function ExpectedDefault(): ApplicationGatewayArm
  {
    ApplicationGatewayArm(
      ArmResource(
        "[variables('apiVersionNetwork')]",
        [ "[concat('Microsoft.Network/publicIPAddresses/', variables('appGwPublicIPAddressName'))]",
          "[concat('Microsoft.Network/virtualNetworks/', variables('virtualNetworkName'))]" ]),
      ApplicationGateway(
        "[variables('location')]",
        "[variables('appGwName')]",
        Sku("[parameters('appGwSku')]", "[parameters('appGwSku')]", 2),
        [GatewayIPConfiguration("gatewayIP",
          SubResource("[concat(variables('vnetID'),'/subnets/',variables('appGwSubnetName'))]"))],
        [FrontendIPConfiguration("frontendIP",
          Some(SubResource("[resourceId('Microsoft.Network/publicIpAddresses',variables('appGwPublicIPAddressName'))]")),
          None)],
        [FrontendPort("httpPort", 80)],
        [BackendAddressPool("pool", [])],
        [HttpListener("httpListener", Http,
          SubResource("[concat(variables('appGwId'), '/frontendPorts/httpPort')]"),
          SubResource("[concat(variables('appGwId'), '/frontendIPConfigurations/frontendIP')]"))],
        [BackendHttpSettings("setting", 80, Http)],
        [RequestRoutingRule("rule",
          SubResource("[concat(variables('appGwId'), '/httpListeners/httpListener')]"),
          SubResource("[concat(variables('appGwId'), '/backendAddressPools/pool')]"),
          SubResource("[concat(variables('appGwId'), '/backendHttpSettingsCollection/setting')]"))],
        None,
        "Microsoft.Network/applicationGateways"))
  }

  /** The gateway expected with `appgw-sku = WAF_v2`: the default plus an
      enabled firewall in detection mode. */
  function ExpectedWaf(): ApplicationGatewayArm
  {
    var d := ExpectedDefault();
    d.(gateway := d.gateway.(webApplicationFirewallConfiguration := Some(WafConfiguration(true, Detection))))
  }

  /** The gateway expected with `appgw-private-ip = 10.0.0.1`: the default with
      a second, literal private frontend after the public one. */
  function ExpectedPrivateIp(): ApplicationGatewayArm
  {
    var d := ExpectedDefault();
    d.(gateway := d.gateway.(frontendIPConfigurations := d.gateway.frontendIPConfigurations + [
      FrontendIPConfiguration("privateIp", None, Some("10.0.0.1"))]))
  }

  function IngressAddon(c: Context, config: map<string, string>): Addon
  {
    Addon(c.ingressAddonName, Some(true), config)
  }

  // The test-spelled sub-resource references follow the naming convention.

  lemma FrontendPortReferenceFollowsConvention()
    ensures SubResourceId(FrontendPortsKind, "httpPort") == "[concat(variables('appGwId'), '/frontendPorts/httpPort')]"
  {
  }

  lemma FrontendIPReferenceFollowsConvention()
    ensures SubResourceId(FrontendIPConfigurationsKind, "frontendIP") == "[concat(variables('appGwId'), '/frontendIPConfigurations/frontendIP')]"
  {
  }

  lemma ListenerReferenceFollowsConvention()
    ensures SubResourceId(HttpListenersKind, "httpListener") == "[concat(variables('appGwId'), '/httpListeners/httpListener')]"
  {
  }

  lemma PoolReferenceFollowsConvention()
    ensures SubResourceId(BackendAddressPoolsKind, "pool") == "[concat(variables('appGwId'), '/backendAddressPools/pool')]"
  {
  }

  lemma SettingsReferenceFollowsConvention()
    ensures SubResourceId(BackendHttpSettingsKind, "setting") == "[concat(variables('appGwId'), '/backendHttpSettingsCollection/setting')]"
  {
  }

  lemma TestCreateApplicationGateway(c: Context)
    ensures CreateApplicationGateway([], c) == ExpectedDefault()
  {
    FrontendPortReferenceFollowsConvention();
    FrontendIPReferenceFollowsConvention();
    ListenerReferenceFollowsConvention();
    PoolReferenceFollowsConvention();
    SettingsReferenceFollowsConvention();
  }

  lemma TestCreateApplicationGatewayWaf(c: Context)
    requires c.consults(Some(true)) && c.isWafSku("WAF_v2")
    ensures CreateApplicationGateway([IngressAddon(c, map["appgw-sku" := "WAF_v2"])], c) == ExpectedWaf()
  {
    TestCreateApplicationGateway(c);
    assert "appgw-private-ip" != "appgw-sku" by { assert |"appgw-private-ip"| != |"appgw-sku"|; }
  }

  lemma TestCreateApplicationGatewayPrivateIp(c: Context)
    requires c.consults(Some(true)) && c.requestsPrivateIp("10.0.0.1")
    ensures CreateApplicationGateway([IngressAddon(c, map["appgw-private-ip" := "10.0.0.1"])], c) == ExpectedPrivateIp()
  {
    TestCreateApplicationGateway(c);
    assert "appgw-private-ip" != "appgw-sku" by { assert |"appgw-private-ip"| != |"appgw-sku"|; }
  }
}
