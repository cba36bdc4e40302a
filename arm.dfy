/** The Application Gateway resource of a deployment template, reduced to the
    fields the gateway builder fills in, together with the naming convention by
    which one sub-resource refers to another and the consistency invariant that
    every such reference must satisfy. */
module Arm {
  import opened Wrappers

  /** The source's `int32` fields (port, capacity). */
  newtype Int32 = x: int | -0x8000_0000 <= x < 0x8000_0000

  /** A reference to another resource or sub-resource, by template expression. */
  datatype SubResource = SubResource(id: string)

  datatype Sku = Sku(name: string, tier: string, capacity: Int32)

  datatype GatewayIPConfiguration = GatewayIPConfiguration(name: string, subnet: SubResource)

  /** A frontend is either bound to a public IP resource or carries a literal private address. */
  datatype FrontendIPConfiguration = FrontendIPConfiguration(
    name: string,
    publicIPAddress: Option<SubResource>,
    privateIPAddress: Option<string>)

  datatype FrontendPort = FrontendPort(name: string, port: Int32)

  datatype BackendAddress = BackendAddress(fqdn: Option<string>, ipAddress: Option<string>)

  datatype BackendAddressPool = BackendAddressPool(name: string, backendAddresses: seq<BackendAddress>)

  datatype Protocol = Http | Https

  datatype HttpListener = HttpListener(
    name: string,
    protocol: Protocol,
    frontendPort: SubResource,
    frontendIPConfiguration: SubResource)

  datatype BackendHttpSettings = BackendHttpSettings(name: string, port: Int32, protocol: Protocol)

  datatype RequestRoutingRule = RequestRoutingRule(
    name: string,
    httpListener: SubResource,
    backendAddressPool: SubResource,
    backendHttpSettings: SubResource)

  datatype FirewallMode = Detection | Prevention

  datatype WafConfiguration = WafConfiguration(enabled: bool, firewallMode: FirewallMode)

  datatype ApplicationGateway = ApplicationGateway(
    location: string,
    name: string,
    sku: Sku,
    gatewayIPConfigurations: seq<GatewayIPConfiguration>,
    frontendIPConfigurations: seq<FrontendIPConfiguration>,
    frontendPorts: seq<FrontendPort>,
    backendAddressPools: seq<BackendAddressPool>,
    httpListeners: seq<HttpListener>,
    backendHttpSettingsCollection: seq<BackendHttpSettings>,
    requestRoutingRules: seq<RequestRoutingRule>,
    webApplicationFirewallConfiguration: Option<WafConfiguration>,
    resourceType: string)

  /** The generic part of every template resource. */
  datatype ArmResource = ArmResource(apiVersion: string, dependsOn: seq<string>)

  datatype ApplicationGatewayArm = ApplicationGatewayArm(resource: ArmResource, gateway: ApplicationGateway)

  // ---------------------------------------------------------------------------
  // Naming convention for references between sub-resources of one gateway

  const FrontendPortsKind := "frontendPorts"
  const FrontendIPConfigurationsKind := "frontendIPConfigurations"
  const HttpListenersKind := "httpListeners"
  const BackendAddressPoolsKind := "backendAddressPools"
  const BackendHttpSettingsKind := "backendHttpSettingsCollection"

  /** The template expression naming the sub-resource `name` of collection `kind`
      inside the gateway being deployed. */
  function SubResourceId(kind: string, name: string): string
  {
    "[concat(variables('appGwId'), '/" + kind + "/" + name + "')]"
  }

  /** Within one collection kind, an identifier names at most one sub-resource. */
  lemma {:induction false} SubResourceIdInjective(kind: string, n1: string, n2: string)
    requires SubResourceId(kind, n1) == SubResourceId(kind, n2)
    ensures n1 == n2
  {
    var head := "[concat(variables('appGwId'), '/" + kind + "/";
    var s1, s2 := SubResourceId(kind, n1), SubResourceId(kind, n2);
    assert s1 == head + n1 + "')]";
    assert s2 == head + n2 + "')]";
    assert |n1| == |n2|;
    assert s1[|head|..|head| + |n1|] == n1;
    assert s2[|head|..|head| + |n2|] == n2;
  }

  predicate RefersTo(ref: SubResource, kind: string, name: string)
  {
    ref.id == SubResourceId(kind, name)
  }

  /** No two frontend IP configurations share a name. */
  predicate DistinctFrontendNames(g: ApplicationGateway)
  {
    forall i, j :: 0 <= i < j < |g.frontendIPConfigurations| ==>
      g.frontendIPConfigurations[i].name != g.frontendIPConfigurations[j].name
  }

  predicate ResolvesToFrontendPort(g: ApplicationGateway, ref: SubResource)
  {
    exists i :: 0 <= i < |g.frontendPorts| && RefersTo(ref, FrontendPortsKind, g.frontendPorts[i].name)
  }

  predicate ResolvesToFrontendIP(g: ApplicationGateway, ref: SubResource)
  {
    exists i :: 0 <= i < |g.frontendIPConfigurations| && RefersTo(ref, FrontendIPConfigurationsKind, g.frontendIPConfigurations[i].name)
  }

  predicate ResolvesToListener(g: ApplicationGateway, ref: SubResource)
  {
    exists i :: 0 <= i < |g.httpListeners| && RefersTo(ref, HttpListenersKind, g.httpListeners[i].name)
  }

  predicate ResolvesToPool(g: ApplicationGateway, ref: SubResource)
  {
    exists i :: 0 <= i < |g.backendAddressPools| && RefersTo(ref, BackendAddressPoolsKind, g.backendAddressPools[i].name)
  }

  predicate ResolvesToSettings(g: ApplicationGateway, ref: SubResource)
  {
    exists i :: 0 <= i < |g.backendHttpSettingsCollection| && RefersTo(ref, BackendHttpSettingsKind, g.backendHttpSettingsCollection[i].name)
  }

  /** Every reference held by a listener or a routing rule names an entry of the
      same gateway. */
  predicate ReferencesResolve(g: ApplicationGateway)
  {
    && (forall l :: l in g.httpListeners ==>
          ResolvesToFrontendPort(g, l.frontendPort) && ResolvesToFrontendIP(g, l.frontendIPConfiguration))
    && (forall r :: r in g.requestRoutingRules ==>
          ResolvesToListener(g, r.httpListener) && ResolvesToPool(g, r.backendAddressPool)
          && ResolvesToSettings(g, r.backendHttpSettings))
  }

  /** The fixed backbone: one of each sub-resource except the frontend IP
      configurations, of which there are one or two. */
  predicate SingletonBackbone(g: ApplicationGateway)
  {
    && |g.gatewayIPConfigurations| == 1
    && 1 <= |g.frontendIPConfigurations| <= 2
    && |g.frontendPorts| == 1
    && |g.backendAddressPools| == 1
    && |g.httpListeners| == 1
    && |g.backendHttpSettingsCollection| == 1
    && |g.requestRoutingRules| == 1
  }

  /** The structural invariant of a generated gateway. */
  predicate Consistent(g: ApplicationGateway)
  {
    SingletonBackbone(g) && DistinctFrontendNames(g) && ReferencesResolve(g)
  }

  /** In a consistent gateway a frontend IP reference picks out exactly one entry. */
  lemma FrontendReferenceIsUnambiguous(g: ApplicationGateway, ref: SubResource, i: nat, j: nat)
    requires Consistent(g)
    requires i < |g.frontendIPConfigurations| && j < |g.frontendIPConfigurations|
    requires RefersTo(ref, FrontendIPConfigurationsKind, g.frontendIPConfigurations[i].name)
    requires RefersTo(ref, FrontendIPConfigurationsKind, g.frontendIPConfigurations[j].name)
    ensures i == j
  {
    SubResourceIdInjective(FrontendIPConfigurationsKind, g.frontendIPConfigurations[i].name, g.frontendIPConfigurations[j].name);
  }
}
