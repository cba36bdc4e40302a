# Application Gateway builder

A Dafny model of `createApplicationGateway`, the function of aks-engine's template engine that builds
the Application Gateway resource of a cluster's deployment template from the cluster's Kubernetes addon list.
The resource has a fixed backbone:

- one gateway IP configuration on the gateway subnet;
- one HTTP frontend port on 80;
- one empty backend address pool;
- one HTTP listener;
- one HTTP backend settings block on port 80;
- one routing rule.

The listener and the rule refer to the other sub-resources by template expressions of the form
`[concat(variables('appGwId'), '/<collection>/<name>')]`. Two options of the ingress addon vary the result:

- `appgw-sku` set to a firewall tier adds a Web Application Firewall block, enabled, in detection mode.
- `appgw-private-ip` adds a second frontend IP configuration, named `privateIp`, after the public
  `frontendIP`. It carries the literal address.

The function's body is not part of this model. Its behaviour is taken from the three struct-equality tests in
`pkg/engine/applicationgateway_test.go`: no addons, `appgw-sku = WAF_v2`, and `appgw-private-ip = 10.0.0.1`.

Files:

- `wrappers.dfy`: `Option`, which stands in for Go's nil-able pointers.
- `arm.dfy` (module `Arm`): the resource as datatypes. It also holds the naming convention for sub-resource
  references (`SubResourceId`) and the consistency invariant `Consistent`. That invariant says there is one of
  each backbone entry, one or two frontends with distinct names, and every reference of the listener and the
  rule names an entry of the same gateway.
- `application_gateway.dfy` (module `ApplicationGateway`): the builder `CreateApplicationGateway`, the lookup
  of the ingress addon, and the properties that hold for every addon list.
- `application_gateway_test.dfy` (module `ApplicationGatewayTest`): the three expected gateways, with the
  template expressions spelled exactly as the tests spell them. Lemmas prove that the builder produces each one.

The tests leave some of the builder's choices open. The builder takes them as a `Context` parameter, so no rule
is invented for them:

- `ingressAddonName`: the value of `common.AppGwIngressAddonName`.
- `consults`: whether an addon with a given `Enabled` pointer is read at all.
- `isWafSku`: which `appgw-sku` values select the firewall.
- `requestsPrivateIp`: which `appgw-private-ip` values add the private frontend.

The scenario lemmas assume only what the tests fix:

- `consults(Some(true))`;
- `isWafSku("WAF_v2")`;
- `requestsPrivateIp("10.0.0.1")`.

An option key that is absent never has an effect. The tests fix this: each scenario lacks the other key, and
the default scenario has no addon.

The option keys are `appgw-sku` and `appgw-private-ip` (test lines 143 and 272). The SKU is the same in all
three tests (lines 40-44, 165-169 and 294-298), so the model never changes it. Which `appgw-sku` values select
the firewall is left as `Context.isWafSku`.

## Model

| member | source | states |
|---|---|---|
| `ApplicationGateway.CreateApplicationGateway` | pkg/engine/applicationgateway_test.go:45-119 | For every addon list the result is `Consistent`: one of each backbone sub-resource, one or two frontends with distinct names, and every listener and rule reference names an entry of the same tree. The first frontend is the public `frontendIP`. |
| `ApplicationGateway.FindAddon` | pkg/engine/applicationgateway_test.go:138-146 | The ingress addon is found by name: the result is the first position holding that name, or none when no addon has it. |
| `ApplicationGateway.IngressOptionMeaning` | pkg/engine/applicationgateway_test.go:267-275 | The builder reads option `key` as `v` exactly when the first addon with the ingress name is consulted and maps `key` to `v`. |
| `ApplicationGateway.OnlyTwoAxesVary` | pkg/engine/applicationgateway_test.go:28-123 | Compared with the no-addon result, any addon list changes only the frontend list and the firewall block. The resource part (API version, dependencies) and the head of the frontend list are unchanged. |
| `ApplicationGateway.DefaultShape` | pkg/engine/applicationgateway_test.go:55-64 | With no addon of the ingress name there is exactly one frontend, `frontendIP`, bound by ID to the public IP resource with no private address, and no firewall block. |
| `ApplicationGateway.SkuIsFixed` | pkg/engine/applicationgateway_test.go:40-44 | SKU name and tier are both `[parameters('appGwSku')]` and capacity is 2 for every addon list, so `appgw-sku` does not touch the SKU. |
| `ApplicationGateway.DependsOnPublicIpThenNetwork` | pkg/engine/applicationgateway_test.go:31-34 | `dependsOn` is exactly the public IP address, then the virtual network, for every addon list. |
| `ApplicationGateway.HttpOnPort80` | pkg/engine/applicationgateway_test.go:65-103 | The frontend port is 80, the listener speaks HTTP, the backend settings are HTTP on 80, and the backend pool has no addresses, for every addon list. |
| `ApplicationGateway.WafAxis` | pkg/engine/applicationgateway_test.go:245-248 | The firewall block is present if and only if the selected ingress addon sets `appgw-sku` to a firewall tier. When present it is enabled in detection mode. |
| `ApplicationGateway.PrivateIpAxis` | pkg/engine/applicationgateway_test.go:309-324 | There are two frontends if and only if the selected addon's `appgw-private-ip` requests one. They are then the unchanged public frontend followed by `privateIp`, which carries that literal address and no public IP reference. |
| `ApplicationGateway.SettingOneOptionKeepsOthers` | pkg/engine/applicationgateway_test.go:142-143 | Setting one option on any addon leaves every other option as the builder reads it. |
| `ApplicationGateway.PrivateIpOptionKeepsWaf` | pkg/engine/applicationgateway_test.go:309-323 | Setting `appgw-private-ip` on any addon leaves the firewall block as it was, so the two options add up rather than exclude each other. |
| `ApplicationGateway.SkuOptionKeepsFrontends` | pkg/engine/applicationgateway_test.go:180-189 | Setting `appgw-sku` on any addon leaves the frontend list as it was. |
| `ApplicationGateway.UnconsultedFirstAddonHidesLaterOnes` | pkg/engine/applicationgateway_test.go:138-146 | When the first addon with the ingress name is not consulted, later addons of that name are ignored and the result equals the no-addon result. |
| `ApplicationGateway.SameNamesSameLookup` | pkg/engine/applicationgateway_test.go:138-140 | The addon lookup depends only on the addons' names, not on their flags or options. |
| `ApplicationGateway.ListenerKeepsPublicFrontend` | pkg/engine/applicationgateway_test.go:349-351 | The listener's frontend reference names only the first frontend, the public one, even when the private frontend is present. |
| `Arm.SubResourceIdInjective` | pkg/engine/applicationgateway_test.go:86-91 | Within one collection, two names with the same sub-resource reference are the same name. |
| `Arm.FrontendReferenceIsUnambiguous` | pkg/engine/applicationgateway_test.go:309-351 | In a consistent gateway, a frontend reference names at most one of the frontend entries. |
| `ApplicationGatewayTest.FrontendPortReferenceFollowsConvention` | pkg/engine/applicationgateway_test.go:86-88 | The test's frontend-port reference is the convention's reference to `frontendPorts/httpPort`. |
| `ApplicationGatewayTest.FrontendIPReferenceFollowsConvention` | pkg/engine/applicationgateway_test.go:89-91 | The test's frontend-IP reference is the convention's reference to `frontendIPConfigurations/frontendIP`. |
| `ApplicationGatewayTest.ListenerReferenceFollowsConvention` | pkg/engine/applicationgateway_test.go:108-110 | The test's listener reference is the convention's reference to `httpListeners/httpListener`. |
| `ApplicationGatewayTest.PoolReferenceFollowsConvention` | pkg/engine/applicationgateway_test.go:111-113 | The test's pool reference is the convention's reference to `backendAddressPools/pool`. |
| `ApplicationGatewayTest.SettingsReferenceFollowsConvention` | pkg/engine/applicationgateway_test.go:114-116 | The test's settings reference is the convention's reference to `backendHttpSettingsCollection/setting`. |
| `ApplicationGatewayTest.TestCreateApplicationGateway` | pkg/engine/applicationgateway_test.go:18-131 | With no addons the builder returns exactly the expected default gateway, for every context. |
| `ApplicationGatewayTest.TestCreateApplicationGatewayWaf` | pkg/engine/applicationgateway_test.go:133-260 | The enabled ingress addon with `appgw-sku = WAF_v2` gives exactly the expected default gateway plus the enabled, detection-mode firewall block. |
| `ApplicationGatewayTest.TestCreateApplicationGatewayPrivateIp` | pkg/engine/applicationgateway_test.go:262-391 | The enabled ingress addon with `appgw-private-ip = 10.0.0.1` gives exactly the expected default gateway, with a `privateIp` frontend holding `10.0.0.1` after the public one and no firewall block. |

## Left out

- Evaluation of the template expressions (`[variables(...)]`, `[concat(...)]`, `[resourceId(...)]`). The
  deployment engine resolves them, so they are opaque strings here. The one exception is the form of the
  sub-resource references. That form is modelled as the naming convention `SubResourceId`.
- The Azure SDK `network.*` types and Go's pointer helpers. They are replaced by plain datatypes, `Option` for
  nil-able pointers, and `seq` for slices. Fields the builder leaves nil (subnets of frontends, TLS, probes, and
  so on) are not in the datatypes.
- Serialising the resource into template JSON, and deploying it. Both are I/O outside the builder.
- The rest of the cluster configuration. The builder takes only the addon list, so
  `CreateApplicationGateway(addons, context)` replaces `createApplicationGateway(properties)`.
- The value of `common.AppGwIngressAddonName` is not fixed; it is `Context.ingressAddonName`.
- The effect of `Enabled = false` or a missing `Enabled` is not fixed; it is `Context.consults`. The model
  assumes such an addon is either read or ignored as a whole.
- Which `appgw-sku` values other than `WAF_v2` select the firewall is not fixed; it is `Context.isWafSku`.
- Which `appgw-private-ip` values request a private frontend is not fixed; this covers the empty string and
  malformed addresses. It is `Context.requestsPrivateIp`. No IP address validation is modelled; a requested
  value is passed through literally.
- `FindAddon` takes the first addon with the ingress name. If that addon is not consulted, later addons with the
  same name are ignored. No test has two such addons, so this choice is not fixed by the tests.
- The `int32` width of port and capacity is kept as a range-limited type, `Int32`. The only values are 2 and 80,
  so no overflow can arise.
- Idempotence: the builder is a Dafny function, so equal inputs give equal results by construction. No lemma is
  stated for it.
