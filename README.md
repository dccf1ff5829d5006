# Resource IDs and OpenShift profile mapping, modelled in Dafny

This project models two parts of the Terraform provider for Azure.

**The resource-ID codec.** Every managed resource is keyed by a slash-delimited
resource path such as
`/subscriptions/{SubscriptionId}/resourceGroups/{ResourceGroup}/providers/Microsoft.ContainerRegistry/registries/{RegistryName}/tasks/{TaskName}/schedule/{ScheduleName}`.
For each ID type the provider generates three things: a record of named
fields, a formatter `.ID()`, and a parser `XxxID(input)`.

- Module `ResourceIds` holds one generic formatter and parser, driven by a
  `Shape`. A shape is the declared list of path components, each a fixed
  `Literal(token)` or a named `Value(fieldName)`.
  - `Format` writes each component in order, each preceded by `/`.
  - `Parse` does four things:
    - it rejects the empty string;
    - it splits on `/` like Go's `strings.Split`;
    - it requires a leading `/`;
    - it walks the shape in lockstep with the pieces. Literals must match
      exactly and case-sensitively, values must be non-empty, and nothing may
      be left over.
- Two ID types instantiate it:
  - `ContainerRegistryTaskSchedule`, with five values;
  - `ManagedInstancesSecurityAlertPolicy`, with four values.
- Each instance proves every row of its generated fixture table:
  - the formatter example;
  - the empty input;
  - every truncation that ends in `/`, for any well-formed values and not
    only the example's;
  - the valid example;
  - the upper-cased example.
- Each instance also proves the general laws behind that table:
  - the round trip;
  - "accepts exactly the canonical strings";
  - rejection of any whole ID upper-cased.

**The OpenShift expand/flatten helpers** (module `RedHatOpenShift`). These map
between the Terraform configuration blocks of `azurerm_redhatopenshift_cluster`
and the records of the Azure SDK.

- The SDK records are datatypes, with `Option` for reference fields.
- The SDK's string enums are string-wrapping datatypes.
- Go's `int32(...)` conversion is an explicit two's-complement wrap.
- A configuration block as `d.Get` returns it is a sequence of records, and an
  expander reads its first element.
- The two flatteners that loop, for worker and ingress profiles, are methods
  with `while` loops. Each is proved equal to a list function that flattens
  profile by profile.
- Each expander has a round-trip lemma stating what Terraform reads back after
  the block was sent: defaults, the random domain name, and the booleans
  converted through the enabled/disabled enums.

The CRUD handlers appear in two ways: as call sites of the cluster-ID codec,
and through the update request that the update handler builds. Their
cluster-ID shape is a parameter of the model, because its literal tokens are
not part of this model.

Literal tokens match case-sensitively. Both fixture tables reject the
upper-cased ID (container_registry_task_schedule_test.go:108-112,
managed_instances_security_alert_policy_test.go:95-99). The values in that ID
are arbitrary, so only the literals can cause the rejection.

## Model

| member | source | states |
|---|---|---|
| ResourceIds.Format | internal/services/containers/parse/container_registry_task_schedule_test.go:16-22 | The canonical string is empty exactly for a shape with no components, and otherwise starts with '/'. Its exact text is given by `FormatJoin`. |
| ResourceIds.Walk | internal/services/containers/parse/container_registry_task_schedule_test.go:115-145 | A successful walk has consumed one piece per component and returns one value per declared value. |
| ResourceIds.Parse | internal/services/containers/parse/container_registry_task_schedule_test.go:30-34 | The empty string is rejected with EmptyInput, and a successful parse returns one value per declared value. What it accepts is stated by `ParseIff`. |
| ResourceIds.ParseFormat | internal/services/containers/parse/container_registry_task_schedule_test.go:96-106 | Parsing the formatted ID of any valid shape with non-empty, slash-free values gives back exactly those values, in order and case-preserved. |
| ResourceIds.FormatParse | internal/services/containers/parse/container_registry_task_schedule_test.go:115-145 | Whatever the parser accepts has one value per declared value, all non-empty and slash-free, and is the canonical string of those values. |
| ResourceIds.ParseIff | internal/services/containers/parse/container_registry_task_schedule_test.go:115-145 | The parser returns `vs` for `s` if and only if `vs` is a full list of valid values and `s` is their canonical string. |
| ResourceIds.FormatInjective | internal/services/containers/parse/container_registry_task_schedule_test.go:96-106 | Two lists of valid values with the same canonical string are equal. |
| ResourceIds.FormatJoin | internal/services/containers/parse/container_registry_task_schedule_test.go:16-22 | The canonical string is '/' followed by the components joined with '/'. |
| ResourceIds.SplitFormat | internal/services/containers/parse/container_registry_task_schedule_test.go:96-106 | Splitting a canonical string on '/' gives an empty piece and then exactly the components. |
| ResourceIds.WalkPieces | internal/services/containers/parse/container_registry_task_schedule_test.go:96-106 | Walking the components of a well-formed ID collects exactly its values. |
| ResourceIds.WalkSound | internal/services/containers/parse/container_registry_task_schedule_test.go:115-145 | A successful walk has consumed exactly the components of the values it returns. |
| ResourceIds.EmptyValueNotReparsed | internal/services/containers/parse/container_registry_task_schedule_test.go:42-46 | An ID built with an empty value formats to a string the parser rejects. Construction does not validate; parsing does. |
| ResourceIds.WalkEmptyValueFails | internal/services/containers/parse/container_registry_task_schedule_test.go:42-46 | Components with an empty value never walk the shape. |
| ResourceIds.ProperPrefixRejected | internal/services/containers/parse/container_registry_task_schedule_test.go:48-94 | Every non-empty proper prefix of a canonical ID that ends in '/' is rejected, whether the next component is a literal or a value. |
| ResourceIds.WalkProperPrefixFails | internal/services/containers/parse/container_registry_task_schedule_test.go:48-94 | The pieces of such a prefix stop the walk at an empty piece. |
| ResourceIds.LiteralThenEmptyValueRejected | internal/services/containers/parse/container_registry_task_schedule_test.go:42-46 | A string that stops right after the leading literal and its '/' is rejected when a value should follow. |
| ResourceIds.LeadingLiteralMismatch | internal/services/containers/parse/container_registry_task_schedule_test.go:108-112 | A string whose first component differs from the shape's first token is rejected whatever follows. |
| ResourceIds.UpperCasedRejected | internal/services/containers/parse/container_registry_task_schedule_test.go:108-112 | For a shape with a literal that upper-casing changes, the upper-cased canonical string of any valid values is rejected. |
| ResourceIds.WalkUpperFails | internal/services/containers/parse/container_registry_task_schedule_test.go:108-112 | Upper-cased components of such a shape never walk it. |
| ResourceIds.UpperChangesLowerStart | internal/services/containers/parse/container_registry_task_schedule_test.go:108-112 | A token starting with a lower-case letter, such as `subscriptions`, is changed by upper-casing. |
| ResourceIds.Split | internal/services/containers/parse/container_registry_task_schedule_test.go:115-145 | The split of a string has at least one piece and no piece holds a '/'. |
| ResourceIds.SplitJoin | internal/services/containers/parse/container_registry_task_schedule_test.go:96-106 | Splitting undoes joining, for slash-free pieces. |
| ResourceIds.JoinSplit | internal/services/containers/parse/container_registry_task_schedule_test.go:96-106 | Joining undoes splitting. |
| ContainerRegistryTaskSchedule.ID | internal/services/containers/parse/container_registry_task_schedule_test.go:16-22 | `.ID()` is the fixed template with the five fields in declaration order. |
| ContainerRegistryTaskSchedule.ContainerRegistryTaskScheduleID | internal/services/containers/parse/container_registry_task_schedule_test.go:31-34 | The empty input is rejected with EmptyInput. Every accepted ID has well-formed fields and formats back to the input. |
| ContainerRegistryTaskSchedule.ParseID | internal/services/containers/parse/container_registry_task_schedule_test.go:96-106 | Parsing `.ID()` of an ID with non-empty, slash-free fields gives back exactly that ID. |
| ContainerRegistryTaskSchedule.ParseIffCanonical | internal/services/containers/parse/container_registry_task_schedule_test.go:115-145 | The parser returns an ID if and only if the ID is well-formed and the input is its `.ID()`. |
| ContainerRegistryTaskSchedule.UpperCasedIdRejected | internal/services/containers/parse/container_registry_task_schedule_test.go:108-112 | The upper-cased `.ID()` of any well-formed ID is rejected. |
| ContainerRegistryTaskSchedule.FromValues | internal/services/containers/parse/container_registry_task_schedule_test.go:96-106 | The record built from parsed values has those values as its fields, in order. |
| ContainerRegistryTaskSchedule.FormatterExample | internal/services/containers/parse/container_registry_task_schedule_test.go:16-22 | The example ID formats to the expected string. |
| ContainerRegistryTaskSchedule.ValidExampleParses | internal/services/containers/parse/container_registry_task_schedule_test.go:96-106 | The valid example string parses to the five expected fields. |
| ContainerRegistryTaskSchedule.PrefixOfIdRejected | internal/services/containers/parse/container_registry_task_schedule_test.go:48-94 | Any non-empty proper prefix of a well-formed ID that ends in '/' is rejected. |
| ContainerRegistryTaskSchedule.MissingSubscriptionIdRejected | internal/services/containers/parse/container_registry_task_schedule_test.go:36-40 | "/" is rejected. |
| ContainerRegistryTaskSchedule.MissingSubscriptionIdValueRejected | internal/services/containers/parse/container_registry_task_schedule_test.go:42-46 | "/subscriptions/" is rejected. |
| ContainerRegistryTaskSchedule.MissingResourceGroupRejected | internal/services/containers/parse/container_registry_task_schedule_test.go:48-52 | The ID cut after the subscription value and its '/' is rejected. |
| ContainerRegistryTaskSchedule.MissingResourceGroupValueRejected | internal/services/containers/parse/container_registry_task_schedule_test.go:54-58 | The ID cut after `resourceGroups/` is rejected. |
| ContainerRegistryTaskSchedule.MissingRegistryNameRejected | internal/services/containers/parse/container_registry_task_schedule_test.go:60-64 | The ID cut after `Microsoft.ContainerRegistry/` is rejected. |
| ContainerRegistryTaskSchedule.MissingRegistryNameValueRejected | internal/services/containers/parse/container_registry_task_schedule_test.go:66-70 | The ID cut after `registries/` is rejected. |
| ContainerRegistryTaskSchedule.MissingTaskNameRejected | internal/services/containers/parse/container_registry_task_schedule_test.go:72-76 | The ID cut after the registry name and its '/' is rejected. |
| ContainerRegistryTaskSchedule.MissingTaskNameValueRejected | internal/services/containers/parse/container_registry_task_schedule_test.go:78-82 | The ID cut after `tasks/` is rejected. |
| ContainerRegistryTaskSchedule.MissingScheduleNameRejected | internal/services/containers/parse/container_registry_task_schedule_test.go:84-88 | The ID cut after the task name and its '/' is rejected. |
| ContainerRegistryTaskSchedule.MissingScheduleNameValueRejected | internal/services/containers/parse/container_registry_task_schedule_test.go:90-94 | The ID cut after `schedule/` is rejected. |
| ContainerRegistryTaskSchedule.UpperCasedTokenRejected | internal/services/containers/parse/container_registry_task_schedule_test.go:108-112 | Any input starting with `/SUBSCRIPTIONS/` is rejected. |
| ContainerRegistryTaskSchedule.UpperCasedExampleRejected | internal/services/containers/parse/container_registry_task_schedule_test.go:108-112 | The upper-cased example string is rejected. |
| ManagedInstancesSecurityAlertPolicy.ID | internal/services/mssqlmanagedinstance/parse/managed_instances_security_alert_policy_test.go:16-22 | `.ID()` is the fixed template with the four fields in declaration order. |
| ManagedInstancesSecurityAlertPolicy.ManagedInstancesSecurityAlertPolicyID | internal/services/mssqlmanagedinstance/parse/managed_instances_security_alert_policy_test.go:30-34 | The empty input is rejected with EmptyInput. Every accepted ID has well-formed fields and formats back to the input. |
| ManagedInstancesSecurityAlertPolicy.ParseID | internal/services/mssqlmanagedinstance/parse/managed_instances_security_alert_policy_test.go:84-93 | Parsing `.ID()` of an ID with non-empty, slash-free fields gives back exactly that ID. |
| ManagedInstancesSecurityAlertPolicy.ParseIffCanonical | internal/services/mssqlmanagedinstance/parse/managed_instances_security_alert_policy_test.go:102-129 | The parser returns an ID if and only if the ID is well-formed and the input is its `.ID()`. |
| ManagedInstancesSecurityAlertPolicy.UpperCasedIdRejected | internal/services/mssqlmanagedinstance/parse/managed_instances_security_alert_policy_test.go:95-99 | The upper-cased `.ID()` of any well-formed ID is rejected. |
| ManagedInstancesSecurityAlertPolicy.FromValues | internal/services/mssqlmanagedinstance/parse/managed_instances_security_alert_policy_test.go:84-93 | The record built from parsed values has those values as its fields, in order. |
| ManagedInstancesSecurityAlertPolicy.FormatterExample | internal/services/mssqlmanagedinstance/parse/managed_instances_security_alert_policy_test.go:16-22 | The example ID formats to the expected string. |
| ManagedInstancesSecurityAlertPolicy.ValidExampleParses | internal/services/mssqlmanagedinstance/parse/managed_instances_security_alert_policy_test.go:84-93 | The valid example string parses to the four expected fields, with the value `Default` case-preserved. |
| ManagedInstancesSecurityAlertPolicy.PrefixOfIdRejected | internal/services/mssqlmanagedinstance/parse/managed_instances_security_alert_policy_test.go:48-82 | Any non-empty proper prefix of a well-formed ID that ends in '/' is rejected. |
| ManagedInstancesSecurityAlertPolicy.MissingSubscriptionIdRejected | internal/services/mssqlmanagedinstance/parse/managed_instances_security_alert_policy_test.go:36-40 | "/" is rejected. |
| ManagedInstancesSecurityAlertPolicy.MissingSubscriptionIdValueRejected | internal/services/mssqlmanagedinstance/parse/managed_instances_security_alert_policy_test.go:42-46 | "/subscriptions/" is rejected. |
| ManagedInstancesSecurityAlertPolicy.MissingResourceGroupRejected | internal/services/mssqlmanagedinstance/parse/managed_instances_security_alert_policy_test.go:48-52 | The ID cut after the subscription value and its '/' is rejected. |
| ManagedInstancesSecurityAlertPolicy.MissingResourceGroupValueRejected | internal/services/mssqlmanagedinstance/parse/managed_instances_security_alert_policy_test.go:54-58 | The ID cut after `resourceGroups/` is rejected. |
| ManagedInstancesSecurityAlertPolicy.MissingManagedInstanceNameRejected | internal/services/mssqlmanagedinstance/parse/managed_instances_security_alert_policy_test.go:60-64 | The ID cut after `Microsoft.Sql/` is rejected. |
| ManagedInstancesSecurityAlertPolicy.MissingManagedInstanceNameValueRejected | internal/services/mssqlmanagedinstance/parse/managed_instances_security_alert_policy_test.go:66-70 | The ID cut after `managedInstances/` is rejected. |
| ManagedInstancesSecurityAlertPolicy.MissingSecurityAlertPolicyNameRejected | internal/services/mssqlmanagedinstance/parse/managed_instances_security_alert_policy_test.go:72-76 | The ID cut after the instance name and its '/' is rejected. |
| ManagedInstancesSecurityAlertPolicy.MissingSecurityAlertPolicyNameValueRejected | internal/services/mssqlmanagedinstance/parse/managed_instances_security_alert_policy_test.go:78-82 | The ID cut after `securityAlertPolicies/` is rejected. |
| ManagedInstancesSecurityAlertPolicy.UpperCasedTokenRejected | internal/services/mssqlmanagedinstance/parse/managed_instances_security_alert_policy_test.go:95-99 | Any input starting with `/SUBSCRIPTIONS/` is rejected. |
| ManagedInstancesSecurityAlertPolicy.UpperCasedExampleRejected | internal/services/mssqlmanagedinstance/parse/managed_instances_security_alert_policy_test.go:95-99 | The upper-cased example string is rejected. |
| RedHatOpenShift.ToInt32 | internal/services/redhatopenshift/redhatopenshift_cluster_resource.go:719-720 | `int32(x)` is congruent to `x` modulo 2^32, and equals `x` when `x` fits in 32 bits. |
| RedHatOpenShift.IsFipsEnabled | internal/services/redhatopenshift/redhatopenshift_cluster_resource.go:473 | The flattener's test is true exactly for Enabled. `FipsOf` proves it inverts the expander's choice. |
| RedHatOpenShift.IsEncryptionAtHostEnabled | internal/services/redhatopenshift/redhatopenshift_cluster_resource.go:545 | The flatteners' test (:545, :575) is true exactly for Enabled. `EncryptionAtHostOf` proves it inverts the expanders' choice. |
| RedHatOpenShift.FipsOf | internal/services/redhatopenshift/redhatopenshift_cluster_resource.go:632-636 | `fips_enabled` becomes Enabled or Disabled, and the flattener's "is Enabled" test gives the boolean back. |
| RedHatOpenShift.EncryptionAtHostOf | internal/services/redhatopenshift/redhatopenshift_cluster_resource.go:693-697 | `encryption_at_host_enabled` becomes Enabled or Disabled, and the flattener's "is Enabled" test gives the boolean back. |
| RedHatOpenShift.FlattenClusterProfile | internal/services/redhatopenshift/redhatopenshift_cluster_resource.go:458-482 | Nil gives an empty list, otherwise one block. The pull secret and domain read back as their values, or "" when nil. `fips_enabled` is true exactly when the API says Enabled. |
| RedHatOpenShift.FlattenServicePrincipalProfile | internal/services/redhatopenshift/redhatopenshift_cluster_resource.go:484-510 | Nil gives an empty list, otherwise one block. The client ID comes from the API, nil as "". The secret comes from the configured block, "" when there is none. |
| RedHatOpenShift.FlattenNetworkProfile | internal/services/redhatopenshift/redhatopenshift_cluster_resource.go:512-533 | Nil gives an empty list, otherwise one block. Each CIDR reads back as its value, or "" when nil. |
| RedHatOpenShift.FlattenMasterProfile | internal/services/redhatopenshift/redhatopenshift_cluster_resource.go:535-560 | Nil gives an empty list, otherwise one block. The VM size reference is passed through. The subnet and disk-encryption IDs read back as their values, or "" when nil. The boolean is true exactly when the API says Enabled. |
| RedHatOpenShift.FlattenWorkerProfile | internal/services/redhatopenshift/redhatopenshift_cluster_resource.go:570-577 | The map for one worker profile passes each reference field through, and the boolean is true exactly when the API says Enabled. |
| RedHatOpenShift.FlattenWorkerList | internal/services/redhatopenshift/redhatopenshift_cluster_resource.go:569-578 | One flattened map per worker profile, in input order. |
| RedHatOpenShift.FlattenWorkerProfiles | internal/services/redhatopenshift/redhatopenshift_cluster_resource.go:562-580 | The loop returns nothing for nil, otherwise exactly the per-profile flattening of the input in order. |
| RedHatOpenShift.FlattenAPIServerProfile | internal/services/redhatopenshift/redhatopenshift_cluster_resource.go:582-592 | Nil gives an empty list, otherwise one block holding the visibility as a string. |
| RedHatOpenShift.FlattenIngressProfile | internal/services/redhatopenshift/redhatopenshift_cluster_resource.go:602-605 | The map for one ingress profile holds its visibility as a string. |
| RedHatOpenShift.FlattenIngressList | internal/services/redhatopenshift/redhatopenshift_cluster_resource.go:601-607 | One flattened map per ingress profile, in input order. |
| RedHatOpenShift.FlattenIngressProfiles | internal/services/redhatopenshift/redhatopenshift_cluster_resource.go:594-609 | The loop returns nothing for nil, otherwise exactly the per-profile flattening of the input in order. |
| RedHatOpenShift.ExpandClusterProfile | internal/services/redhatopenshift/redhatopenshift_cluster_resource.go:611-644 | The resource group ID is always built from `"aro-" + randomDomainName`, and an absent block or empty domain becomes the random domain name. The pull secret is set only when a block is present, FIPS is Enabled exactly when `fips_enabled` is set, and no version is sent. |
| RedHatOpenShift.ExpandServicePrincipalProfile | internal/services/redhatopenshift/redhatopenshift_cluster_resource.go:646-662 | Nil exactly for no block, otherwise the block's client ID and secret. |
| RedHatOpenShift.ExpandNetworkProfile | internal/services/redhatopenshift/redhatopenshift_cluster_resource.go:664-681 | No block gives pod CIDR 10.128.0.0/14 and service CIDR 172.30.0.0/16; otherwise the block's CIDRs verbatim. |
| RedHatOpenShift.ExpandMasterProfile | internal/services/redhatopenshift/redhatopenshift_cluster_resource.go:683-707 | Nil exactly for no block, otherwise the block's fields, with the boolean as Enabled or Disabled. |
| RedHatOpenShift.ExpandWorkerProfiles | internal/services/redhatopenshift/redhatopenshift_cluster_resource.go:709-744 | Nil exactly for no block, otherwise exactly one profile named "worker" built from the first block. Its integers are converted by `int32` wrap-around. Encryption at host is Enabled when the flag is set and Disabled otherwise. |
| RedHatOpenShift.ExpandApiServerProfile | internal/services/redhatopenshift/redhatopenshift_cluster_resource.go:746-760 | Public when there is no block, otherwise the block's visibility. |
| RedHatOpenShift.ExpandIngressProfiles | internal/services/redhatopenshift/redhatopenshift_cluster_resource.go:762-781 | Always exactly one profile named "default", Public unless the first block gives a visibility. |
| RedHatOpenShift.ClusterProfileRoundTrip | internal/services/redhatopenshift/redhatopenshift_cluster_resource.go:611-644 | Flattening the expansion gives back the configured block, with an empty domain replaced by the random one and FIPS preserved. A missing block reads back as an empty pull secret, the random domain and FIPS off. |
| RedHatOpenShift.ServicePrincipalRoundTrip | internal/services/redhatopenshift/redhatopenshift_cluster_resource.go:484-510 | With the block still configured, flattening its expansion gives the block back; without one, nothing. |
| RedHatOpenShift.NetworkProfileRoundTrip | internal/services/redhatopenshift/redhatopenshift_cluster_resource.go:664-681 | Flattening the expansion gives the configured CIDRs back, or the two default CIDRs. |
| RedHatOpenShift.MasterProfileRoundTrip | internal/services/redhatopenshift/redhatopenshift_cluster_resource.go:683-707 | Flattening the expansion gives the configured block back, including the encryption-at-host boolean; no block gives nothing. |
| RedHatOpenShift.WorkerProfilesRoundTrip | internal/services/redhatopenshift/redhatopenshift_cluster_resource.go:709-744 | With integers that fit in 32 bits, flattening the expansion gives one map holding the first block's values, including the encryption-at-host boolean. |
| RedHatOpenShift.NodeCountWrapsAround | internal/services/redhatopenshift/redhatopenshift_cluster_resource.go:720 | A `node_count` of 4294967299, which the schema (:180-183) lets through, is sent to the API as 3. |
| RedHatOpenShift.WorkerProfilesUseFirstBlock | internal/services/redhatopenshift/redhatopenshift_cluster_resource.go:715 | Two configurations with the same first worker block expand identically. |
| RedHatOpenShift.ApiServerProfileRoundTrip | internal/services/redhatopenshift/redhatopenshift_cluster_resource.go:746-760 | Flattening the expansion gives the configured visibility back, or "Public". |
| RedHatOpenShift.IngressProfilesRoundTrip | internal/services/redhatopenshift/redhatopenshift_cluster_resource.go:762-781 | Flattening the expansion gives exactly one block: the configured visibility, or "Public". |
| RedHatOpenShift.CreatedIdParsesOnRead | internal/services/redhatopenshift/redhatopenshift_cluster_resource.go:309-310 | For any valid three-value cluster-ID shape and names without '/', the ID create stores parses back in read (:363) to the subscription, resource group and name create used. |
| RedHatOpenShift.SlashNameNotReparsed | internal/services/redhatopenshift/redhatopenshift_cluster_resource.go:309-310 | A cluster name holding '/', which the schema's only check (:47-51) lets through, is stored in an ID that does not parse back in read (:363) to the values create used. |
| RedHatOpenShift.ApplyChanges | internal/services/redhatopenshift/redhatopenshift_cluster_resource.go:328-344 | Without any change the request is returned as it came. On a request with nil properties it fails exactly when a block changed. On a request with allocated properties it always builds, and writes the expansion of each changed block while keeping the other fields. |
| RedHatOpenShift.UpdateParametersAsWritten | internal/services/redhatopenshift/redhatopenshift_cluster_resource.go:324-344 | The request as the handler builds it: when it builds at all, its properties are still nil. |
| RedHatOpenShift.UpdateParameters | internal/services/redhatopenshift/redhatopenshift_cluster_resource.go:324-344 | The request with its properties allocated always builds. |
| RedHatOpenShift.UpdateAsWrittenFailsOnProfileChange | internal/services/redhatopenshift/redhatopenshift_cluster_resource.go:324-344 | As written, building the update request fails exactly when the cluster, main or worker block changed. |
| RedHatOpenShift.UpdateParametersCarryChanges | internal/services/redhatopenshift/redhatopenshift_cluster_resource.go:324-344 | With the properties allocated, the update request always builds. It carries the expansion of each changed block and nothing for unchanged ones. |

## Findings

| source | as written | input that shows it | evidently intended | confidence | as-written member | corrected member |
|---|---|---|---|---|---|---|
| internal/services/redhatopenshift/redhatopenshift_cluster_resource.go:324-344 | The update request is built with only `Tags`, which leaves its properties reference nil. Each changed block is then written through that reference, so Go panics with a nil dereference. | An update whose plan changes `cluster_profile.0.pull_secret` (or any field of `main_profile` or `worker_profile`) | Allocate the properties (`&OpenShiftClusterProperties{}`) before writing the changed profiles into them | medium, not executed: the SDK type is defined in the Azure SDK, but create (:285) sets the same field as a reference | RedHatOpenShift.UpdateAsWrittenFailsOnProfileChange | RedHatOpenShift.UpdateParametersCarryChanges |

## Left out

- I/O and state writes. The CRUD handlers' calls to the Azure API, long-running-operation polling, timeouts, `log.Printf`/`json.Marshal` debug output, tags, and `d.Set`/`d.SetId` are not modelled. Only their use of the cluster-ID codec is (`CreatedIdParsesOnRead`), plus the update request they build.
- The cluster-ID and network-manager ID shapes. Their literal tokens are not part of this model. The cluster shape is a parameter, and `internal/services/network/network_manager_resource_test.go` is an acceptance test against live Azure.
- The parser and formatter source files. The generated `.go` files behind the two ID types are not part of this model. The engine agrees with the 13 and 11 fixture rows of the two tables, but the tables say nothing about any other input. Elsewhere the engine's behaviour is a modelling choice: it rejects a trailing '/', truncations the tables do not list (such as one ending in `/providers/`), and a different provider namespace. So `ParseIff`, `FormatParse`, `ProperPrefixRejected` and `UpperCasedRejected` are laws of this engine. They are not properties the tables establish about the generated parsers.
- The Go error messages are not modelled; only which check failed is kept.
- The resource schema and its validators (`validate.CIDR`, `azure.ValidateResourceID`, the OpenShift validators). These are framework configuration, with the validators defined in the provider's validate packages and the plugin SDK.
- `GenerateRandomDomainName`, which is random, and `ResourceGroupID`, which is defined elsewhere in the redhatopenshift package and is not part of this model. They are the parameters `randomDomainName` and `resourceGroupID` of `ExpandClusterProfile`.
- The SDK enum constants. The strings behind `FipsValidatedModulesEnabled`/`Disabled`, `EncryptionAtHostEnabled`/`Disabled` and `VisibilityPublic` come from the Azure SDK, which is not part of this model. The model uses "Enabled", "Disabled" and "Public". The booleans' round trips rely only on Enabled and Disabled being different. `ApiServerProfileRoundTrip` and `IngressProfilesRoundTrip` state the assumed literal "Public".
- The panicking type assertions. `input[0].(map[string]interface{})` and the field assertions panic on a nil element or a mistyped field. The configuration blocks are typed records, so those panics are not modelled.
- Dereferencing flattened fields. `d.Set` dereferences the nil-able fields a flattener puts in a map. `FlatMainProfile` and `FlatWorkerProfile` keep those fields as `Option` values, as the flatteners build them.
- Upper-casing is ASCII. `Upper` recases only `a`-`z`, which covers every character of the fixture strings.
- Fixture strings longer than a few dozen characters are written in the lemmas as the concatenation of their parts, exactly as they read in the tables.
- The table-driven test loops (container_registry_task_schedule_test.go:115-145, managed_instances_security_alert_policy_test.go:102-129) are not modelled as loops. They only compare each row's outcome, which the per-row lemmas state directly.
- CreatedIdParsesOnRead: requires a cluster name without '/'. The schema accepts any non-empty name (:47-51), and `SlashNameNotReparsed` states what then happens: the stored ID does not parse back to that name.
- WorkerProfilesRoundTrip: holds only while `disk_size_gb` and `node_count` fit in 32 bits. `node_count` has no range check in the schema (:180-183), and `NodeCountWrapsAround` shows 4294967299 nodes are sent as 3.
- The go:generate step that produces the ID types.
