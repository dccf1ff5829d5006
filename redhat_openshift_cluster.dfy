/** The expand and flatten helpers of the Azure Red Hat OpenShift cluster
    resource. Expanding maps a Terraform configuration block to the nested
    API profile record; flattening maps the record the API returns back to
    the block Terraform stores. */
module RedHatOpenShift {
  import opened Wrappers
  import opened ResourceIds

  // ---------------------------------------------------------------------------
  // API model: the SDK's string enums, its 32-bit integers and its profile
  // records. A reference field that may be nil is an Option.
  // ---------------------------------------------------------------------------

  /** The SDK's string-typed enums: any string converts to them. */
  datatype FipsValidatedModules = FipsValidatedModules(value: string)
  datatype EncryptionAtHost = EncryptionAtHost(value: string)
  datatype Visibility = Visibility(value: string)

  const FipsValidatedModulesEnabled := FipsValidatedModules("Enabled")
  const FipsValidatedModulesDisabled := FipsValidatedModules("Disabled")
  const EncryptionAtHostEnabled := EncryptionAtHost("Enabled")
  const EncryptionAtHostDisabled := EncryptionAtHost("Disabled")
  const VisibilityPublic := Visibility("Public")

  /** Go's `int32`. */
  newtype Int32 = x: int | -0x8000_0000 <= x < 0x8000_0000

  /** Go's conversion `int32(x)`: keeps the low 32 bits, two's complement. */
  function ToInt32(x: int): (r: Int32)
    ensures (r as int - x) % 0x1_0000_0000 == 0
    ensures -0x8000_0000 <= x < 0x8000_0000 ==> r as int == x
  {
    var m := x % 0x1_0000_0000;
    if m < 0x8000_0000 then m as Int32 else (m - 0x1_0000_0000) as Int32
  }

  datatype ClusterProfile = ClusterProfile(
    PullSecret: Option<string>,
    Domain: Option<string>,
    Version: Option<string>,
    ResourceGroupID: Option<string>,
    Fips: FipsValidatedModules)

  datatype ServicePrincipalProfile = ServicePrincipalProfile(
    ClientID: Option<string>,
    ClientSecret: Option<string>)

  datatype NetworkProfile = NetworkProfile(
    PodCidr: Option<string>,
    ServiceCidr: Option<string>)

  datatype MasterProfile = MasterProfile(
    VMSize: Option<string>,
    SubnetID: Option<string>,
    Encryption: EncryptionAtHost,
    DiskEncryptionSetID: Option<string>)

  datatype WorkerProfile = WorkerProfile(
    Name: Option<string>,
    VMSize: Option<string>,
    DiskSizeGB: Option<Int32>,
    SubnetID: Option<string>,
    Count: Option<Int32>,
    Encryption: EncryptionAtHost,
    DiskEncryptionSetID: Option<string>)

  datatype APIServerProfile = APIServerProfile(Exposure: Visibility)

  datatype IngressProfile = IngressProfile(Name: Option<string>, Exposure: Visibility)

  // ---------------------------------------------------------------------------
  // Terraform model: each block of the configuration, as `d.Get` returns its
  // first element, and as the flatteners write it back.
  // ---------------------------------------------------------------------------

  datatype ClusterProfileBlock = ClusterProfileBlock(pullSecret: string, domain: string, fipsEnabled: bool)

  datatype ServicePrincipalBlock = ServicePrincipalBlock(clientId: string, clientSecret: string)

  datatype NetworkProfileBlock = NetworkProfileBlock(podCidr: string, serviceCidr: string)

  datatype MainProfileBlock = MainProfileBlock(
    vmSize: string, subnetId: string, encryptionAtHostEnabled: bool, diskEncryptionSetId: string)

  datatype WorkerProfileBlock = WorkerProfileBlock(
    vmSize: string, diskSizeGb: int, nodeCount: int, subnetId: string,
    encryptionAtHostEnabled: bool, diskEncryptionSetId: string)

  datatype ApiServerProfileBlock = ApiServerProfileBlock(visibility: string)

  datatype IngressProfileBlock = IngressProfileBlock(visibility: string)

  /** What the master flattener writes: `vm_size` is the API's reference as is. */
  datatype FlatMainProfile = FlatMainProfile(
    vmSize: Option<string>, subnetId: string, encryptionAtHostEnabled: bool, diskEncryptionSetId: string)

  /** What the worker flattener writes: every field but the boolean is the
      API's reference as is. */
  datatype FlatWorkerProfile = FlatWorkerProfile(
    diskSizeGb: Option<Int32>, nodeCount: Option<Int32>, vmSize: Option<string>,
    subnetId: Option<string>, encryptionAtHostEnabled: bool, diskEncryptionSetId: Option<string>)

  // ---------------------------------------------------------------------------
  // Booleans and the enabled/disabled enums.
  // ---------------------------------------------------------------------------

  /** The flatteners' test `== FipsValidatedModulesEnabled`. */
  predicate IsFipsEnabled(f: FipsValidatedModules) {
    f == FipsValidatedModulesEnabled
  }

  /** The expanders' choice between Enabled and Disabled. */
  function FipsOf(enabled: bool): (f: FipsValidatedModules)
    ensures f == FipsValidatedModulesEnabled || f == FipsValidatedModulesDisabled
    ensures IsFipsEnabled(f) == enabled
  {
    if enabled then FipsValidatedModulesEnabled else FipsValidatedModulesDisabled
  }

  /** The flatteners' test `== EncryptionAtHostEnabled`. */
  predicate IsEncryptionAtHostEnabled(e: EncryptionAtHost) {
    e == EncryptionAtHostEnabled
  }

  /** The expanders' choice between Enabled and Disabled. */
  function EncryptionAtHostOf(enabled: bool): (e: EncryptionAtHost)
    ensures e == EncryptionAtHostEnabled || e == EncryptionAtHostDisabled
    ensures IsEncryptionAtHostEnabled(e) == enabled
  {
    if enabled then EncryptionAtHostEnabled else EncryptionAtHostDisabled
  }

  // ---------------------------------------------------------------------------
  // Flatteners.
  // ---------------------------------------------------------------------------

  /** `flattenOpenShiftClusterProfile`. */
  function FlattenClusterProfile(profile: Option<ClusterProfile>): (r: seq<ClusterProfileBlock>)
    ensures r == [] <==> profile.None?
    ensures profile.Some? ==>
      |r| == 1
      && r[0].pullSecret == (if profile.value.PullSecret.Some? then profile.value.PullSecret.value else "")
      && r[0].domain == (if profile.value.Domain.Some? then profile.value.Domain.value else "")
      && (r[0].fipsEnabled <==> profile.value.Fips == FipsValidatedModulesEnabled)
  {
    match profile
    case None => []
    case Some(p) =>
      [ClusterProfileBlock(p.PullSecret.GetOr(""), p.Domain.GetOr(""), IsFipsEnabled(p.Fips))]
  }

  /** `flattenOpenShiftServicePrincipalProfile`. The client ID comes from the
      API; the secret, which the API does not return, from the block already in
      the configuration, `existing` (an element is None when the block is
      empty). */
  function FlattenServicePrincipalProfile(
    profile: Option<ServicePrincipalProfile>, existing: seq<Option<ServicePrincipalBlock>>)
    : (r: seq<ServicePrincipalBlock>)
    ensures r == [] <==> profile.None?
    ensures profile.Some? ==>
      |r| == 1
      && r[0].clientId == profile.value.ClientID.GetOr("")
      && r[0].clientSecret == (if |existing| > 0 && existing[0].Some? then existing[0].value.clientSecret else "")
  {
    match profile
    case None => []
    case Some(p) =>
      var clientSecret := if |existing| > 0 && existing[0].Some? then existing[0].value.clientSecret else "";
      [ServicePrincipalBlock(p.ClientID.GetOr(""), clientSecret)]
  }

  /** `flattenOpenShiftNetworkProfile`. */
  function FlattenNetworkProfile(profile: Option<NetworkProfile>): (r: seq<NetworkProfileBlock>)
    ensures r == [] <==> profile.None?
    ensures profile.Some? ==>
      |r| == 1
      && r[0].podCidr == (if profile.value.PodCidr.Some? then profile.value.PodCidr.value else "")
      && r[0].serviceCidr == (if profile.value.ServiceCidr.Some? then profile.value.ServiceCidr.value else "")
  {
    match profile
    case None => []
    case Some(p) => [NetworkProfileBlock(p.PodCidr.GetOr(""), p.ServiceCidr.GetOr(""))]
  }

  /** `flattenOpenShiftMasterProfile`. */
  function FlattenMasterProfile(profile: Option<MasterProfile>): (r: seq<FlatMainProfile>)
    ensures r == [] <==> profile.None?
    ensures profile.Some? ==>
      |r| == 1
      && r[0].vmSize == profile.value.VMSize
      && r[0].subnetId == (if profile.value.SubnetID.Some? then profile.value.SubnetID.value else "")
      && r[0].diskEncryptionSetId
         == (if profile.value.DiskEncryptionSetID.Some? then profile.value.DiskEncryptionSetID.value else "")
      && (r[0].encryptionAtHostEnabled <==> profile.value.Encryption == EncryptionAtHostEnabled)
  {
    match profile
    case None => []
    case Some(p) =>
      [FlatMainProfile(p.VMSize, p.SubnetID.GetOr(""), IsEncryptionAtHostEnabled(p.Encryption),
        p.DiskEncryptionSetID.GetOr(""))]
  }

  /** The map `flattenOpenShiftWorkerProfiles` appends for one profile. */
  function FlattenWorkerProfile(p: WorkerProfile): (r: FlatWorkerProfile)
    ensures r.diskSizeGb == p.DiskSizeGB && r.nodeCount == p.Count && r.vmSize == p.VMSize
    ensures r.subnetId == p.SubnetID && r.diskEncryptionSetId == p.DiskEncryptionSetID
    ensures r.encryptionAtHostEnabled <==> p.Encryption == EncryptionAtHostEnabled
  {
    FlatWorkerProfile(p.DiskSizeGB, p.Count, p.VMSize, p.SubnetID,
      IsEncryptionAtHostEnabled(p.Encryption), p.DiskEncryptionSetID)
  }

  /** The worker profiles flattened one by one, in order. */
  function FlattenWorkerList(ps: seq<WorkerProfile>): (r: seq<FlatWorkerProfile>)
    ensures |r| == |ps|
    ensures forall i :: 0 <= i < |ps| ==> r[i] == FlattenWorkerProfile(ps[i])
  {
    if ps == [] then [] else [FlattenWorkerProfile(ps[0])] + FlattenWorkerList(ps[1..])
  }

  /** `flattenOpenShiftWorkerProfiles`: nothing for nil, otherwise one map per
      profile, in order. */
  method FlattenWorkerProfiles(profiles: Option<seq<WorkerProfile>>) returns (results: seq<FlatWorkerProfile>)
    ensures profiles.None? ==> results == []
    ensures profiles.Some? ==> results == FlattenWorkerList(profiles.value)
  {
    if profiles.None? {
      return [];
    }
    var ps := profiles.value;
    results := [];
    var i := 0;
    while i < |ps|
      invariant 0 <= i <= |ps|
      invariant |results| == i
      invariant forall j :: 0 <= j < i ==> results[j] == FlattenWorkerProfile(ps[j])
    {
      results := results + [FlattenWorkerProfile(ps[i])];
      i := i + 1;
    }
  }

  /** `flattenOpenShiftAPIServerProfile`. */
  function FlattenAPIServerProfile(profile: Option<APIServerProfile>): (r: seq<ApiServerProfileBlock>)
    ensures r == [] <==> profile.None?
    ensures profile.Some? ==> r == [ApiServerProfileBlock(profile.value.Exposure.value)]
  {
    match profile
    case None => []
    case Some(p) => [ApiServerProfileBlock(p.Exposure.value)]
  }

  /** The map `flattenOpenShiftIngressProfiles` fills for one profile: its
      visibility as a string; the name is dropped. */
  function FlattenIngressProfile(p: IngressProfile): (r: IngressProfileBlock)
    ensures r.visibility == p.Exposure.value
  {
    IngressProfileBlock(p.Exposure.value)
  }

  /** The ingress profiles flattened one by one, in order. */
  function FlattenIngressList(ps: seq<IngressProfile>): (r: seq<IngressProfileBlock>)
    ensures |r| == |ps|
    ensures forall i :: 0 <= i < |ps| ==> r[i] == FlattenIngressProfile(ps[i])
  {
    if ps == [] then [] else [FlattenIngressProfile(ps[0])] + FlattenIngressList(ps[1..])
  }

  /** `flattenOpenShiftIngressProfiles`: nothing for nil, otherwise one map per
      profile, in order. */
  method FlattenIngressProfiles(profiles: Option<seq<IngressProfile>>) returns (results: seq<IngressProfileBlock>)
    ensures profiles.None? ==> results == []
    ensures profiles.Some? ==> results == FlattenIngressList(profiles.value)
  {
    if profiles.None? {
      return [];
    }
    var ps := profiles.value;
    results := [];
    var i := 0;
    while i < |ps|
      invariant 0 <= i <= |ps|
      invariant |results| == i
      invariant forall j :: 0 <= j < i ==> results[j] == FlattenIngressProfile(ps[j])
    {
      var result := IngressProfileBlock(ps[i].Exposure.value);
      results := results + [result];
      i := i + 1;
    }
  }

  // ---------------------------------------------------------------------------
  // Expanders. The random domain name chosen once per process and the
  // `ResourceGroupID` helper are parameters.
  // ---------------------------------------------------------------------------

  /** `expandOpenshiftClusterProfile`. */
  function ExpandClusterProfile(
    input: seq<ClusterProfileBlock>, subscriptionId: string, randomDomainName: string,
    resourceGroupID: (string, string) -> string)
    : (r: ClusterProfile)
    ensures r.ResourceGroupID == Some(resourceGroupID(subscriptionId, "aro-" + randomDomainName))
    ensures r.Domain == Some(if |input| == 0 || input[0].domain == "" then randomDomainName else input[0].domain)
    ensures r.PullSecret == (if |input| == 0 then None else Some(input[0].pullSecret))
    ensures r.Fips == (if |input| > 0 && input[0].fipsEnabled then FipsValidatedModulesEnabled else FipsValidatedModulesDisabled)
    ensures r.Version.None?
  {
    var resourceGroupName := "aro-" + randomDomainName;
    var resourceGroupId := resourceGroupID(subscriptionId, resourceGroupName);
    if |input| == 0 then
      ClusterProfile(None, Some(randomDomainName), None, Some(resourceGroupId), FipsValidatedModulesDisabled)
    else
      var config := input[0];
      var domain := if config.domain == "" then randomDomainName else config.domain;
      ClusterProfile(Some(config.pullSecret), Some(domain), None, Some(resourceGroupId), FipsOf(config.fipsEnabled))
  }

  /** `expandOpenshiftServicePrincipalProfile`. */
  function ExpandServicePrincipalProfile(input: seq<ServicePrincipalBlock>): (r: Option<ServicePrincipalProfile>)
    ensures r.None? <==> |input| == 0
    ensures r.Some? ==> r.value.ClientID == Some(input[0].clientId) && r.value.ClientSecret == Some(input[0].clientSecret)
  {
    if |input| == 0 then None
    else Some(ServicePrincipalProfile(Some(input[0].clientId), Some(input[0].clientSecret)))
  }

  const DefaultPodCidr := "10.128.0.0/14"
  const DefaultServiceCidr := "172.30.0.0/16"

  /** `expandOpenshiftNetworkProfile`. */
  function ExpandNetworkProfile(input: seq<NetworkProfileBlock>): (r: NetworkProfile)
    ensures r.PodCidr == Some(if |input| == 0 then DefaultPodCidr else input[0].podCidr)
    ensures r.ServiceCidr == Some(if |input| == 0 then DefaultServiceCidr else input[0].serviceCidr)
  {
    if |input| == 0 then NetworkProfile(Some(DefaultPodCidr), Some(DefaultServiceCidr))
    else NetworkProfile(Some(input[0].podCidr), Some(input[0].serviceCidr))
  }

  /** `expandOpenshiftMasterProfile`. */
  function ExpandMasterProfile(input: seq<MainProfileBlock>): (r: Option<MasterProfile>)
    ensures r.None? <==> |input| == 0
    ensures r.Some? ==>
      r.value.VMSize == Some(input[0].vmSize) && r.value.SubnetID == Some(input[0].subnetId)
      && r.value.DiskEncryptionSetID == Some(input[0].diskEncryptionSetId)
      && r.value.Encryption == (if input[0].encryptionAtHostEnabled then EncryptionAtHostEnabled else EncryptionAtHostDisabled)
  {
    if |input| == 0 then None
    else
      var config := input[0];
      Some(MasterProfile(Some(config.vmSize), Some(config.subnetId),
        EncryptionAtHostOf(config.encryptionAtHostEnabled), Some(config.diskEncryptionSetId)))
  }

  const WorkerProfileName := "worker"

  /** `expandOpenshiftWorkerProfiles`: nil for no block, otherwise a single
      profile named "worker" built from the first block alone. */
  function ExpandWorkerProfiles(inputs: seq<WorkerProfileBlock>): (r: Option<seq<WorkerProfile>>)
    ensures r.None? <==> |inputs| == 0
    ensures r.Some? ==>
      |r.value| == 1
      && r.value[0].Name == Some(WorkerProfileName)
      && r.value[0].VMSize == Some(inputs[0].vmSize)
      && r.value[0].DiskSizeGB == Some(ToInt32(inputs[0].diskSizeGb))
      && r.value[0].Count == Some(ToInt32(inputs[0].nodeCount))
      && r.value[0].SubnetID == Some(inputs[0].subnetId)
      && r.value[0].DiskEncryptionSetID == Some(inputs[0].diskEncryptionSetId)
      && r.value[0].Encryption
         == (if inputs[0].encryptionAtHostEnabled then EncryptionAtHostEnabled else EncryptionAtHostDisabled)
  {
    if |inputs| == 0 then None
    else
      var config := inputs[0];
      var profile := WorkerProfile(
        Some(WorkerProfileName), Some(config.vmSize), Some(ToInt32(config.diskSizeGb)), Some(config.subnetId),
        Some(ToInt32(config.nodeCount)), EncryptionAtHostOf(config.encryptionAtHostEnabled),
        Some(config.diskEncryptionSetId));
      Some([profile])
  }

  /** `expandOpenshiftApiServerProfile`. */
  function ExpandApiServerProfile(input: seq<ApiServerProfileBlock>): (r: APIServerProfile)
    ensures r.Exposure == (if |input| == 0 then VisibilityPublic else Visibility(input[0].visibility))
  {
    if |input| == 0 then APIServerProfile(VisibilityPublic)
    else APIServerProfile(Visibility(input[0].visibility))
  }

  const IngressProfileName := "default"

  /** `expandOpenshiftIngressProfiles`: always a single profile named
      "default", Public unless the first block says otherwise. */
  function ExpandIngressProfiles(inputs: seq<IngressProfileBlock>): (r: seq<IngressProfile>)
    ensures |r| == 1
    ensures r[0].Name == Some(IngressProfileName)
    ensures r[0].Exposure == (if |inputs| == 0 then VisibilityPublic else Visibility(inputs[0].visibility))
  {
    var visibility := if |inputs| > 0 then inputs[0].visibility else VisibilityPublic.value;
    var profile := IngressProfile(Some(IngressProfileName), Visibility(visibility));
    [profile]
  }

  // ---------------------------------------------------------------------------
  // Round trips: what Terraform reads back after it wrote a block.
  // ---------------------------------------------------------------------------

  /** The cluster profile comes back as configured, with an empty domain
      replaced by the random one and a missing block read as the defaults. */
  lemma ClusterProfileRoundTrip(
    input: seq<ClusterProfileBlock>, subscriptionId: string, randomDomainName: string,
    resourceGroupID: (string, string) -> string)
    ensures FlattenClusterProfile(Some(ExpandClusterProfile(input, subscriptionId, randomDomainName, resourceGroupID)))
      == if |input| == 0 then [ClusterProfileBlock("", randomDomainName, false)]
         else [input[0].(domain := if input[0].domain == "" then randomDomainName else input[0].domain)]
  {
  }

  /** The service principal comes back as configured when the configuration
      still holds it. */
  lemma ServicePrincipalRoundTrip(input: seq<ServicePrincipalBlock>, existing: seq<Option<ServicePrincipalBlock>>)
    requires |input| > 0 ==> |existing| > 0 && existing[0] == Some(input[0])
    ensures FlattenServicePrincipalProfile(ExpandServicePrincipalProfile(input), existing)
      == if |input| == 0 then [] else [input[0]]
  {
  }

  /** The network profile comes back as configured, or as the default CIDRs. */
  lemma NetworkProfileRoundTrip(input: seq<NetworkProfileBlock>)
    ensures FlattenNetworkProfile(Some(ExpandNetworkProfile(input)))
      == if |input| == 0 then [NetworkProfileBlock(DefaultPodCidr, DefaultServiceCidr)] else [input[0]]
  {
  }

  /** The master profile comes back as configured, its VM size as a reference. */
  lemma MasterProfileRoundTrip(input: seq<MainProfileBlock>)
    ensures FlattenMasterProfile(ExpandMasterProfile(input))
      == if |input| == 0 then []
         else [FlatMainProfile(Some(input[0].vmSize), input[0].subnetId,
                 input[0].encryptionAtHostEnabled, input[0].diskEncryptionSetId)]
  {
  }

  /** The worker profile comes back as configured while its integers fit in
      32 bits. */
  lemma WorkerProfilesRoundTrip(inputs: seq<WorkerProfileBlock>)
    requires |inputs| > 0
    requires -0x8000_0000 <= inputs[0].diskSizeGb < 0x8000_0000
    requires -0x8000_0000 <= inputs[0].nodeCount < 0x8000_0000
    ensures ExpandWorkerProfiles(inputs).Some?
    ensures FlattenWorkerList(ExpandWorkerProfiles(inputs).value)
      == [FlatWorkerProfile(
            Some(inputs[0].diskSizeGb as Int32), Some(inputs[0].nodeCount as Int32),
            Some(inputs[0].vmSize), Some(inputs[0].subnetId),
            inputs[0].encryptionAtHostEnabled, Some(inputs[0].diskEncryptionSetId))]
  {
    var ps := ExpandWorkerProfiles(inputs).value;
    assert FlattenWorkerList(ps)[0] == FlattenWorkerProfile(ps[0]);
  }

  /** `node_count` has no range check in the schema, so a count past 32 bits
      is sent wrapped around: 4294967299 nodes are requested as 3. */
  lemma NodeCountWrapsAround(inputs: seq<WorkerProfileBlock>)
    requires |inputs| > 0 && inputs[0].nodeCount == 0x1_0000_0003
    ensures ExpandWorkerProfiles(inputs).Some?
    ensures ExpandWorkerProfiles(inputs).value[0].Count == Some(3 as Int32)
  {
    assert ToInt32(0x1_0000_0003) == 3;
  }

  /** Only the first worker block is expanded; the others are ignored. */
  lemma WorkerProfilesUseFirstBlock(a: seq<WorkerProfileBlock>, b: seq<WorkerProfileBlock>)
    requires |a| > 0 && |b| > 0 && a[0] == b[0]
    ensures ExpandWorkerProfiles(a) == ExpandWorkerProfiles(b)
  {
  }

  /** The API server visibility comes back as configured, or as Public. */
  lemma ApiServerProfileRoundTrip(input: seq<ApiServerProfileBlock>)
    ensures FlattenAPIServerProfile(Some(ExpandApiServerProfile(input)))
      == if |input| == 0 then [ApiServerProfileBlock("Public")] else [input[0]]
  {
  }

  /** The ingress visibility comes back as configured, or as Public, in a
      list of exactly one block. */
  lemma IngressProfilesRoundTrip(inputs: seq<IngressProfileBlock>)
    ensures FlattenIngressList(ExpandIngressProfiles(inputs))
      == if |inputs| == 0 then [IngressProfileBlock("Public")] else [inputs[0]]
  {
    var ps := ExpandIngressProfiles(inputs);
    assert FlattenIngressList(ps)[0] == FlattenIngressProfile(ps[0]);
  }

  // ---------------------------------------------------------------------------
  // The update request. Each change is None when `d.HasChange` is false for
  // its block, and the new blocks otherwise. Tags are not modelled.
  // ---------------------------------------------------------------------------

  /** The profiles an update request can carry. */
  datatype ClusterProperties = ClusterProperties(
    Cluster: Option<ClusterProfile>,
    Master: Option<MasterProfile>,
    Workers: Option<seq<WorkerProfile>>)

  /** `OpenShiftClusterUpdate`: its properties are behind a reference. */
  datatype ClusterUpdate = ClusterUpdate(Properties: Option<ClusterProperties>)

  /** Writing a field through a nil properties reference: a Go runtime panic. */
  datatype UpdateError = NilPropertiesDereference

  function SetCluster(u: ClusterUpdate, p: ClusterProfile): Result<ClusterUpdate, UpdateError> {
    match u.Properties
    case None => Failure(NilPropertiesDereference)
    case Some(props) => Success(ClusterUpdate(Some(props.(Cluster := Some(p)))))
  }

  function SetMaster(u: ClusterUpdate, p: Option<MasterProfile>): Result<ClusterUpdate, UpdateError> {
    match u.Properties
    case None => Failure(NilPropertiesDereference)
    case Some(props) => Success(ClusterUpdate(Some(props.(Master := p))))
  }

  function SetWorkers(u: ClusterUpdate, ps: Option<seq<WorkerProfile>>): Result<ClusterUpdate, UpdateError> {
    match u.Properties
    case None => Failure(NilPropertiesDereference)
    case Some(props) => Success(ClusterUpdate(Some(props.(Workers := ps))))
  }

  /** The three conditional writes of the update handler, in order, starting
      from the request `parameter`. */
  function ApplyChanges(
    parameter: ClusterUpdate,
    clusterChange: Option<seq<ClusterProfileBlock>>, mainChange: Option<seq<MainProfileBlock>>,
    workerChange: Option<seq<WorkerProfileBlock>>,
    subscriptionId: string, randomDomainName: string, resourceGroupID: (string, string) -> string)
    : (r: Result<ClusterUpdate, UpdateError>)
    ensures clusterChange.None? && mainChange.None? && workerChange.None? ==> r == Success(parameter)
    ensures parameter.Properties.None? ==>
      (r.Failure? <==> clusterChange.Some? || mainChange.Some? || workerChange.Some?)
    ensures parameter.Properties.Some? ==>
      var props := parameter.Properties.value;
      && r.Success? && r.value.Properties.Some?
      && r.value.Properties.value.Cluster
         == (if clusterChange.None? then props.Cluster
             else Some(ExpandClusterProfile(clusterChange.value, subscriptionId, randomDomainName, resourceGroupID)))
      && r.value.Properties.value.Master
         == (if mainChange.None? then props.Master else ExpandMasterProfile(mainChange.value))
      && r.value.Properties.value.Workers
         == (if workerChange.None? then props.Workers else ExpandWorkerProfiles(workerChange.value))
  {
    var afterCluster :=
      if clusterChange.None? then Success(parameter)
      else SetCluster(parameter, ExpandClusterProfile(clusterChange.value, subscriptionId, randomDomainName, resourceGroupID));
    var afterMain :=
      match afterCluster
      case Failure(e) => Failure(e)
      case Success(u) => if mainChange.None? then Success(u) else SetMaster(u, ExpandMasterProfile(mainChange.value));
    match afterMain
    case Failure(e) => Failure(e)
    case Success(u) => if workerChange.None? then Success(u) else SetWorkers(u, ExpandWorkerProfiles(workerChange.value))
  }

  /** `resourceOpenShiftClusterUpdate` as written: the request is built with
      its properties reference left nil. */
  function UpdateParametersAsWritten(
    clusterChange: Option<seq<ClusterProfileBlock>>, mainChange: Option<seq<MainProfileBlock>>,
    workerChange: Option<seq<WorkerProfileBlock>>,
    subscriptionId: string, randomDomainName: string, resourceGroupID: (string, string) -> string)
    : (r: Result<ClusterUpdate, UpdateError>)
    ensures r.Success? ==> r.value.Properties.None?
  {
    ApplyChanges(ClusterUpdate(None), clusterChange, mainChange, workerChange,
      subscriptionId, randomDomainName, resourceGroupID)
  }

  /** As written, the update handler fails exactly when one of the three
      blocks changed, that is whenever it has a profile to send. */
  lemma UpdateAsWrittenFailsOnProfileChange(
    clusterChange: Option<seq<ClusterProfileBlock>>, mainChange: Option<seq<MainProfileBlock>>,
    workerChange: Option<seq<WorkerProfileBlock>>,
    subscriptionId: string, randomDomainName: string, resourceGroupID: (string, string) -> string)
    ensures UpdateParametersAsWritten(clusterChange, mainChange, workerChange,
              subscriptionId, randomDomainName, resourceGroupID).Failure?
        <==> clusterChange.Some? || mainChange.Some? || workerChange.Some?
  {
  }

  /** The update request with its properties allocated before the writes. */
  function UpdateParameters(
    clusterChange: Option<seq<ClusterProfileBlock>>, mainChange: Option<seq<MainProfileBlock>>,
    workerChange: Option<seq<WorkerProfileBlock>>,
    subscriptionId: string, randomDomainName: string, resourceGroupID: (string, string) -> string)
    : (r: Result<ClusterUpdate, UpdateError>)
    ensures r.Success?
  {
    ApplyChanges(ClusterUpdate(Some(ClusterProperties(None, None, None))), clusterChange, mainChange, workerChange,
      subscriptionId, randomDomainName, resourceGroupID)
  }

  /** The corrected request always builds, and carries the expansion of each
      changed block and nothing for an unchanged one. */
  lemma UpdateParametersCarryChanges(
    clusterChange: Option<seq<ClusterProfileBlock>>, mainChange: Option<seq<MainProfileBlock>>,
    workerChange: Option<seq<WorkerProfileBlock>>,
    subscriptionId: string, randomDomainName: string, resourceGroupID: (string, string) -> string)
    ensures var r := UpdateParameters(clusterChange, mainChange, workerChange,
              subscriptionId, randomDomainName, resourceGroupID);
      && r.Success? && r.value.Properties.Some?
      && r.value.Properties.value.Cluster
         == (if clusterChange.None? then None
             else Some(ExpandClusterProfile(clusterChange.value, subscriptionId, randomDomainName, resourceGroupID)))
      && r.value.Properties.value.Master
         == (if mainChange.None? then None else ExpandMasterProfile(mainChange.value))
      && r.value.Properties.value.Workers
         == (if workerChange.None? then None else ExpandWorkerProfiles(workerChange.value))
  {
  }

  // ---------------------------------------------------------------------------
  // The cluster's ID at its call sites. Its literal tokens are not part of
  // this model, so the shape is a parameter: any valid shape with the three
  // values subscription, resource group and cluster name.
  // ---------------------------------------------------------------------------

  /** Create stores `NewRedhatOpenShiftClusterID(...).ID()` and then calls
      read, which parses the stored ID back: the resource group and the name
      read uses to fetch the cluster are the ones create used. */
  lemma CreatedIdParsesOnRead(
    clusterIdShape: Shape, subscriptionId: string, resourceGroupName: string, name: string)
    requires ValidShape(clusterIdShape) && ValueCount(clusterIdShape) == 3
    requires ValidValue(subscriptionId) && ValidValue(resourceGroupName) && ValidValue(name)
    ensures Parse(clusterIdShape, Format(clusterIdShape, [subscriptionId, resourceGroupName, name]))
      == Success([subscriptionId, resourceGroupName, name])
  {
    var vs := [subscriptionId, resourceGroupName, name];
    assert vs[0] == subscriptionId && vs[1] == resourceGroupName && vs[2] == name;
    ParseFormat(clusterIdShape, vs);
  }

  /** The schema only asks the cluster name to be non-empty. A name holding
      '/' is formatted into the stored ID as it is, and that ID does not parse
      back to the same three values. */
  lemma SlashNameNotReparsed(
    clusterIdShape: Shape, subscriptionId: string, resourceGroupName: string, name: string)
    requires ValidShape(clusterIdShape) && ValueCount(clusterIdShape) == 3
    requires '/' in name
    ensures Parse(clusterIdShape, Format(clusterIdShape, [subscriptionId, resourceGroupName, name]))
      != Success([subscriptionId, resourceGroupName, name])
  {
    var vs := [subscriptionId, resourceGroupName, name];
    assert !ValidValue(vs[2]);
    assert !ValidValues(vs);
    ParseIff(clusterIdShape, Format(clusterIdShape, vs), vs);
  }
}
