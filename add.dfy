/** `-add <type> <name>` (cfh.py:428-549): the name is reduced to its alphanumeric
    characters and the type picks the set of parameters and resources written into
    the template. Each set is a list of assignments made one after the other. */
module Add {
  import opened Wrappers
  import opened Json
  import opened OrderedDict
  import opened Templates
  import opened Text
  import opened Document
  import opened Resolve

  /** Assignments into one partition, in the order the source makes them. */
  type Bundle = seq<(string, Json)>

  predicate AllResources(pairs: Bundle) {
    forall i :: 0 <= i < |pairs| ==> IsResource(pairs[i].1)
  }

  /** `Resources[k] = v` for each pair in turn: each assigned name holds its
      resource, every other resource is untouched, and nothing else changes. */
  function PutResources(doc: Document, pairs: Bundle): (d: Document)
    requires WellFormed(doc) && AllResources(pairs) && Distinct(KeysOf(pairs))
    ensures WellFormed(d)
    ensures d.header == doc.header && d.parameters == doc.parameters && d.outputs == doc.outputs
    ensures doc.resources.keys <= d.resources.keys
    ensures forall k :: k in d.resources.entries <==> k in doc.resources.entries || k in KeysOf(pairs)
    ensures forall i :: 0 <= i < |pairs| ==> d.resources.entries[pairs[i].0] == pairs[i].1
    ensures forall k :: k in doc.resources.entries && k !in KeysOf(pairs) ==> d.resources.entries[k] == doc.resources.entries[k]
  {
    var resources := PutAll(doc.resources, pairs);
    forall i | 0 <= i < |pairs| ensures resources.entries[pairs[i].0] == pairs[i].1 {
      PutAllAssigned(doc.resources, pairs, i);
    }
    forall k | k in doc.resources.entries && k !in KeysOf(pairs) ensures resources.entries[k] == doc.resources.entries[k] {
      PutAllOthers(doc.resources, pairs, k);
    }
    forall k | k in resources.entries ensures IsResource(resources.entries[k]) {
      if k in KeysOf(pairs) {
        var i :| 0 <= i < |pairs| && KeysOf(pairs)[i] == k;
      }
    }
    doc.(resources := resources)
  }

  /** `Parameters[k] = v` */
  function PutParameter(doc: Document, k: string, v: Json): (d: Document)
    requires WellFormed(doc)
    ensures WellFormed(d)
    ensures d.header == doc.header && d.resources == doc.resources && d.outputs == doc.outputs
    ensures d.parameters.entries == doc.parameters.entries[k := v]
  {
    doc.(parameters := Put(doc.parameters, k, v))
  }

  /** `Outputs[k] = v` */
  function PutOutput(doc: Document, k: string, v: Json): (d: Document)
    requires WellFormed(doc)
    ensures WellFormed(d)
    ensures d.header == doc.header && d.resources == doc.resources && d.parameters == doc.parameters
    ensures d.outputs.entries == doc.outputs.entries[k := v]
  {
    doc.(outputs := Put(doc.outputs, k, v))
  }

  /** `name` followed by each suffix. */
  function Prefixed(name: string, suffixes: seq<string>): (r: seq<string>)
    ensures |r| == |suffixes| && forall i :: 0 <= i < |suffixes| ==> r[i] == name + suffixes[i]
  {
    if suffixes == [] then [] else [name + suffixes[0]] + Prefixed(name, suffixes[1..])
  }

  /** Distinct suffixes of one name give distinct names. */
  lemma PrefixedDistinct(name: string, suffixes: seq<string>)
    requires Distinct(suffixes)
    ensures Distinct(Prefixed(name, suffixes))
  {
    var r := Prefixed(name, suffixes);
    forall i, j | 0 <= i < j < |suffixes| ensures r[i] != r[j] {
      assert r[i][|name|..] == suffixes[i] && r[j][|name|..] == suffixes[j];
    }
  }

  const LatestAmiParameter := "LatestAmiId"

  function RoleName(name: string): string { name + "ec2Role" }
  function ProfileName(name: string): string { name + "ec2InstanceProfile" }
  function ExecutionRoleName(name: string): string { name + "ExecutionRole" }

  // ----------------------------------------------------------------- bundles

  predicate AllResourceValues(vs: seq<Json>) {
    forall i :: 0 <= i < |vs| ==> IsResource(vs[i])
  }

  lemma Resources4(a: Json, b: Json, c: Json, d: Json)
    requires IsResource(a) && IsResource(b) && IsResource(c) && IsResource(d)
    ensures AllResourceValues([a, b, c, d])
  {
  }

  lemma ResourcesConcat(vs: seq<Json>, ws: seq<Json>)
    requires AllResourceValues(vs) && AllResourceValues(ws)
    ensures AllResourceValues(vs + ws)
  {
    assert forall i :: |vs| <= i < |vs + ws| ==> (vs + ws)[i] == ws[i - |vs|];
  }

  /** The assignments `keys[i] = values[i]`, in order. */
  function Zip(keys: seq<string>, values: seq<Json>): (b: Bundle)
    requires |keys| == |values|
    ensures |b| == |keys| && KeysOf(b) == keys
    ensures forall i :: 0 <= i < |b| ==> b[i] == (keys[i], values[i])
    ensures AllResourceValues(values) ==> AllResources(b)
  {
    var b := seq(|keys|, i requires 0 <= i < |keys| => (keys[i], values[i]));
    assert KeysOf(b) == keys;
    b
  }

  const VpcSuffixes := ["", "SubnetA0", "SubnetB0", "SubnetA1", "SubnetB1", "igw", "igwattachment",
                        "RouteTable", "RouteIGW", "SubnetA0Route", "SubnetB0Route", "SubnetA1Route", "SubnetB1Route"]

  /** The four subnets: two public ones (addresses mapped on launch) and two private
      ones, alternating between the first two availability zones. */
  function SubnetResources(name: string): (vs: seq<Json>)
    ensures |vs| == 4 && AllResourceValues(vs)
  {
    var a0 := ResourceVpcSubnet(name, "10.0.0.0/24", 0, map["MapPublicIpOnLaunch" := JBool(true)]);
    var b0 := ResourceVpcSubnet(name, "10.0.1.0/24", 1, map["MapPublicIpOnLaunch" := JBool(true)]);
    var a1 := ResourceVpcSubnet(name, "10.0.2.0/24", 0, map["MapPublicIpOnLaunch" := JBool(false)]);
    var b1 := ResourceVpcSubnet(name, "10.0.3.0/24", 1, map["MapPublicIpOnLaunch" := JBool(false)]);
    Resources4(a0, b0, a1, b1);
    [a0, b0, a1, b1]
  }

  /** The gateway, its attachment, the route table with its default route, and one
      route-table association per subnet. */
  function RoutingResources(name: string): (vs: seq<Json>)
    ensures |vs| == 8 && AllResourceValues(vs)
  {
    var igw := ResourceVpcIgw();
    var attachment := ResourceVpcIgwAttachment(name + "igw", name);
    var table := ResourceVpcRouteTable(name);
    var route := ResourceVpcDefaultRouteIgw(name + "igw", name + "RouteTable");
    Resources4(igw, attachment, table, route);
    var a0 := ResourceVpcSubnetRoute(name + "SubnetA0", name + "RouteTable");
    var b0 := ResourceVpcSubnetRoute(name + "SubnetB0", name + "RouteTable");
    var a1 := ResourceVpcSubnetRoute(name + "SubnetA1", name + "RouteTable");
    var b1 := ResourceVpcSubnetRoute(name + "SubnetB1", name + "RouteTable");
    Resources4(a0, b0, a1, b1);
    ResourcesConcat([igw, attachment, table, route], [a0, b0, a1, b1]);
    [igw, attachment, table, route] + [a0, b0, a1, b1]
  }

  function VpcResources(name: string): (vs: seq<Json>)
    ensures |vs| == 13 && AllResourceValues(vs)
  {
    var vpc := ResourceVpc("10.0.0.0/22");
    ResourcesConcat([vpc], SubnetResources(name));
    ResourcesConcat([vpc] + SubnetResources(name), RoutingResources(name));
    [vpc] + SubnetResources(name) + RoutingResources(name)
  }

  lemma VpcSuffixesDistinct()
    ensures |VpcSuffixes| == 13 && Distinct(VpcSuffixes)
  {
  }

  /** The names of the thirteen resources of VPC `name`. */
  function VpcNames(name: string): seq<string> {
    Prefixed(name, VpcSuffixes)
  }

  /** The thirteen resources of a VPC, named after `name` with its suffixes, in the
      order of cfh.py:532-544. */
  function VpcBundle(name: string): (b: Bundle)
    ensures AllResources(b)
    ensures KeysOf(b) == VpcNames(name)
    ensures Distinct(KeysOf(b))
  {
    VpcSuffixesDistinct();
    PrefixedDistinct(name, VpcSuffixes);
    Zip(Prefixed(name, VpcSuffixes), VpcResources(name))
  }

  // --------------------------------------------------------- one kind each

  /** `Resources[k] = v` */
  function PutResource(doc: Document, k: string, v: Json): (d: Document)
    requires WellFormed(doc) && IsResource(v)
    ensures WellFormed(d)
    ensures d.header == doc.header && d.parameters == doc.parameters && d.outputs == doc.outputs
    ensures d.resources.entries == doc.resources.entries[k := v]
    ensures doc.resources.keys <= d.resources.keys
  {
    doc.(resources := Put(doc.resources, k, v))
  }

  /** `d` is a well-formed template with the header of `doc` whose resources are
      those of `doc` and `names`, the old ones first and in their old order; every
      other resource keeps its value. */
  ghost predicate Extends(doc: Document, d: Document, names: seq<string>) {
    && WellFormed(d) && d.header == doc.header
    && doc.resources.keys <= d.resources.keys
    && (forall k :: k in d.resources.entries <==> k in doc.resources.entries || k in names)
    && (forall k :: k in doc.resources.entries && k !in names ==> d.resources.entries[k] == doc.resources.entries[k])
  }

  /** Extending a template that differs from `doc` only in its parameters extends `doc`. */
  lemma ExtendsParametersOnly(doc: Document, d1: Document, d: Document, names: seq<string>)
    requires ParametersOnly(doc, d1) && Extends(d1, d, names)
    ensures Extends(doc, d, names)
  {
  }

  lemma ExtendsByOne(doc: Document, d: Document, k: string, v: Json)
    requires WellFormed(d) && d.header == doc.header && doc.resources.keys <= d.resources.keys
    requires d.resources.entries == doc.resources.entries[k := v]
    ensures Extends(doc, d, [k])
  {
  }

  lemma ExtendsByTwo(doc: Document, d: Document, k1: string, v1: Json, k2: string, v2: Json)
    requires WellFormed(d) && d.header == doc.header && doc.resources.keys <= d.resources.keys
    requires d.resources.entries == doc.resources.entries[k1 := v1][k2 := v2]
    ensures Extends(doc, d, [k1, k2])
  {
  }

  /** `s3`: a private bucket under `name`. */
  function AddS3(doc: Document, name: string): (d: Document)
    requires WellFormed(doc)
    ensures Extends(doc, d, Written(S3, name)) && d.parameters == doc.parameters && d.outputs == doc.outputs
  {
    assert Written(S3, name) == [name];
    var d := PutResource(doc, name, ResourceS3());
    ExtendsByOne(doc, d, name, ResourceS3());
    d
  }

  /** `s3` stores the private bucket under `name` and changes nothing else. */
  lemma AddS3Spec(doc: Document, name: string)
    requires WellFormed(doc)
    ensures AddS3(doc, name).resources.entries == doc.resources.entries[name := ResourceS3()]
  {
  }

  /** `static`: the website bucket, then its public-read policy, then the website
      URL output, all named after `name`. */
  function AddStatic(doc: Document, name: string): (d: Document)
    requires WellFormed(doc)
    ensures Extends(doc, d, Written(Static, name)) && d.parameters == doc.parameters
  {
    assert Written(Static, name) == [name, name + "bucketPolicy"];
    var d1 := PutResource(doc, name, ResourceStatic());
    var d2 := PutResource(d1, name + "bucketPolicy", ResourceStaticBucketPolicy(name));
    var d := PutOutput(d2, name, OutputWebsiteURL(name));
    ExtendsByTwo(doc, d, name, ResourceStatic(), name + "bucketPolicy", ResourceStaticBucketPolicy(name));
    d
  }

  /** `static` stores the website bucket and the policy on it, and adds the website
      URL output under `name`. */
  lemma AddStaticSpec(doc: Document, name: string)
    requires WellFormed(doc)
    ensures var d := AddStatic(doc, name);
      && d.resources.entries
         == doc.resources.entries[name := ResourceStatic()][name + "bucketPolicy" := ResourceStaticBucketPolicy(name)]
      && d.outputs.entries == doc.outputs.entries[name := OutputWebsiteURL(name)]
  {
  }

  /** `lambda`: the function, then its execution role. */
  function AddLambda(doc: Document, name: string): (d: Document)
    requires WellFormed(doc)
    ensures Extends(doc, d, Written(Lambda, name)) && d.parameters == doc.parameters && d.outputs == doc.outputs
  {
    assert Written(Lambda, name) == [name, ExecutionRoleName(name)];
    var d1 := PutResource(doc, name, ResourceLambda(name));
    var d := PutResource(d1, ExecutionRoleName(name), ResourceLambdaExecutionRole(name));
    ExtendsByTwo(doc, d, name, ResourceLambda(name), ExecutionRoleName(name), ResourceLambdaExecutionRole(name));
    d
  }

  /** `lambda` stores the function and its execution role. */
  lemma AddLambdaSpec(doc: Document, name: string)
    requires WellFormed(doc)
    ensures AddLambda(doc, name).resources.entries
            == doc.resources.entries[name := ResourceLambda(name)][ExecutionRoleName(name) := ResourceLambdaExecutionRole(name)]
  {
  }

  /** The names an instance bundle writes: role, profile and the resource itself. */
  function InstanceNames(name: string): seq<string> {
    [RoleName(name), ProfileName(name), name]
  }

  /** The resources an instance-like `name` brings along: the role, then the
      instance profile holding it, then `last`, which runs under that profile. */
  function WithInstance(resources: map<string, Json>, name: string, last: Json): map<string, Json> {
    resources[RoleName(name) := ResourceEc2Role()]
             [ProfileName(name) := ResourceEc2InstanceProfile(RoleName(name))]
             [name := last]
  }

  /** The `LatestAmiId` parameter, then the role, the profile and `last`. */
  function PutInstanceBundle(doc: Document, name: string, last: Json): (d: Document)
    requires WellFormed(doc) && IsResource(last)
    ensures Extends(doc, d, InstanceNames(name)) && d.outputs == doc.outputs
  {
    var d1 := PutParameter(doc, LatestAmiParameter, ParameterLatestAmiId());
    var d2 := PutResource(d1, RoleName(name), ResourceEc2Role());
    var d3 := PutResource(d2, ProfileName(name), ResourceEc2InstanceProfile(RoleName(name)));
    var d := PutResource(d3, name, last);
    assert d.resources.entries == WithInstance(doc.resources.entries, name, last);
    d
  }

  /** What the instance bundle stores: parameter `LatestAmiId`, then the role, the
      profile wrapping it and `last`. */
  lemma PutInstanceBundleSpec(doc: Document, name: string, last: Json)
    requires WellFormed(doc) && IsResource(last)
    ensures var d := PutInstanceBundle(doc, name, last);
      && d.resources.entries == WithInstance(doc.resources.entries, name, last)
      && d.parameters.entries == doc.parameters.entries[LatestAmiParameter := ParameterLatestAmiId()]
  {
  }

  /** The launch template of `name`, guarded by security group `sg`. */
  function LaunchTemplateOf(name: string, sg: string): Json {
    ResourceEc2LaunchTemplate(name, ProfileName(name), LatestAmiParameter, sg)
  }

  /** `launchtemplate`: the security group `request_sg` resolves, then the instance
      bundle ending in a launch template guarded by that group. */
  function AddLaunchTemplate(doc: Document, name: string, sg: Option<string>): (r: Result<Document, Error>)
    requires WellFormed(doc)
    ensures r.Ok? ==> Extends(doc, r.value, Written(LaunchTemplate, name))
  {
    assert Written(LaunchTemplate, name) == InstanceNames(name);
    var requested :- RequestSg(doc, name, sg);
    var d := PutInstanceBundle(requested.0, name, LaunchTemplateOf(name, requested.1));
    ExtendsParametersOnly(doc, requested.0, d, InstanceNames(name));
    Ok(d)
  }

  /** `launchtemplate` fails exactly when `request_sg` does, with its error. Otherwise
      it stores the launch template under `name`, referring to the chosen security
      group, the new instance profile and the `LatestAmiId` parameter, with the role
      and the profile; the parameters are those `request_sg` leaves plus `LatestAmiId`. */
  lemma AddLaunchTemplateSpec(doc: Document, name: string, sg: Option<string>)
    requires WellFormed(doc)
    ensures var r := AddLaunchTemplate(doc, name, sg);
      && (r.Err? <==> RequestSg(doc, name, sg).Err?)
      && (r.Err? ==> r.error == RequestSg(doc, name, sg).error)
      && (r.Ok? ==>
            && r.value.resources.entries
               == WithInstance(doc.resources.entries, name, LaunchTemplateOf(name, ChosenSecurityGroup(name, sg)))
            && r.value.parameters.entries
               == SecurityGroupParameters(doc.parameters.entries, name, sg)[LatestAmiParameter := ParameterLatestAmiId()])
  {
    RequestSgSpec(doc, name, sg);
    var requested := RequestSg(doc, name, sg);
    if requested.Ok? {
      PutInstanceBundleSpec(requested.value.0, name, LaunchTemplateOf(name, requested.value.1));
    }
  }

  /** The resource the autoscaling group of `name` is stored under. */
  function AutoscalingName(name: string): string { name + "AutoScaling" }

  /** `autoscaling`: the subnet step, then the choice of launch template, then the group. */
  function AddAutoscaling(doc: Document, name: string, lt: Option<string>, subnet: Option<string>): (r: Result<Document, Error>)
    requires WellFormed(doc)
    ensures r.Ok? ==> Extends(doc, r.value, Written(Autoscaling, name)) && r.value.outputs == doc.outputs
  {
    assert Written(Autoscaling, name) == [AutoscalingName(name)];
    var subnets :- AutoscalingSubnets(doc, name, subnet);
    var chosen :- SelectLaunchTemplate(ResourcesOfType(subnets.0.resources, LaunchTemplateType), lt);
    var d := PutResource(subnets.0, AutoscalingName(name), ResourceAutoscaling(name, chosen, subnets.1));
    ExtendsByOne(doc, d, AutoscalingName(name), ResourceAutoscaling(name, chosen, subnets.1));
    Ok(d)
  }

  /** `autoscaling` fails when the subnet step does, and otherwise when no launch
      template can be chosen, with that step's error. Otherwise it stores the group
      under `<name>AutoScaling`, over the chosen launch template and the subnet
      identifier of the subnet step, whose parameters it keeps. */
  lemma AddAutoscalingSpec(doc: Document, name: string, lt: Option<string>, subnet: Option<string>)
    requires WellFormed(doc)
    ensures var r := AddAutoscaling(doc, name, lt, subnet);
      var s := AutoscalingSubnets(doc, name, subnet);
      var chosen := SelectLaunchTemplate(ResourcesOfType(doc.resources, LaunchTemplateType), lt);
      && (s.Err? ==> r == Err(s.error))
      && (s.Ok? && chosen.Err? ==> r == Err(chosen.error))
      && (r.Ok? <==> s.Ok? && chosen.Ok?)
      && (r.Ok? ==>
            && r.value.resources.entries
               == doc.resources.entries[AutoscalingName(name) := ResourceAutoscaling(name, chosen.value, s.value.1)]
            && r.value.parameters == s.value.0.parameters)
  {
  }

  /** `securitygroup`: the VPC step, then the web security group in that VPC. */
  function AddSecurityGroup(doc: Document, name: string): (d: Document)
    requires WellFormed(doc)
    ensures Extends(doc, d, Written(SecurityGroup, name)) && d.outputs == doc.outputs
  {
    assert Written(SecurityGroup, name) == [name];
    var (d1, vpc) := SecurityGroupVpc(doc);
    var d := PutResource(d1, name, ResourceSecurityGroupWeb(vpc));
    ExtendsByOne(doc, d, name, ResourceSecurityGroupWeb(vpc));
    d
  }

  /** `securitygroup` stores the web security group under `name`, in the VPC the
      VPC step chooses, and keeps the parameters that step leaves. */
  lemma AddSecurityGroupSpec(doc: Document, name: string)
    requires WellFormed(doc)
    ensures var d := AddSecurityGroup(doc, name);
      && d.resources.entries == doc.resources.entries[name := ResourceSecurityGroupWeb(SecurityGroupVpc(doc).1)]
      && d.parameters == SecurityGroupVpc(doc).0.parameters
  {
  }

  /** The instance of `name` in `subnet`, guarded by security group `sg`. */
  function InstanceOf(name: string, sg: string, subnet: string): Json {
    ResourceEc2Instance(ProfileName(name), LatestAmiParameter, sg, subnet)
  }

  /** `ec2`: the subnet step, then `request_sg`, then the instance bundle ending in
      an instance in that subnet guarded by that group. */
  function AddEc2(doc: Document, name: string, sg: Option<string>, subnet: Option<string>): (r: Result<Document, Error>)
    requires WellFormed(doc)
    ensures r.Ok? ==> Extends(doc, r.value, Written(Ec2, name))
  {
    assert Written(Ec2, name) == InstanceNames(name);
    var (d1, chosenSubnet) := Ec2Subnet(doc, name, subnet);
    var requested :- RequestSg(d1, name, sg);
    var d := PutInstanceBundle(requested.0, name, InstanceOf(name, requested.1, chosenSubnet));
    ExtendsParametersOnly(d1, requested.0, d, InstanceNames(name));
    ExtendsParametersOnly(doc, d1, d, InstanceNames(name));
    Ok(d)
  }

  /** `ec2` fails exactly when `request_sg` does: `-subnet` is never checked, so any
      string is accepted. Otherwise it stores the instance under `name`, in the chosen
      subnet and guarded by the chosen security group, with its role and profile; the
      parameters are those the subnet step and `request_sg` leave, plus `LatestAmiId`. */
  lemma AddEc2Spec(doc: Document, name: string, sg: Option<string>, subnet: Option<string>)
    requires WellFormed(doc)
    ensures var r := AddEc2(doc, name, sg, subnet);
      && (r.Err? <==> RequestSg(doc, name, sg).Err?)
      && (r.Err? ==> r.error == RequestSg(doc, name, sg).error)
      && (r.Ok? ==>
            && r.value.resources.entries
               == WithInstance(doc.resources.entries, name, InstanceOf(name, ChosenSecurityGroup(name, sg), ChosenSubnet(name, subnet)))
            && r.value.parameters.entries
               == SecurityGroupParameters(SubnetParameters(doc.parameters.entries, name, subnet), name, sg)[LatestAmiParameter := ParameterLatestAmiId()]
            && r.value.outputs == doc.outputs)
  {
    var s := Ec2Subnet(doc, name, subnet);
    RequestSgSameResources(doc, s.0, name, sg);
    RequestSgSpec(s.0, name, sg);
    var requested := RequestSg(s.0, name, sg);
    if requested.Ok? {
      PutInstanceBundleSpec(requested.value.0, name, InstanceOf(name, requested.value.1, s.1));
    }
  }

  /** `vpc`: the VPC and its twelve companions, stored under `name` and its suffixes. */
  function AddVpc(doc: Document, name: string): (d: Document)
    requires WellFormed(doc)
    ensures Extends(doc, d, Written(Vpc, name)) && d.parameters == doc.parameters && d.outputs == doc.outputs
  {
    assert Written(Vpc, name) == VpcNames(name);
    PutResources(doc, VpcBundle(name))
  }

  /** `vpc` stores the thirteen resources under `name` and its suffixes. */
  lemma AddVpcSpec(doc: Document, name: string)
    requires WellFormed(doc)
    ensures forall i :: 0 <= i < |VpcSuffixes| ==>
              name + VpcSuffixes[i] in AddVpc(doc, name).resources.entries
              && AddVpc(doc, name).resources.entries[name + VpcSuffixes[i]] == VpcResources(name)[i]
  {
    var b := VpcBundle(name);
    assert forall i :: 0 <= i < |VpcSuffixes| ==> b[i] == (name + VpcSuffixes[i], VpcResources(name)[i]);
  }

  /** When none of the thirteen names is taken, `vpc` appends them after the old
      resources, in the order the source assigns them. */
  lemma AddVpcOrder(doc: Document, name: string)
    requires WellFormed(doc)
    requires forall k :: k in VpcNames(name) ==> k !in doc.resources.entries
    ensures AddVpc(doc, name).resources.keys == doc.resources.keys + VpcNames(name)
  {
    var b := VpcBundle(name);
    DistinctNoRepeats(KeysOf(b));
    PutAllFresh(doc.resources, b);
  }

  // ------------------------------------------------------------- dispatch

  /** The resource types `-add` knows. */
  datatype Kind = S3 | Static | Lambda | LaunchTemplate | Autoscaling | SecurityGroup | Ec2 | Vpc

  /** The word that selects each kind on the command line. */
  function KindName(k: Kind): string {
    match k
    case S3 => "s3"
    case Static => "static"
    case Lambda => "lambda"
    case LaunchTemplate => "launchtemplate"
    case Autoscaling => "autoscaling"
    case SecurityGroup => "securitygroup"
    case Ec2 => "ec2"
    case Vpc => "vpc"
  }

  /** The `if resource == ... elif ...` chain: the kind a word selects, compared as
      typed (no case folding), or None for an unknown type. */
  function ParseKind(s: string): (k: Option<Kind>)
    ensures k.Some? ==> KindName(k.value) == s
    ensures k.None? ==> forall x :: KindName(x) != s
  {
    if s == "s3" then Some(S3)
    else if s == "static" then Some(Static)
    else if s == "lambda" then Some(Lambda)
    else if s == "launchtemplate" then Some(LaunchTemplate)
    else if s == "autoscaling" then Some(Autoscaling)
    else if s == "securitygroup" then Some(SecurityGroup)
    else if s == "ec2" then Some(Ec2)
    else if s == "vpc" then Some(Vpc)
    else None
  }

  /** Every kind is selected by its own word. */
  lemma ParseKindName(k: Kind)
    ensures ParseKind(KindName(k)) == Some(k)
  {
  }

  /** The kinds that resolve a security group, subnets or a launch template first,
      and so can fail. */
  predicate Resolves(k: Kind) {
    k == LaunchTemplate || k == Autoscaling || k == Ec2
  }

  /** The resource names `-add <kind> <name>` writes. */
  function Written(k: Kind, name: string): seq<string> {
    match k
    case S3 => [name]
    case SecurityGroup => [name]
    case Static => [name, name + "bucketPolicy"]
    case Lambda => [name, ExecutionRoleName(name)]
    case Vpc => VpcNames(name)
    case Autoscaling => [AutoscalingName(name)]
    case LaunchTemplate => InstanceNames(name)
    case Ec2 => InstanceNames(name)
  }

  /** One kind, its name already sanitised: only the kinds that resolve something can fail. */
  function AddKind(doc: Document, k: Kind, name: string, sg: Option<string>, lt: Option<string>, subnet: Option<string>): (r: Result<Document, Error>)
    requires WellFormed(doc)
    ensures !Resolves(k) ==> r.Ok?
    ensures r.Ok? ==> Extends(doc, r.value, Written(k, name))
  {
    match k
    case S3 => Ok(AddS3(doc, name))
    case Static => Ok(AddStatic(doc, name))
    case Lambda => Ok(AddLambda(doc, name))
    case SecurityGroup => Ok(AddSecurityGroup(doc, name))
    case Vpc => Ok(AddVpc(doc, name))
    case LaunchTemplate => AddLaunchTemplate(doc, name, sg)
    case Autoscaling => AddAutoscaling(doc, name, lt, subnet)
    case Ec2 => AddEc2(doc, name, sg, subnet)
  }

  /** `-add <type> <name> ...`: the name is sanitised and the type picks the branch.
      A missing name is an uncaught IndexError and an unknown type is fatal; only
      the kinds that resolve a security group, subnets or a launch template can
      fail otherwise. On success the header is untouched and the resources are the
      old ones plus exactly the names the kind writes, every other resource
      keeping its value. */
  function Add(doc: Document, add: seq<string>, sg: Option<string>, lt: Option<string>, subnet: Option<string>): (r: Result<Document, Error>)
    requires WellFormed(doc) && |add| >= 1
    ensures |add| < 2 ==> r == Err(Crash)
    ensures |add| >= 2 && ParseKind(add[0]).None? ==> r == Err(UnknownResourceType(add[0]))
    ensures |add| >= 2 && ParseKind(add[0]).Some? && !Resolves(ParseKind(add[0]).value) ==> r.Ok?
    ensures r.Ok? ==> && |add| >= 2 && ParseKind(add[0]).Some?
                      && Extends(doc, r.value, Written(ParseKind(add[0]).value, Sanitise(add[1])))
  {
    if |add| < 2 then Err(Crash)
    else
      match ParseKind(add[0])
      case None => Err(UnknownResourceType(add[0]))
      case Some(k) => AddKind(doc, k, Sanitise(add[1]), sg, lt, subnet)
  }
}
