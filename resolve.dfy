/** How `-add` decides which logical names a new resource refers to: the security
    group (`request_sg`, cfh.py:346-368), the subnets and launch template of an
    autoscaling group (cfh.py:455-493), the VPC of a security group
    (cfh.py:498-506) and the subnet of an instance (cfh.py:512-524). Each either
    names an existing resource, or creates a parameter of that name for the stack
    user to fill in. */
module Resolve {
  import opened Wrappers
  import opened Json
  import opened OrderedDict
  import opened Templates
  import opened Text
  import opened Document

  const ParameterSecurityGroupType := "AWS::EC2::SecurityGroup::Id"

  /** The parameter asking for the security group of resource `name`. */
  function SecurityGroupParameter(name: string): string { name + "SecurityGroup" }

  /** The parameter asking for the subnets of autoscaling group `name`. */
  function SubnetsParameter(name: string): string { name + "Subnets" }

  /** The parameter asking for the subnet of instance `name`. */
  function SubnetParameter(name: string): string { name + "Subnet" }

  const VpcParameter := "VpcId"

  /** The security group a new resource refers to: the one `-sg` names, or the parameter. */
  function ChosenSecurityGroup(name: string, sg: Option<string>): string {
    if Given(sg) then sg.value else SecurityGroupParameter(name)
  }

  /** The parameters `request_sg` leaves behind: without `<name>SecurityGroup` when
      `-sg` names a group, with that parameter (re)created otherwise. */
  function SecurityGroupParameters(params: map<string, Json>, name: string, sg: Option<string>): map<string, Json> {
    if Given(sg) then params - {SecurityGroupParameter(name)}
    else params[SecurityGroupParameter(name) := ParameterSecurityGroup()]
  }

  /** `d` differs from `doc` at most in its parameters, and is well formed. */
  predicate ParametersOnly(doc: Document, d: Document) {
    WellFormed(d) && d.header == doc.header && d.resources == doc.resources && d.outputs == doc.outputs
  }

  /** `request_sg`: with `-sg` the named resource must exist and be a security group,
      and the parameter `<name>SecurityGroup` is dropped; without it that parameter
      is (re)created. Only the parameters change. */
  function RequestSg(doc: Document, name: string, sg: Option<string>): (r: Result<(Document, string), Error>)
    requires WellFormed(doc)
    ensures r.Ok? ==> ParametersOnly(doc, r.value.0)
  {
    if Given(sg) then
      if sg.value !in doc.resources.entries then Err(SecurityGroupNotFound)
      else if !HasType(doc.resources.entries[sg.value], SecurityGroupType) then Err(NotASecurityGroup)
      else Ok((doc.(parameters := Remove(doc.parameters, SecurityGroupParameter(name))), sg.value))
    else
      Ok((doc.(parameters := Put(doc.parameters, SecurityGroupParameter(name), ParameterSecurityGroup())), SecurityGroupParameter(name)))
  }

  /** Both branches of `request_sg`: an explicit group is checked (two distinct fatal
      errors) and used, and the parameter of the resource is removed; otherwise the
      parameter is created and used. Either way the name returned resolves to a
      security group, as a resource or as a parameter. */
  lemma RequestSgSpec(doc: Document, name: string, sg: Option<string>)
    requires WellFormed(doc)
    ensures var r := RequestSg(doc, name, sg);
      && (Given(sg) && sg.value !in doc.resources.entries ==> r == Err(SecurityGroupNotFound))
      && (Given(sg) && sg.value in doc.resources.entries && !HasType(doc.resources.entries[sg.value], SecurityGroupType) ==>
            r == Err(NotASecurityGroup))
      && (r.Err? ==> Given(sg))
      && (r.Ok? && Given(sg) ==>
            && r.value.1 == sg.value && HasType(doc.resources.entries[r.value.1], SecurityGroupType)
            && r.value.0.parameters.entries == doc.parameters.entries - {SecurityGroupParameter(name)})
      && (!Given(sg) ==>
            && r.Ok? && r.value.1 == SecurityGroupParameter(name)
            && r.value.0.parameters.entries == doc.parameters.entries[r.value.1 := ParameterSecurityGroup()]
            && HasType(r.value.0.parameters.entries[r.value.1], ParameterSecurityGroupType))
      && (r.Ok? ==> r.value.1 == ChosenSecurityGroup(name, sg)
                    && r.value.0.parameters.entries == SecurityGroupParameters(doc.parameters.entries, name, sg))
  {
  }

  /** Whether and how the request fails depends on the resources alone. */
  lemma RequestSgSameResources(a: Document, b: Document, name: string, sg: Option<string>)
    requires WellFormed(a) && WellFormed(b) && a.resources == b.resources
    ensures RequestSg(a, name, sg).Err? <==> RequestSg(b, name, sg).Err?
    ensures RequestSg(a, name, sg).Err? ==> RequestSg(a, name, sg).error == RequestSg(b, name, sg).error
  {
  }

  /** The launch template of an autoscaling group: the only one there is (whatever
      `-lt` says), or, when there are several, the one `-lt` names. */
  function SelectLaunchTemplate(templates: seq<string>, lt: Option<string>): (r: Result<string, Error>)
    ensures r.Ok? ==> r.value in templates
    ensures |templates| == 1 ==> r == Ok(templates[0])
    ensures |templates| == 0 ==> r == Err(NoLaunchTemplates)
    ensures |templates| > 1 && !Given(lt) ==> r == Err(TooManyLaunchTemplates)
    ensures |templates| > 1 && Given(lt) ==>
              r == if lt.value in templates then Ok(lt.value) else Err(UnknownLaunchTemplate)
  {
    if |templates| == 1 then Ok(templates[0])
    else if |templates| > 1 then
      if !Given(lt) then Err(TooManyLaunchTemplates)
      else if lt.value !in templates then Err(UnknownLaunchTemplate)
      else Ok(lt.value)
    else Err(NoLaunchTemplates)
  }

  /** The first of `tokens` that is not in `known`, the one the validation loop stops at. */
  function FirstMissing(tokens: seq<string>, known: seq<string>): (r: Option<string>)
    ensures r.None? <==> forall i :: 0 <= i < |tokens| ==> tokens[i] in known
    ensures r.Some? ==> && r.value in tokens && r.value !in known
                        && forall j :: 0 <= j < IndexOf(tokens, r.value) ==> tokens[j] in known
  {
    if tokens == [] then None
    else if tokens[0] !in known then Some(tokens[0])
    else
      var rest := FirstMissing(tokens[1..], known);
      assert forall i :: 0 < i < |tokens| ==> tokens[i] == tokens[1..][i - 1];
      if rest.Some? then
        assert IndexOf(tokens, rest.value) == 1 + IndexOf(tokens[1..], rest.value);
        rest
      else
        rest
  }

  /** Every one of `names` is a resource of type `t`. */
  predicate AllOfType(resources: Dict, names: seq<string>, t: string) {
    forall i :: 0 <= i < |names| ==> names[i] in resources.entries && HasType(resources.entries[names[i]], t)
  }

  /** The validation loop over `-subnet` passes exactly when every token is a subnet resource. */
  lemma FirstMissingOfType(resources: Dict, names: seq<string>, t: string)
    requires Valid(resources)
    ensures FirstMissing(names, ResourcesOfType(resources, t)).None? <==> AllOfType(resources, names, t)
  {
    ResourcesOfTypeSpec(resources, t);
    var missing := FirstMissing(names, ResourcesOfType(resources, t));
    if missing.Some? {
      assert names[IndexOf(names, missing.value)] == missing.value;
    }
  }

  /** One `{ "Ref" : x }` per subnet, in the order given. */
  function RefList(names: seq<string>): (r: seq<Json>)
    ensures |r| == |names|
    ensures forall i :: 0 <= i < |names| ==> r[i] == Ref(names[i])
  {
    if names == [] then [] else [Ref(names[0])] + RefList(names[1..])
  }

  /** The subnets of autoscaling group `name` and the `VPCZoneIdentifier` that names
      them. With `-subnet a,b,...` every comma-separated token must be a subnet
      resource, the parameter `<name>Subnets` is dropped, and the identifier lists a
      reference to each token in order; without it, that `List` parameter is
      (re)created and referenced once. */
  function AutoscalingSubnets(doc: Document, name: string, subnet: Option<string>): (r: Result<(Document, Json), Error>)
    requires WellFormed(doc)
    ensures r.Ok? ==> ParametersOnly(doc, r.value.0)
  {
    if Given(subnet) then
      var tokens := Split(subnet.value, ',');
      var missing := FirstMissing(tokens, ResourcesOfType(doc.resources, SubnetType));
      if missing.Some? then Err(SubnetNotFound(missing.value))
      else Ok((doc.(parameters := Remove(doc.parameters, SubnetsParameter(name))), JArray(RefList(tokens))))
    else
      Ok((doc.(parameters := Put(doc.parameters, SubnetsParameter(name), ParameterSubnets())), Ref(SubnetsParameter(name))))
  }

  /** The subnet step fails exactly when a token of `-subnet` is not a subnet
      resource, and then names such a token; on success the identifier has one
      reference per token, in order, and the `<name>Subnets` parameter is gone.
      Without `-subnet` it never fails, and the identifier is a reference to the
      newly created `List` parameter. */
  lemma AutoscalingSubnetsSpec(doc: Document, name: string, subnet: Option<string>)
    requires WellFormed(doc)
    ensures var r := AutoscalingSubnets(doc, name, subnet);
      && (r.Err? ==> Given(subnet))
      && (Given(subnet) ==>
            var tokens := Split(subnet.value, ',');
            && (r.Ok? <==> AllOfType(doc.resources, tokens, SubnetType))
            && (r.Err? ==> r.error.SubnetNotFound? && r.error.subnet in tokens &&
                           !(r.error.subnet in doc.resources.entries && HasType(doc.resources.entries[r.error.subnet], SubnetType)))
            && (r.Ok? ==>
                  && r.value.1.JArray? && |r.value.1.items| == |tokens|
                  && (forall i :: 0 <= i < |tokens| ==> r.value.1.items[i] == Ref(tokens[i]))
                  && r.value.0.parameters.entries == doc.parameters.entries - {SubnetsParameter(name)}))
      && (!Given(subnet) ==>
            && r.Ok? && r.value.1 == Ref(SubnetsParameter(name))
            && r.value.0.parameters.entries == doc.parameters.entries[SubnetsParameter(name) := ParameterSubnets()]
            && HasType(r.value.0.parameters.entries[SubnetsParameter(name)], "List<AWS::EC2::Subnet::Id>"))
  {
    if Given(subnet) {
      var tokens := Split(subnet.value, ',');
      FirstMissingOfType(doc.resources, tokens, SubnetType);
      ResourcesOfTypeSpec(doc.resources, SubnetType);
    }
  }

  /** The VPC of a new security group: with no VPC resource, the parameter `VpcId`
      is (re)created and used; otherwise the first VPC in document order is used
      and the parameter `VpcId` is dropped. */
  function SecurityGroupVpc(doc: Document): (r: (Document, string))
    requires WellFormed(doc)
    ensures ParametersOnly(doc, r.0)
  {
    var vpcs := ResourcesOfType(doc.resources, VpcType);
    if |vpcs| == 0 then
      (doc.(parameters := Put(doc.parameters, VpcParameter, ParameterVpc())), VpcParameter)
    else
      (doc.(parameters := Remove(doc.parameters, VpcParameter)), vpcs[0])
  }

  /** With no VPC the group gets the `VpcId` parameter, created for it; with VPCs it
      gets the first one in document order and the `VpcId` parameter is absent
      afterwards. */
  lemma SecurityGroupVpcSpec(doc: Document)
    requires WellFormed(doc)
    ensures var (d, vpc) := SecurityGroupVpc(doc);
      && (ResourcesOfType(doc.resources, VpcType) == [] ==>
            && vpc == VpcParameter
            && d.parameters.entries == doc.parameters.entries[VpcParameter := ParameterVpc()])
      && (ResourcesOfType(doc.resources, VpcType) != [] ==>
            && vpc in doc.resources.entries && HasType(doc.resources.entries[vpc], VpcType)
            && (forall j :: 0 <= j < IndexOf(doc.resources.keys, vpc) ==>
                  !HasType(doc.resources.entries[doc.resources.keys[j]], VpcType))
            && VpcParameter !in d.parameters.entries
            && d.parameters.entries == doc.parameters.entries - {VpcParameter})
  {
    if ResourcesOfType(doc.resources, VpcType) != [] {
      FirstOfType(doc.resources, VpcType);
    }
  }

  /** The subnet a new instance is placed in: `-subnet` as given, or the parameter. */
  function ChosenSubnet(name: string, subnet: Option<string>): string {
    if Given(subnet) then subnet.value else SubnetParameter(name)
  }

  /** The parameters the instance subnet step leaves behind. */
  function SubnetParameters(params: map<string, Json>, name: string, subnet: Option<string>): map<string, Json> {
    if Given(subnet) then params - {SubnetParameter(name)}
    else params[SubnetParameter(name) := ParameterSubnet()]
  }

  /** The subnet of a new instance: `-subnet` is taken as it is (it is neither split
      nor checked against the resources) and the parameter `<name>Subnet` is dropped;
      without it that parameter is (re)created and used. */
  function Ec2Subnet(doc: Document, name: string, subnet: Option<string>): (r: (Document, string))
    requires WellFormed(doc)
    ensures ParametersOnly(doc, r.0)
    ensures r.1 == ChosenSubnet(name, subnet) && r.0.parameters.entries == SubnetParameters(doc.parameters.entries, name, subnet)
  {
    if Given(subnet) then
      (doc.(parameters := Remove(doc.parameters, SubnetParameter(name))), subnet.value)
    else
      (doc.(parameters := Put(doc.parameters, SubnetParameter(name), ParameterSubnet())), SubnetParameter(name))
  }
}
