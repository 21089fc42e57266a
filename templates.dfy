/** The fragments the helper writes into a template: parameter, resource and output
    specifications, each a pure function of the logical names it is given
    (cfh.py:9-342). Every contract names the entry's `Type` and the references
    through which it is wired to the names passed in. */
module Templates {
  import opened Wrappers
  import opened Json

  const SecurityGroupType := "AWS::EC2::SecurityGroup"
  const SubnetType := "AWS::EC2::Subnet"
  const LaunchTemplateType := "AWS::EC2::LaunchTemplate"
  const VpcType := "AWS::EC2::VPC"
  const BucketType := "AWS::S3::Bucket"
  const FunctionType := "AWS::Lambda::Function"
  const InstanceType := "AWS::EC2::Instance"

  /** A resource entry the helper can read: a dict with a `Type`. */
  predicate IsResource(j: Json) {
    j.JObject? && "Type" in j.fields
  }

  /** `j['Type'] == t` on a resource entry. */
  predicate HasType(j: Json, t: string) {
    IsResource(j) && j.fields["Type"] == JString(t)
  }

  /** A list of logical names, as in `DependsOn`. */
  function NameList(names: seq<string>): (r: Json)
    ensures r.JArray? && |r.items| == |names|
    ensures forall i :: 0 <= i < |names| ==> r.items[i] == JString(names[i])
  {
    if names == [] then JArray([])
    else JArray([JString(names[0])] + NameList(names[1..]).items)
  }

  // ---------------------------------------------------------------- parameters

  function ParameterLatestAmiId(): (r: Json)
    ensures HasType(r, "AWS::SSM::Parameter::Value<AWS::EC2::Image::Id>")
  {
    JObject(map[
      "Type" := Str("AWS::SSM::Parameter::Value<AWS::EC2::Image::Id>"),
      "Default" := Str("/aws/service/ami-amazon-linux-latest/amzn2-ami-hvm-x86_64-gp2"),
      "Description" := Str("Path to the SSM Parameter that contains the latest Amazon Linux 2 image ID")])
  }

  lemma ParameterLatestAmiIdWiring()
    ensures var r := ParameterLatestAmiId();
      && Get(r, [Key("Default")]) == Some(Str("/aws/service/ami-amazon-linux-latest/amzn2-ami-hvm-x86_64-gp2"))
  {
  }

  function ParameterSecurityGroup(): (r: Json)
    ensures HasType(r, "AWS::EC2::SecurityGroup::Id")
  {
    JObject(map[
      "Type" := Str("AWS::EC2::SecurityGroup::Id"),
      "Description" := Str("Select a security group")])
  }

  function ParameterSubnets(): (r: Json)
    ensures HasType(r, "List<AWS::EC2::Subnet::Id>") && |r.fields| == 1
  {
    JObject(map["Type" := Str("List<AWS::EC2::Subnet::Id>")])
  }

  function ParameterSubnet(): (r: Json)
    ensures HasType(r, "AWS::EC2::Subnet::Id") && |r.fields| == 1
  {
    JObject(map["Type" := Str("AWS::EC2::Subnet::Id")])
  }

  function ParameterVpc(): (r: Json)
    ensures HasType(r, "AWS::EC2::VPC::Id") && |r.fields| == 1
  {
    JObject(map["Type" := Str("AWS::EC2::VPC::Id")])
  }

  // ----------------------------------------------------------------- resources

  /** An autoscaling group of one instance started from launch template `lt`,
      placed in the subnets `zones` (a list of references or one reference). */
  function ResourceAutoscaling(name: string, lt: string, zones: Json): (r: Json)
    ensures HasType(r, "AWS::AutoScaling::AutoScalingGroup")
  {
    JObject(map[
      "Type" := Str("AWS::AutoScaling::AutoScalingGroup"),
      "Properties" := JObject(map[
        "AutoScalingGroupName" := Str(name),
        "DesiredCapacity" := JInt(1),
        "LaunchTemplate" := JObject(map[
          "LaunchTemplateId" := Ref(lt),
          "Version" := GetAtt(lt, "LatestVersionNumber")]),
        "VPCZoneIdentifier" := zones,
        "MaxSize" := JInt(1),
        "MinSize" := JInt(1)]),
      "DependsOn" := NameList([lt])])
  }

  lemma ResourceAutoscalingWiring(name: string, lt: string, zones: Json)
    ensures var r := ResourceAutoscaling(name, lt, zones);
      && Get(r, [Key("Properties"), Key("LaunchTemplate"), Key("LaunchTemplateId")]) == Some(Ref(lt))
      && Get(r, [Key("Properties"), Key("LaunchTemplate"), Key("Version")]) == Some(GetAtt(lt, "LatestVersionNumber"))
      && Get(r, [Key("Properties"), Key("VPCZoneIdentifier")]) == Some(zones)
      && Get(r, [Key("DependsOn")]) == Some(NameList([lt]))
  {
  }

  function ResourceEc2Role(): (r: Json)
    ensures HasType(r, "AWS::IAM::Role")
  {
    JObject(map[
      "Type" := Str("AWS::IAM::Role"),
      "Properties" := JObject(map[
        "AssumeRolePolicyDocument" := AssumeRolePolicy("ec2.amazonaws.com"),
        "Path" := Str("/"),
        "ManagedPolicyArns" := JArray([Str("arn:aws:iam::aws:policy/AmazonSSMManagedInstanceCore")])])])
  }

  lemma ResourceEc2RoleWiring()
    ensures var r := ResourceEc2Role();
      && Get(r, [Key("Properties"), Key("ManagedPolicyArns")]) == Some(JArray([Str("arn:aws:iam::aws:policy/AmazonSSMManagedInstanceCore")]))
  {
  }

  /** A trust policy letting `service` assume the role. */
  function AssumeRolePolicy(service: string): Json {
    JObject(map[
      "Version" := Str("2012-10-17"),
      "Statement" := JArray([JObject(map[
        "Effect" := Str("Allow"),
        "Principal" := JObject(map["Service" := JArray([Str(service)])]),
        "Action" := JArray([Str("sts:AssumeRole")])])])])
  }

  /** The 8 GB encrypted gp2 root volume shared by instances and launch templates. */
  function RootVolume(): Json {
    JArray([JObject(map[
      "Ebs" := JObject(map[
        "VolumeSize" := Str("8"),
        "VolumeType" := Str("gp2"),
        "DeleteOnTermination" := JBool(true),
        "Encrypted" := JBool(true)]),
      "DeviceName" := Str("/dev/xvda")])])
  }

  /** The default start-up script, `yum update -y`. */
  function DefaultUserData(): Json {
    Base64(Join("\n", [Str("#!/usr/bin/bash"), Str("yum update -y")]))
  }

  function InstanceProperties(profile: string, image: string, sg: string, subnet: string): Json
  {
    var interface := JObject(map[
      "AssociatePublicIpAddress" := Str("true"),
      "DeviceIndex" := Str("0"),
      "GroupSet" := JArray([Ref(sg)]),
      "SubnetId" := Ref(subnet)]);
    var r := JObject(map[
      "ImageId" := Ref(image),
      "IamInstanceProfile" := Ref(profile),
      "InstanceType" := Str("t2.micro"),
      "NetworkInterfaces" := JArray([interface]),
      "BlockDeviceMappings" := RootVolume(),
      "UserData" := DefaultUserData()]);
    r
  }

  lemma InstancePropertiesWiring(profile: string, image: string, sg: string, subnet: string)
    ensures var r := InstanceProperties(profile, image, sg, subnet);
      && Get(r, [Key("ImageId")]) == Some(Ref(image))
      && Get(r, [Key("IamInstanceProfile")]) == Some(Ref(profile))
      && Get(r, [Key("NetworkInterfaces"), Index(0), Key("GroupSet"), Index(0)]) == Some(Ref(sg))
      && Get(r, [Key("NetworkInterfaces"), Index(0), Key("SubnetId")]) == Some(Ref(subnet))
  {
    var r := InstanceProperties(profile, image, sg, subnet);
    assert Get(r, [Key("NetworkInterfaces"), Index(0)]) == Some(r.fields["NetworkInterfaces"].items[0]);
  }

  /** A t2.micro instance in `subnet`, guarded by `sg`, booted from image parameter `image`. */
  function ResourceEc2Instance(profile: string, image: string, sg: string, subnet: string): (r: Json)
    ensures HasType(r, InstanceType)
  {
    JObject(map["Type" := Str(InstanceType), "Properties" := InstanceProperties(profile, image, sg, subnet),
      "DependsOn" := NameList([sg, profile])])
  }

  lemma ResourceEc2InstanceWiring(profile: string, image: string, sg: string, subnet: string)
    ensures var r := ResourceEc2Instance(profile, image, sg, subnet);
      && Get(r, [Key("Properties"), Key("ImageId")]) == Some(Ref(image))
      && Get(r, [Key("Properties"), Key("IamInstanceProfile")]) == Some(Ref(profile))
      && Get(r, [Key("Properties"), Key("NetworkInterfaces"), Index(0), Key("GroupSet"), Index(0)]) == Some(Ref(sg))
      && Get(r, [Key("Properties"), Key("NetworkInterfaces"), Index(0), Key("SubnetId")]) == Some(Ref(subnet))
      && Get(r, [Key("DependsOn")]) == Some(NameList([sg, profile]))
  {
    InstancePropertiesWiring(profile, image, sg, subnet);
    assert [Key("Properties"), Key("NetworkInterfaces"), Index(0), Key("GroupSet"), Index(0)][1..]
        == [Key("NetworkInterfaces"), Index(0), Key("GroupSet"), Index(0)];
    assert [Key("Properties"), Key("NetworkInterfaces"), Index(0), Key("SubnetId")][1..]
        == [Key("NetworkInterfaces"), Index(0), Key("SubnetId")];
  }

  function ResourceEc2InstanceProfile(role: string): (r: Json)
    ensures HasType(r, "AWS::IAM::InstanceProfile")
  {
    JObject(map[
      "Type" := Str("AWS::IAM::InstanceProfile"),
      "Properties" := JObject(map[
        "Path" := Str("/"),
        "Roles" := JArray([Ref(role)])]),
      "DependsOn" := NameList([role])])
  }

  lemma ResourceEc2InstanceProfileWiring(role: string)
    ensures var r := ResourceEc2InstanceProfile(role);
      && Get(r, [Key("Properties"), Key("Roles")]) == Some(JArray([Ref(role)]))
      && Get(r, [Key("DependsOn")]) == Some(NameList([role]))
  {
  }

  /** What an instance started from the launch template gets. */
  function LaunchTemplateData(profile: string, image: string, sg: string): Json
  {
    JObject(map[
      "IamInstanceProfile" := JObject(map["Arn" := GetAtt(profile, "Arn")]),
      "DisableApiTermination" := Str("true"),
      "ImageId" := Ref(image),
      "InstanceType" := Str("t2.micro"),
      "BlockDeviceMappings" := RootVolume(),
      "UserData" := DefaultUserData(),
      "SecurityGroupIds" := JArray([Ref(sg)])])
  }

  lemma LaunchTemplateDataWiring(profile: string, image: string, sg: string)
    ensures var r := LaunchTemplateData(profile, image, sg);
      && Get(r, [Key("IamInstanceProfile"), Key("Arn")]) == Some(GetAtt(profile, "Arn"))
      && Get(r, [Key("ImageId")]) == Some(Ref(image))
      && Get(r, [Key("SecurityGroupIds")]) == Some(JArray([Ref(sg)]))
  {
  }

  function ResourceEc2LaunchTemplate(name: string, profile: string, image: string, sg: string): (r: Json)
    ensures HasType(r, LaunchTemplateType)
  {
    JObject(map[
      "Type" := Str(LaunchTemplateType),
      "Properties" := JObject(map[
        "LaunchTemplateName" := Str(name),
        "LaunchTemplateData" := LaunchTemplateData(profile, image, sg)]),
      "DependsOn" := NameList([profile])])
  }

  lemma ResourceEc2LaunchTemplateWiring(name: string, profile: string, image: string, sg: string)
    ensures var r := ResourceEc2LaunchTemplate(name, profile, image, sg);
      && Get(r, [Key("Properties"), Key("LaunchTemplateName")]) == Some(Str(name))
      && Get(r, [Key("Properties"), Key("LaunchTemplateData"), Key("IamInstanceProfile"), Key("Arn")]) == Some(GetAtt(profile, "Arn"))
      && Get(r, [Key("Properties"), Key("LaunchTemplateData"), Key("ImageId")]) == Some(Ref(image))
      && Get(r, [Key("Properties"), Key("LaunchTemplateData"), Key("SecurityGroupIds")]) == Some(JArray([Ref(sg)]))
      && Get(r, [Key("DependsOn")]) == Some(NameList([profile]))
  {
    LaunchTemplateDataWiring(profile, image, sg);
    var r := ResourceEc2LaunchTemplate(name, profile, image, sg);
    assert Get(r, [Key("Properties"), Key("LaunchTemplateData")]) == Some(LaunchTemplateData(profile, image, sg));
    assert [Key("Properties"), Key("LaunchTemplateData"), Key("IamInstanceProfile"), Key("Arn")][1..][1..]
        == [Key("IamInstanceProfile"), Key("Arn")];
  }

  /** The path of a function's environment variables: `Properties.Environment.Variables`. */
  const EnvironmentPath := [Key("Properties"), Key("Environment"), Key("Variables")]

  /** The path of the first inline policy's document in a role:
      `Properties.Policies[0].PolicyDocument`. */
  const PolicyDocumentPath := [Key("Properties"), Key("Policies"), Index(0), Key("PolicyDocument")]

  function LambdaProperties(name: string): Json
  {
    JObject(map[
      "Handler" := Str("index.lambda_handler"),
      "Role" := GetAtt(name + "ExecutionRole", "Arn"),
      "Description" := Str(name),
      "Code" := JObject(map[
        "ZipFile" := Join("\n", [
          Str("import boto3"),
          Str("def lambda_handler(event, context):"),
          Str("    return { 'statusCode': 200, 'body': 'ok' }")])]),
      "Runtime" := Str("python3.9"),
      "FunctionName" := Sub("${AWS::StackName}-" + name),
      "Timeout" := JInt(300),
      "TracingConfig" := JObject(map["Mode" := Str("Active")]),
      "Environment" := JObject(map["Variables" := JObject(map[])])])
  }

  lemma LambdaPropertiesWiring(name: string)
    ensures var r := LambdaProperties(name);
      && Get(r, [Key("Environment"), Key("Variables")]) == Some(JObject(map[]))
      && Get(r, [Key("Role")]) == Some(GetAtt(name + "ExecutionRole", "Arn"))
  {
  }

  /** A Python 3.9 function whose role is `<name>ExecutionRole`, with no environment variables yet. */
  function ResourceLambda(name: string): (r: Json)
    ensures HasType(r, FunctionType)
  {
    JObject(map["Type" := Str(FunctionType), "Properties" := LambdaProperties(name),
      "DependsOn" := NameList([name + "ExecutionRole"])])
  }

  lemma ResourceLambdaWiring(name: string)
    ensures var r := ResourceLambda(name);
      && Get(r, EnvironmentPath) == Some(JObject(map[]))
      && Get(r, [Key("Properties"), Key("Role")]) == Some(GetAtt(name + "ExecutionRole", "Arn"))
      && Get(r, [Key("DependsOn")]) == Some(NameList([name + "ExecutionRole"]))
  {
    LambdaPropertiesWiring(name);
    assert EnvironmentPath[1..] == [Key("Environment"), Key("Variables")];
  }

  /** The statement letting a function write its logs. */
  function LogsStatement(): Json {
    JObject(map[
      "Effect" := Str("Allow"),
      "Action" := JArray([Str("logs:CreateLogGroup"), Str("logs:CreateLogStream"), Str("logs:PutLogEvents")]),
      "Resource" := Str("arn:aws:logs:*:*:*")])
  }

  /** The role of function `name`: its first policy holds one statement, the logs grant. */
  function ResourceLambdaExecutionRole(name: string): (r: Json)
    ensures HasType(r, "AWS::IAM::Role")
  {
    JObject(map[
      "Type" := Str("AWS::IAM::Role"),
      "Properties" := JObject(map[
        "AssumeRolePolicyDocument" := AssumeRolePolicy("lambda.amazonaws.com"),
        "Path" := Str("/"),
        "Policies" := JArray([JObject(map[
          "PolicyName" := Sub("${AWS::StackName}-" + name),
          "PolicyDocument" := JObject(map[
            "Version" := Str("2012-10-17"),
            "Statement" := JArray([LogsStatement()])])])])])])
  }

  lemma ResourceLambdaExecutionRoleWiring(name: string)
    ensures var r := ResourceLambdaExecutionRole(name);
      && IsObjectAt(r, PolicyDocumentPath)
      && "Statement" in FieldsAt(r, PolicyDocumentPath)
      && FieldsAt(r, PolicyDocumentPath)["Statement"] == JArray([LogsStatement()])
  {
  }

  /** A private bucket: owner full control, all public access blocked. */
  function ResourceS3(): (r: Json)
    ensures HasType(r, BucketType)
  {
    JObject(map[
      "Type" := Str(BucketType),
      "Properties" := JObject(map[
        "AccessControl" := Str("BucketOwnerFullControl"),
        "PublicAccessBlockConfiguration" := JObject(map[
          "BlockPublicAcls" := JBool(true),
          "BlockPublicPolicy" := JBool(true),
          "IgnorePublicAcls" := JBool(true),
          "RestrictPublicBuckets" := JBool(true)])])])
  }

  lemma ResourceS3Wiring()
    ensures var r := ResourceS3();
      && Get(r, [Key("Properties"), Key("AccessControl")]) == Some(Str("BucketOwnerFullControl"))
  {
  }

  /** A security group in `vpc` open to HTTP and HTTPS from anywhere, all egress allowed. */
  function ResourceSecurityGroupWeb(vpc: string): (r: Json)
    ensures HasType(r, SecurityGroupType)
  {
    JObject(map[
      "Type" := Str(SecurityGroupType),
      "Properties" := JObject(map[
        "GroupDescription" := Str("Enable HTTP access via port 80 and 443, and all outgoing traffic"),
        "SecurityGroupIngress" := JArray([TcpFromAnywhere(80), TcpFromAnywhere(443)]),
        "SecurityGroupEgress" := JArray([JObject(map["IpProtocol" := Str("-1"), "CidrIp" := Str("0.0.0.0/0")])]),
        "VpcId" := Ref(vpc)])])
  }

  lemma ResourceSecurityGroupWebWiring(vpc: string)
    ensures var r := ResourceSecurityGroupWeb(vpc);
      && Get(r, [Key("Properties"), Key("VpcId")]) == Some(Ref(vpc))
  {
  }

  function TcpFromAnywhere(port: int): Json {
    JObject(map[
      "IpProtocol" := Str("tcp"),
      "FromPort" := JInt(port),
      "ToPort" := JInt(port),
      "CidrIp" := Str("0.0.0.0/0")])
  }

  /** A public website bucket that is deleted with the stack. */
  function ResourceStatic(): (r: Json)
    ensures HasType(r, BucketType)
  {
    JObject(map[
      "Type" := Str(BucketType),
      "Properties" := JObject(map[
        "AccessControl" := Str("PublicRead"),
        "WebsiteConfiguration" := JObject(map[
          "IndexDocument" := Str("index.html"),
          "ErrorDocument" := Str("error.html")])]),
      "DeletionPolicy" := Str("Delete")])
  }

  lemma ResourceStaticWiring()
    ensures var r := ResourceStatic();
      && Get(r, [Key("DeletionPolicy")]) == Some(Str("Delete"))
      && Get(r, [Key("Properties"), Key("AccessControl")]) == Some(Str("PublicRead"))
  {
  }

  /** A policy on bucket `name` allowing anyone to read its objects. */
  function ResourceStaticBucketPolicy(name: string): (r: Json)
    ensures HasType(r, "AWS::S3::BucketPolicy")
  {
    JObject(map[
      "Type" := Str("AWS::S3::BucketPolicy"),
      "Properties" := JObject(map[
        "Bucket" := Ref(name),
        "PolicyDocument" := JObject(map[
          "Version" := Str("2012-10-17"),
          "Statement" := JObject(map[
            "Effect" := Str("Allow"),
            "Principal" := Str("*"),
            "Action" := Str("s3:GetObject"),
            "Resource" := Join("", [Str("arn:aws:s3:::"), Ref(name), Str("/*")])])])]),
      "DependsOn" := NameList([name])])
  }

  lemma ResourceStaticBucketPolicyWiring(name: string)
    ensures var r := ResourceStaticBucketPolicy(name);
      && Get(r, [Key("Properties"), Key("Bucket")]) == Some(Ref(name))
      && Get(r, [Key("DependsOn")]) == Some(NameList([name]))
  {
  }

  function ResourceVpc(cidr: string): (r: Json)
    ensures HasType(r, VpcType)
  {
    JObject(map[
      "Type" := Str(VpcType),
      "Properties" := JObject(map[
        "CidrBlock" := Str(cidr),
        "EnableDnsHostnames" := JBool(true),
        "EnableDnsSupport" := JBool(true),
        "InstanceTenancy" := Str("default")])])
  }

  lemma ResourceVpcWiring(cidr: string)
    ensures var r := ResourceVpc(cidr);
      && Get(r, [Key("Properties"), Key("CidrBlock")]) == Some(Str(cidr))
  {
  }

  /** The properties of a subnet before `extra` is written over them. */
  function SubnetProperties(vpc: string, cidr: string, az: int): map<string, Json> {
    map[
      "VpcId" := Ref(vpc),
      "CidrBlock" := Str(cidr),
      "AvailabilityZone" := JObject(map[
        "Fn::Select" := JArray([JInt(az), JObject(map["Fn::GetAZs" := Str("")])])])]
  }

  /** A subnet of `vpc` in availability zone number `az`, with every entry of
      `extra` written into its properties (cfh.py:286-287), overriding a base
      entry of the same key. */
  function ResourceVpcSubnet(vpc: string, cidr: string, az: int, extra: map<string, Json>): (r: Json)
    ensures HasType(r, SubnetType)
  {
    JObject(map[
      "Type" := Str(SubnetType),
      "Properties" := JObject(SubnetProperties(vpc, cidr, az) + extra)])
  }

  lemma ResourceVpcSubnetWiring(vpc: string, cidr: string, az: int, extra: map<string, Json>)
    ensures var r := ResourceVpcSubnet(vpc, cidr, az, extra);
      && IsObjectAt(r, [Key("Properties")])
      && (forall k :: k in extra ==> k in FieldsAt(r, [Key("Properties")]) && FieldsAt(r, [Key("Properties")])[k] == extra[k])
      && ("VpcId" !in extra ==> Get(r, [Key("Properties"), Key("VpcId")]) == Some(Ref(vpc)))
      && (forall k :: k in FieldsAt(r, [Key("Properties")]) <==> k in SubnetProperties(vpc, cidr, az) || k in extra)
  {
  }

  /** The loop of cfh.py:286-287, one key of `extra` at a time. */
  method BuildVpcSubnet(vpc: string, cidr: string, az: int, extra: map<string, Json>) returns (v: Json)
    ensures v == ResourceVpcSubnet(vpc, cidr, az, extra)
  {
    var properties := SubnetProperties(vpc, cidr, az);
    var todo := extra.Keys;
    while todo != {}
      invariant todo <= extra.Keys
      invariant properties == SubnetProperties(vpc, cidr, az) + (map k | k in extra.Keys - todo :: extra[k])
      decreases todo
    {
      var x :| x in todo;
      properties := properties[x := extra[x]];
      todo := todo - {x};
    }
    assert (map k | k in extra.Keys - todo :: extra[k]) == extra;
    v := JObject(map["Type" := Str(SubnetType), "Properties" := JObject(properties)]);
  }

  function ResourceVpcIgw(): (r: Json)
    ensures HasType(r, "AWS::EC2::InternetGateway")
  {
    JObject(map["Type" := Str("AWS::EC2::InternetGateway"), "Properties" := JObject(map[])])
  }

  lemma ResourceVpcIgwWiring()
    ensures var r := ResourceVpcIgw();
      && IsObjectAt(r, [Key("Properties")]) && FieldsAt(r, [Key("Properties")]) == map[]
  {
  }

  function ResourceVpcIgwAttachment(igw: string, vpc: string): (r: Json)
    ensures HasType(r, "AWS::EC2::VPCGatewayAttachment")
  {
    JObject(map[
      "Type" := Str("AWS::EC2::VPCGatewayAttachment"),
      "Properties" := JObject(map["InternetGatewayId" := Ref(igw), "VpcId" := Ref(vpc)]),
      "DependsOn" := NameList([igw, vpc])])
  }

  lemma ResourceVpcIgwAttachmentWiring(igw: string, vpc: string)
    ensures var r := ResourceVpcIgwAttachment(igw, vpc);
      && Get(r, [Key("Properties"), Key("InternetGatewayId")]) == Some(Ref(igw))
      && Get(r, [Key("Properties"), Key("VpcId")]) == Some(Ref(vpc))
      && Get(r, [Key("DependsOn")]) == Some(NameList([igw, vpc]))
  {
  }

  function ResourceVpcRouteTable(vpc: string): (r: Json)
    ensures HasType(r, "AWS::EC2::RouteTable")
  {
    JObject(map[
      "Type" := Str("AWS::EC2::RouteTable"),
      "Properties" := JObject(map["VpcId" := Ref(vpc)]),
      "DependsOn" := NameList([vpc])])
  }

  lemma ResourceVpcRouteTableWiring(vpc: string)
    ensures var r := ResourceVpcRouteTable(vpc);
      && Get(r, [Key("Properties"), Key("VpcId")]) == Some(Ref(vpc))
      && Get(r, [Key("DependsOn")]) == Some(NameList([vpc]))
  {
  }

  /** The default route 0.0.0.0/0 of `routeTable` through gateway `igw`. */
  function ResourceVpcDefaultRouteIgw(igw: string, routeTable: string): (r: Json)
    ensures HasType(r, "AWS::EC2::Route")
  {
    JObject(map[
      "Type" := Str("AWS::EC2::Route"),
      "Properties" := JObject(map[
        "RouteTableId" := Ref(routeTable),
        "DestinationCidrBlock" := Str("0.0.0.0/0"),
        "GatewayId" := Ref(igw)]),
      "DependsOn" := NameList([igw, routeTable])])
  }

  lemma ResourceVpcDefaultRouteIgwWiring(igw: string, routeTable: string)
    ensures var r := ResourceVpcDefaultRouteIgw(igw, routeTable);
      && Get(r, [Key("Properties"), Key("RouteTableId")]) == Some(Ref(routeTable))
      && Get(r, [Key("Properties"), Key("GatewayId")]) == Some(Ref(igw))
      && Get(r, [Key("Properties"), Key("DestinationCidrBlock")]) == Some(Str("0.0.0.0/0"))
      && Get(r, [Key("DependsOn")]) == Some(NameList([igw, routeTable]))
  {
  }

  function ResourceVpcSubnetRoute(subnet: string, route: string): (r: Json)
    ensures HasType(r, "AWS::EC2::SubnetRouteTableAssociation")
  {
    JObject(map[
      "Type" := Str("AWS::EC2::SubnetRouteTableAssociation"),
      "Properties" := JObject(map["RouteTableId" := Ref(route), "SubnetId" := Ref(subnet)]),
      "DependsOn" := NameList([route, subnet])])
  }

  lemma ResourceVpcSubnetRouteWiring(subnet: string, route: string)
    ensures var r := ResourceVpcSubnetRoute(subnet, route);
      && Get(r, [Key("Properties"), Key("RouteTableId")]) == Some(Ref(route))
      && Get(r, [Key("Properties"), Key("SubnetId")]) == Some(Ref(subnet))
      && Get(r, [Key("DependsOn")]) == Some(NameList([route, subnet]))
  {
  }

  // ------------------------------------------------------------------- outputs

  /** The website URL of bucket `name`. */
  function OutputWebsiteURL(name: string): (r: Json)
  {
    JObject(map[
      "Value" := GetAtt(name, "WebsiteURL"),
      "Description" := Str("URL for website hosted on S3")])
  }

  lemma OutputWebsiteURLWiring(name: string)
    ensures var r := OutputWebsiteURL(name);
      && Get(r, [Key("Value")]) == Some(GetAtt(name, "WebsiteURL"))
  {
  }
}
