# cfh: a model of the CloudFormation helper

`cfh.py` is a command-line helper that edits one AWS CloudFormation template
kept as a JSON file. One run reads the file (a missing file counts as `{}`),
applies a quality pass (a description from `-desc`, a default format version
and description, and empty `Parameters`, `Resources` and `Outputs` sections
when they are missing), and then either lists the resources (`-list`) or:

- `-add <type> <name>` writes a bundle of resources chosen by the type (`s3`,
  `static`, `lambda`, `launchtemplate`, `autoscaling`, `securitygroup`, `ec2`,
  `vpc`) under names derived from the sanitised `<name>`, after working out
  which security group (`-sg`), subnets (`-subnet`) and launch template
  (`-lt`) the new resources refer to, or creating parameters for them;
- after an add, the lines of a local file `<name>.py` become the inline code
  of Lambda function `<name>` and those of `<name>.sh` the user data of launch
  template or instance `<name>`;
- `-link <bucket> <function>` gives a Lambda function an environment variable
  naming an S3 bucket and grants its execution role access to the bucket; no
  other direction is supported;
- the template is written back. A fatal error (`[FATAL]`, or an uncaught
  exception) ends the run before anything is written.

The model has two layers.

- A value layer. Templates are `Document`s (a header dict plus the three section
  dicts, each an insertion-ordered `Dict`). Every step is a pure function that
  returns the new document or an `Error`: normalisation (`Document`), name
  filtering and `str.split` (`Text`), the fragments written into templates
  (`Templates`), the resolution of security groups, subnets, launch templates
  and VPCs (`Resolve`), the add dispatch (`Add`), the link rule (`Link`), the
  payload copy (`Payload`) and a whole run (`Command`).
- An in-place layer (`Editor`). `main` edits one template object step by step,
  and `findResources`, the subnet checks and the payload copies are loops. The
  class `Editor.Template` holds the four dicts as fields. Each method is proved
  to leave exactly the document that the matching value function computes, or
  to stop with that function's error. `Editor.Edit` runs a whole invocation on
  the object and is proved equal to `Command.Run`.

Fatal errors are the `Error` values `SecurityGroupNotFound`,
`NotASecurityGroup`, `SubnetNotFound`, `TooManyLaunchTemplates`,
`UnknownLaunchTemplate`, `NoLaunchTemplates`, `UnknownResourceType` and
`UnsupportedLink`. The exceptions Python would raise (a missing key, a missing
second link argument) are all `Crash`. Every one of them means exit status 1
with nothing written.

Files: `wrappers.dfy` (Option, Result), `json.dfy`, `dict.dfy`, `text.dfy`,
`templates.dfy`, `document.dfy`, `resolve.dfy`, `add.dfy`, `link.dfy`,
`payload.dfy`, `command.dfy`, `editor.dfy`.

## Model

| member | source | states |
|---|---|---|
| Json.SetField | cfh.py:581 | after `j[p1]...[key] = v` the dict at the path holds the old entries with `key` set to `v`; at the top, no entry is added or lost and every entry off the path keeps its value |
| Json.SetFieldUnchanged | cfh.py:581 | assigning a dict entry the value it already holds leaves the whole value unchanged |
| OrderedDict.Empty | cfh.py:415-418 | `{}` is a valid dict with no keys |
| OrderedDict.Put | cfh.py:439 | `d[k] = v` sets the entry; a new key goes last, an existing key keeps its place; the dict stays duplicate-free |
| OrderedDict.SetDefault | cfh.py:409-414 | `if not k in d: d[k] = v` adds an absent key last with `v` and keeps every existing entry and its place |
| OrderedDict.Remove | cfh.py:360 | `del d[k]` removes exactly the entry `k` and drops `k` from the order |
| OrderedDict.RemoveAbsent | cfh.py:359-360 | deleting an absent key changes nothing, so `if k in d: del d[k]` equals an unconditional removal |
| OrderedDict.PutUnchanged | cfh.py:581 | storing the value a key already holds changes nothing, its position included |
| OrderedDict.PutAll | cfh.py:532-544 | a run of assignments keeps the old keys in their places and ends with exactly the old keys and the assigned ones |
| OrderedDict.PutAllFresh | cfh.py:532-544 | assignments to distinct names that are all new append those names after the old keys, in assignment order |
| OrderedDict.PutAllAssigned | cfh.py:532-544 | with distinct names, every assigned name ends up with the value assigned to it |
| OrderedDict.PutAllOthers | cfh.py:532-544 | an entry that no assignment names keeps its value |
| Text.Sanitise | cfh.py:433 | the logical name has only alphanumeric characters and is no longer than the request |
| Text.SanitiseIsSubsequence | cfh.py:433 | the logical name is the request with some characters deleted, the rest in order |
| Text.SanitiseKeepsAlnum | cfh.py:433 | each alphanumeric character survives as often as it occurs in the request, and no other character survives |
| Text.SanitiseUnchangedIff | cfh.py:433-435 | the name is kept as requested exactly when it is already all alphanumeric (otherwise the "adjusted" warning is logged) |
| Text.SanitiseIdempotent | cfh.py:433 | sanitising a logical name again gives the same name |
| Text.Split | cfh.py:456 | `str.split(',')` gives at least one piece and no piece contains a comma |
| Text.JoinSplit | cfh.py:456 | joining the pieces with commas gives back the `-subnet` string |
| Text.SplitJoin | cfh.py:456 | splitting a comma-join of comma-free names gives back the names |
| Templates.NameList | cfh.py:53 | a `DependsOn` list holds the given names in order |
| Templates.ParameterLatestAmiId | cfh.py:9-14 | the parameter has the SSM image-id parameter type |
| Templates.ParameterLatestAmiIdWiring | cfh.py:9-14 | its default is the Amazon Linux 2 image path |
| Templates.ParameterSecurityGroup | cfh.py:16-20 | the parameter has type `AWS::EC2::SecurityGroup::Id` |
| Templates.ParameterSubnets | cfh.py:22-25 | the parameter has type `List<AWS::EC2::Subnet::Id>` and nothing else |
| Templates.ParameterSubnet | cfh.py:27-30 | the parameter has type `AWS::EC2::Subnet::Id` and nothing else |
| Templates.ParameterVpc | cfh.py:32-35 | the parameter has type `AWS::EC2::VPC::Id` and nothing else |
| Templates.ResourceAutoscaling | cfh.py:39-54 | the resource is an `AWS::AutoScaling::AutoScalingGroup` |
| Templates.ResourceAutoscalingWiring | cfh.py:39-54 | it refers to the launch template by `Ref` and by its latest version, uses the given zone identifier, and depends on the launch template |
| Templates.ResourceEc2Role | cfh.py:56-75 | the resource is an `AWS::IAM::Role` |
| Templates.ResourceEc2RoleWiring | cfh.py:56-75 | it carries the SSM managed-instance policy |
| Templates.InstancePropertiesWiring | cfh.py:77-108 | the instance refers to the image, the profile, the security group and the subnet given |
| Templates.ResourceEc2Instance | cfh.py:77-108 | the resource is an `AWS::EC2::Instance` |
| Templates.ResourceEc2InstanceWiring | cfh.py:77-108 | its properties refer to the image, profile, security group and subnet given, and it depends on the group and the profile |
| Templates.ResourceEc2InstanceProfile | cfh.py:110-118 | the resource is an `AWS::IAM::InstanceProfile` |
| Templates.ResourceEc2InstanceProfileWiring | cfh.py:110-118 | it holds exactly the given role and depends on it |
| Templates.LaunchTemplateDataWiring | cfh.py:120-149 | the launch data refers to the profile's ARN, the image and the security group |
| Templates.ResourceEc2LaunchTemplate | cfh.py:120-149 | the resource is an `AWS::EC2::LaunchTemplate` |
| Templates.ResourceEc2LaunchTemplateWiring | cfh.py:120-149 | it is named after `name`, its data refers to the profile, image and security group, and it depends on the profile |
| Templates.LambdaPropertiesWiring | cfh.py:151-174 | the function starts with no environment variables and runs as `<name>ExecutionRole` |
| Templates.ResourceLambda | cfh.py:151-174 | the resource is an `AWS::Lambda::Function` |
| Templates.ResourceLambdaWiring | cfh.py:151-174 | at `Properties.Environment.Variables` it has an empty dict, its role is `<name>ExecutionRole`, and it depends on that role |
| Templates.ResourceLambdaExecutionRole | cfh.py:176-195 | the resource is an `AWS::IAM::Role` |
| Templates.ResourceLambdaExecutionRoleWiring | cfh.py:176-195 | its first policy document exists and its statement list is exactly the logs grant |
| Templates.ResourceS3 | cfh.py:197-209 | the resource is an `AWS::S3::Bucket` |
| Templates.ResourceS3Wiring | cfh.py:197-209 | the bucket's access control is `BucketOwnerFullControl` |
| Templates.ResourceSecurityGroupWeb | cfh.py:211-225 | the resource is an `AWS::EC2::SecurityGroup` |
| Templates.ResourceSecurityGroupWebWiring | cfh.py:211-225 | it lives in the VPC given |
| Templates.ResourceStatic | cfh.py:227-238 | the resource is an `AWS::S3::Bucket` |
| Templates.ResourceStaticWiring | cfh.py:227-238 | the bucket is `PublicRead` and its deletion policy is `Delete` |
| Templates.ResourceStaticBucketPolicy | cfh.py:240-256 | the resource is an `AWS::S3::BucketPolicy` |
| Templates.ResourceStaticBucketPolicyWiring | cfh.py:240-256 | it applies to bucket `name` and depends on it |
| Templates.ResourceVpc | cfh.py:258-267 | the resource is an `AWS::EC2::VPC` |
| Templates.ResourceVpcWiring | cfh.py:258-267 | its CIDR block is the one given |
| Templates.ResourceVpcSubnet | cfh.py:269-288 | the resource is an `AWS::EC2::Subnet` |
| Templates.ResourceVpcSubnetWiring | cfh.py:269-288 | every `extra` entry is in its properties, overriding the base entry; without an `extra` `VpcId` it refers to the VPC; it has no other properties |
| Templates.BuildVpcSubnet | cfh.py:269-288 | the loop writing `extra` key by key builds exactly that subnet |
| Templates.ResourceVpcIgw | cfh.py:290-294 | the resource is an `AWS::EC2::InternetGateway` |
| Templates.ResourceVpcIgwWiring | cfh.py:290-294 | its properties are empty |
| Templates.ResourceVpcIgwAttachment | cfh.py:296-304 | the resource is an `AWS::EC2::VPCGatewayAttachment` |
| Templates.ResourceVpcIgwAttachmentWiring | cfh.py:296-304 | it joins the gateway and the VPC given and depends on both |
| Templates.ResourceVpcRouteTable | cfh.py:306-313 | the resource is an `AWS::EC2::RouteTable` |
| Templates.ResourceVpcRouteTableWiring | cfh.py:306-313 | it belongs to the VPC given and depends on it |
| Templates.ResourceVpcDefaultRouteIgw | cfh.py:315-324 | the resource is an `AWS::EC2::Route` |
| Templates.ResourceVpcDefaultRouteIgwWiring | cfh.py:315-324 | it routes 0.0.0.0/0 of the route table through the gateway and depends on both |
| Templates.ResourceVpcSubnetRoute | cfh.py:326-334 | the resource is an `AWS::EC2::SubnetRouteTableAssociation` |
| Templates.ResourceVpcSubnetRouteWiring | cfh.py:326-334 | it associates the subnet with the route table and depends on both |
| Templates.OutputWebsiteURLWiring | cfh.py:338-342 | the output's value is the bucket's `WebsiteURL` attribute |
| Document.Describe | cfh.py:405-406 | a non-empty `-desc` sets the description and keeps every other entry; without it the header is unchanged |
| Document.NormaliseHeader | cfh.py:405-414 | the normalised header is a valid dict |
| Document.NormaliseHeaderKeys | cfh.py:405-414 | afterwards the format version and the description exist, and no other key is new |
| Document.NormaliseHeaderOrder | cfh.py:405-414 | the old keys keep their places and the new ones come after them |
| Document.NormaliseHeaderValues | cfh.py:405-414 | entries other than the description keep their values; a missing format version becomes 2010-09-09; the description is `-desc`, else the old one, else the default |
| Document.Normalise | cfh.py:404-418 | the result is well formed, and each section is the loaded one or `{}` when it was missing |
| Document.Reloaded | cfh.py:610-613 | a well-formed template, written and read back, loads well formed; once it has both header defaults, normalising it without `-desc` gives back the same template |
| Document.NormaliseIdempotent | cfh.py:404-418 | normalising again, with no description or the same one, changes nothing |
| Document.IndexOfPrefix | cfh.py:375-380 | a name's position is the same in a prefix of the order that contains it |
| Document.OfTypeSpec | cfh.py:375-380 | the loop keeps exactly the keys of type `t`, each once, in document order |
| Document.ResourcesOfTypeSpec | cfh.py:375-380 | `findResources` returns exactly the resources of type `t`, without repeats, in document order |
| Document.FirstOfType | cfh.py:375-380 | its first result is of type `t` and no resource before it is |
| Document.OfTypePut | cfh.py:375-380 | overwriting a resource with one that matches `t` exactly when the old one did leaves the result unchanged |
| Document.OfTypeAbsent | cfh.py:375-380 | a name outside the keys being scanned does not affect the result |
| Resolve.RequestSg | cfh.py:346-368 | on success only the parameters change and the template stays well formed |
| Resolve.RequestSgSpec | cfh.py:346-368 | `-sg` naming no resource, or a resource that is not a security group, gives its own error; otherwise `-sg` is used and `<name>SecurityGroup` is removed; without `-sg` that parameter is created with the security-group type and used |
| Resolve.RequestSgSameResources | cfh.py:346-368 | whether and how the request fails depends only on the resources |
| Resolve.SelectLaunchTemplate | cfh.py:473-485 | a single launch template is used whatever `-lt` says; none is fatal; with several, a missing `-lt` and an unknown `-lt` are each fatal, and otherwise `-lt` is used |
| Resolve.FirstMissing | cfh.py:458-462 | no result exactly when every token is known; otherwise the result is an unknown token and every token before it is known |
| Resolve.FirstMissingOfType | cfh.py:455-462 | the `-subnet` validation passes exactly when every token names a subnet resource |
| Resolve.RefList | cfh.py:488-491 | one `{"Ref": x}` per token, in order |
| Resolve.AutoscalingSubnets | cfh.py:455-470 | on success only the parameters change |
| Resolve.AutoscalingSubnetsSpec | cfh.py:455-493 | with `-subnet` it fails exactly when a token is not a subnet, naming such a token; otherwise the identifier references each token in order and `<name>Subnets` is gone; without `-subnet` it never fails, and the `List` parameter is created and referenced |
| Resolve.SecurityGroupVpc | cfh.py:498-506 | only the parameters change |
| Resolve.SecurityGroupVpcSpec | cfh.py:498-506 | with no VPC the group gets the `VpcId` parameter, created for it; otherwise it gets the first VPC in document order, and `VpcId` is absent afterwards |
| Resolve.Ec2Subnet | cfh.py:512-524 | only the parameters change; the instance gets `-subnet` as given (unsplit and unchecked), or the `<name>Subnet` parameter, which exists exactly when `-subnet` is not given |
| Add.PutResources | cfh.py:532-544 | each assigned name holds its resource, every other resource is untouched, the old resources keep their order at the front, nothing outside the resources changes |
| Add.PutParameter | cfh.py:450 | only the one parameter changes |
| Add.PutOutput | cfh.py:443 | only the one output changes |
| Add.PutResource | cfh.py:439 | only the one resource changes, and the old resources keep their order at the front |
| Add.Prefixed | cfh.py:532-544 | the names are `name` followed by each suffix, in order |
| Add.PrefixedDistinct | cfh.py:532-544 | distinct suffixes give distinct names |
| Add.VpcSuffixesDistinct | cfh.py:532-544 | the thirteen VPC names are pairwise distinct, so no assignment of the bundle overwrites another |
| Add.Zip | cfh.py:532-544 | pairing names with resources keeps both in order |
| Add.VpcResources | cfh.py:532-544 | all thirteen VPC values are resources |
| Add.VpcBundle | cfh.py:532-544 | the bundle assigns distinct names, each to a resource |
| Add.AddS3 | cfh.py:438-439 | `s3` writes exactly `name`, keeping every other resource, the parameters and the outputs |
| Add.AddS3Spec | cfh.py:438-439 | `s3` stores the private bucket under `name` |
| Add.AddStatic | cfh.py:440-443 | `static` writes exactly `name` and `<name>bucketPolicy`, keeping the parameters |
| Add.AddStaticSpec | cfh.py:440-443 | it stores the website bucket and its policy, and the website URL output under `name` |
| Add.AddLambda | cfh.py:444-447 | `lambda` writes exactly `name` and `<name>ExecutionRole` |
| Add.AddLambdaSpec | cfh.py:444-447 | it stores the function and its execution role |
| Add.PutInstanceBundle | cfh.py:449-453 | the role, the profile and the resource are written and nothing else among the resources |
| Add.PutInstanceBundleSpec | cfh.py:449-453 | `LatestAmiId` is added to the parameters; the role, the profile wrapping it, and the resource are stored |
| Add.AddLaunchTemplate | cfh.py:448-453 | on success `launchtemplate` writes exactly the role, the profile and `name` |
| Add.AddLaunchTemplateSpec | cfh.py:448-453 | it fails exactly when `request_sg` does, with its error; otherwise the launch template refers to the chosen group, and the parameters are those `request_sg` leaves plus `LatestAmiId` |
| Add.AddAutoscaling | cfh.py:454-495 | on success `autoscaling` writes exactly `<name>AutoScaling` and keeps the outputs |
| Add.AddAutoscalingSpec | cfh.py:454-495 | the subnet step's error comes first, then the launch-template error; it succeeds exactly when both steps do, storing the group over the chosen template and the subnet identifier |
| Add.AddSecurityGroup | cfh.py:496-510 | `securitygroup` writes exactly `name` and keeps the outputs |
| Add.AddSecurityGroupSpec | cfh.py:496-510 | it stores the web security group in the VPC the VPC step chooses, with that step's parameters |
| Add.AddEc2 | cfh.py:511-530 | on success `ec2` writes exactly the role, the profile and `name` |
| Add.AddEc2Spec | cfh.py:511-530 | it fails exactly when `request_sg` does (the subnet is never validated); otherwise the instance is in the chosen subnet behind the chosen group, and the parameters are those of both steps plus `LatestAmiId` |
| Add.AddVpc | cfh.py:531-544 | `vpc` writes exactly `name` and its twelve suffixed names, keeping the parameters and the outputs |
| Add.AddVpcSpec | cfh.py:531-544 | each of the thirteen names holds the resource the source assigns to it |
| Add.AddVpcOrder | cfh.py:531-544 | when none of the thirteen names is taken, they follow the old resources in the order the source assigns them |
| Add.ParseKind | cfh.py:438-549 | a known word selects the kind whose word it is, compared exactly; any other word selects nothing |
| Add.ParseKindName | cfh.py:438-549 | every kind is selected by its own word |
| Add.AddKind | cfh.py:438-547 | only the kinds that resolve a security group, subnets or a launch template can fail; on success the resources gained are exactly the names the kind writes, and the old resources keep their order at the front |
| Add.Add | cfh.py:428-549 | no name is a crash, an unknown type is fatal, and the others fail only by resolution; on success the header is untouched and the resources are the old ones, in their old order at the front, plus exactly the kind's names; the rest keep their values |
| Link.Allow | cfh.py:584-602 | afterwards the statement is in the list; a statement already present leaves the role unchanged, a new one is appended; the rest of the policy document and the role's type stay the same |
| Link.Expose | cfh.py:581 | the function's variables gain `<bucket> = {"Ref": bucket}` and nothing else; its type stays the same |
| Link.Link | cfh.py:575-605 | on success the header, parameters, outputs and resource names are unchanged and the template stays well formed |
| Link.RoleIsNotFunction | cfh.py:584 | the execution role is never the function itself |
| Link.LinkOutcome | cfh.py:575-605 | linking succeeds exactly when the bucket and the function exist with the right types and have the nested dicts and list; a wrong type at either end is "Unsupported linking direction"; a missing resource or argument is a crash |
| Link.LinkEffect | cfh.py:575-602 | the variable is set, the statement is appended only when new, every other resource keeps its value, and no type changes |
| Link.LinkWrites | cfh.py:581-600 | the resources after a link are the old ones with the function and its role replaced |
| Link.LinkIdempotent | cfh.py:598-602 | linking again changes nothing |
| Link.LinkFirst | cfh.py:575-602 | a function with no variables whose role has one other statement ends with exactly the bucket variable and the two statements |
| Link.LinkFresh | cfh.py:575-602 | a fresh bucket and a fresh `lambda` link: the function's only variable is the bucket, and its role grants logging and then bucket access |
| Payload.Inlined | cfh.py:552-572 | a resource whose type takes no payload of this kind is untouched; a missing target dict crashes; otherwise only the target dict gains the code or base64 user data, and the type is kept |
| Payload.Pass | cfh.py:552-572 | a pass keeps the resource names and their types, and only crashes |
| Payload.Inline | cfh.py:552-572 | the copy only changes resources, keeps their names, and only crashes |
| Payload.InlinedTwice | cfh.py:559 | copying the same file in again changes nothing |
| Payload.PassEffect | cfh.py:552-572 | the pass fails exactly when some resource with a file lacks its target dict; otherwise those resources hold their copied values and all others are unchanged |
| Payload.PassSettles | cfh.py:552-572 | after a pass every resource with a file already holds what a pass would copy |
| Payload.PassSettled | cfh.py:552-572 | a pass over settled resources rewrites nothing |
| Payload.TargetsDisjoint | cfh.py:552-572 | no type takes both a Python and a shell payload |
| Payload.ShellKeepsCode | cfh.py:561-572 | the shell pass leaves the functions as the Python pass left them |
| Payload.InlineIdempotent | cfh.py:552-572 | copying again after a successful copy changes nothing |
| Payload.InlineNoFiles | cfh.py:552-572 | without files the copy is the identity |
| Payload.Copied | cfh.py:552-572 | a resource after one pass is still a resource of the same type |
| Payload.InlineEffect | cfh.py:552-572 | the copy fails exactly when some resource with a file lacks its target; otherwise each resource holds its Python code, then its shell script, as far as its type takes them |
| Command.AddStep | cfh.py:428-572 | without `-add` nothing changes; the header is kept |
| Command.LinkStep | cfh.py:575-605 | without `-link` nothing changes; the header is kept |
| Command.Run | cfh.py:382-613 | a written template is well formed and its header is the normalised one |
| Command.RunOnlyNormalises | cfh.py:404-418 | with no `-add`, `-link` or `-list` the run writes the normalised template |
| Command.RunLists | cfh.py:421-425 | `-list` writes nothing |
| Command.RunUnknownType | cfh.py:548-549 | an unknown type after `-add` is fatal and writes nothing |
| Command.RunUnsupportedLink | cfh.py:604-605 | linking from a resource that is not a bucket is fatal |
| Command.NormaliseSaved | cfh.py:404-418 | a written template normalises to itself when read back, without `-desc` or with the description it already has |
| Command.RunLinkTwice | cfh.py:575-613 | repeating a `-link` command line, `-desc` included, on the file it wrote writes the same file |
| Editor.FirstMissingAt | cfh.py:458-462 | an unknown token after only known ones is the one the check stops at |
| Editor.CheckSubnets | cfh.py:458-462 | the validation loop returns the first unknown token, as `FirstMissing` |
| Editor.ZoneIdentifier | cfh.py:488-491 | the append loop builds `RefList` of the tokens |
| Editor.Template.Load | cfh.py:394-418 | the object loaded holds exactly the normalised template |
| Editor.Template.FindResources | cfh.py:375-380 | the loop returns `ResourcesOfType` of the resources |
| Editor.Template.DropParameter | cfh.py:359-360 | `if k in Parameters: del` removes `k` and nothing else |
| Editor.Template.RequestSg | cfh.py:346-368 | the object and the returned name are those of `Resolve.RequestSg`; on an error nothing changes |
| Editor.Template.AddS3 | cfh.py:438-439 | the object becomes `Add.AddS3` of the old one |
| Editor.Template.AddStatic | cfh.py:440-443 | the object becomes `Add.AddStatic` of the old one |
| Editor.Template.AddLambda | cfh.py:444-447 | the object becomes `Add.AddLambda` of the old one |
| Editor.Template.AddInstanceBundle | cfh.py:449-453 | the object becomes `Add.PutInstanceBundle` of the old one |
| Editor.Template.AddLaunchTemplate | cfh.py:448-453 | the object or the error is `Add.AddLaunchTemplate` of the old one |
| Editor.Template.AddAutoscaling | cfh.py:454-495 | the object or the error is `Add.AddAutoscaling` of the old one |
| Editor.Template.AddSecurityGroup | cfh.py:496-510 | the object becomes `Add.AddSecurityGroup` of the old one |
| Editor.Template.AddEc2 | cfh.py:511-530 | the object or the error is `Add.AddEc2` of the old one |
| Editor.Template.AddVpc | cfh.py:531-544 | the object becomes `Add.AddVpc` of the old one |
| Editor.Template.AddKind | cfh.py:438-547 | the object or the error is `Add.AddKind` of the old one |
| Editor.Template.AddResource | cfh.py:428-549 | the object or the error is `Add.Add` of the old one |
| Editor.Template.CopyFiles | cfh.py:552-572 | one payload loop leaves the resources, or the error, of `Payload.Pass`, and nothing else changes |
| Editor.Template.CopyPayloads | cfh.py:552-572 | both loops leave the object, or the error, of `Payload.Inline` |
| Editor.Template.LinkResources | cfh.py:575-605 | the object or the error is `Link.Link` of the old one |
| Editor.Edit | cfh.py:382-613 | running on the object gives exactly the outcome of `Command.Run` |

## Left out

- Reading and writing the file, JSON parsing and `json.dumps` formatting: the
  model starts from the loaded template (`Loaded`) and ends with the document
  to be written (`Outcome.Saved`).
- Key order inside nested objects, and where the three sections sit among the
  other top-level entries: objects below the top level are maps, and the top
  level is the header dict plus the three section dicts. Only serialisation
  would show this order.
- `argparse`: the options arrive parsed (`Command.Args`). `Parsed` records that
  `-add` and `-link` take at least one word.
- The listing's print format, and every `INFO`/`WARNING` message: logging is
  output only.
- Whether `<name>.py` and `<name>.sh` exist, and reading them: the files present
  are given as maps from resource name to their lines.
- Floating-point numbers in templates: `Json` has integers only.
- Text.Sanitise: keeps ASCII letters and digits only, while Python's
  `str.isalnum` also accepts other Unicode letters and digits.
- Templates whose sections are not dicts, or with a resource that is not a dict
  with a `Type`: `LoadedWellFormed` and `WellFormed` exclude them for every run.
  The source reads a resource's `Type` only in some runs. `-list` (cfh.py:422-423),
  the Lambda loop after an add (cfh.py:552-553) and `findResources`
  (cfh.py:375-380) read it for every resource. The `.sh` loop reads it only for
  names with a file (cfh.py:563-570), and `-link` only for the two named
  resources (cfh.py:577). A run that only normalises reads none. So the source
  would write `{"Resources": {"X": {}}}` back after a plain run, and would complete a
  `-link` whose two resources are well formed when some other resource has no
  `Type`, but the model does not cover those runs. These are not valid
  CloudFormation templates.
- Command.RunLists: states only that nothing is written; the listing is not
  modelled.
- Editor.Template.AddVpc: stores the thirteen resources with one `PutAll` over
  the bundle, which performs the same assignments in the same order as the
  source's thirteen statements.
- Editor.Template.AddLaunchTemplate, Editor.Template.AddAutoscaling,
  Editor.Template.AddEc2, Editor.Template.AddResource,
  Editor.Template.CopyPayloads, Editor.Template.LinkResources: on an error
  state only the error, not the half-edited object. The run ends there and
  nothing is written.
- The other files of the repository (`lambdaUpdate.py`, the recipes and
  examples) are not part of this model.
