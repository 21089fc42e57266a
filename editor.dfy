/** The helper as it runs: `main` loads one template object and edits it in place,
    step after step, and `findResources`, the `-subnet` checks and the payload
    copies are loops over it. Each method here leaves the template exactly as the
    matching function of the value model says, or stops with that function's
    fatal error. */
module Editor {
  import opened Wrappers
  import opened Json
  import opened OrderedDict
  import opened Templates
  import opened Text
  import opened Document
  import opened Resolve
  import opened Add
  import opened Link
  import opened Payload
  import opened Command

  /** What a method left when it ran through, or the error it stopped with. */
  function After<T>(failure: Option<Error>, value: T): Result<T, Error> {
    if failure.Some? then Err(failure.value) else Ok(value)
  }

  /** A token that is not a known subnet, after all the tokens before it were, is
      the one the validation stops at. */
  lemma FirstMissingAt(tokens: seq<string>, known: seq<string>, i: nat)
    requires i < |tokens| && tokens[i] !in known
    requires forall j :: 0 <= j < i ==> tokens[j] in known
    ensures FirstMissing(tokens, known) == Some(tokens[i])
  {
    var r := FirstMissing(tokens, known);
    var p := IndexOf(tokens, r.value);
    assert !(p < i);
  }

  /** `for s in subnet: if not s in l: FATAL`: the first token missing from `known`. */
  method CheckSubnets(tokens: seq<string>, known: seq<string>) returns (missing: Option<string>)
    ensures missing == FirstMissing(tokens, known)
  {
    for i := 0 to |tokens|
      invariant forall j :: 0 <= j < i ==> tokens[j] in known
    {
      if tokens[i] !in known {
        FirstMissingAt(tokens, known, i);
        return Some(tokens[i]);
      }
    }
    return None;
  }

  /** `VPCZoneIdentifier.append({"Ref": x})` for each token, in order. */
  method ZoneIdentifier(tokens: seq<string>) returns (ids: seq<Json>)
    ensures ids == RefList(tokens)
  {
    ids := [];
    for i := 0 to |tokens|
      invariant |ids| == i
      invariant forall j :: 0 <= j < i ==> ids[j] == Ref(tokens[j])
    {
      ids := ids + [Ref(tokens[i])];
    }
  }

  /** The `cloudFormation` object: the top-level entries and the three partitions,
      each a dict updated in place. */
  class Template {
    var header: Dict
    var parameters: Dict
    var resources: Dict
    var outputs: Dict

    /** The template as a value. */
    function Doc(): Document
      reads this
    {
      Document(header, parameters, resources, outputs)
    }

    predicate Valid()
      reads this
    {
      WellFormed(Doc())
    }

    /** The file as loaded, then `-desc`, the two header defaults and a `{}` for
      each missing partition. */
    constructor Load(f: Loaded, desc: Option<string>)
      requires LoadedWellFormed(f)
      ensures Doc() == Normalise(f, desc)
      ensures Valid()
    {
      var h := f.header;
      if Given(desc) {
        h := Put(h, DescriptionKey, Str(desc.value));
      }
      if FormatVersionKey !in h.entries {
        h := Put(h, FormatVersionKey, Str(DefaultFormatVersion));
      }
      if DescriptionKey !in h.entries {
        h := Put(h, DescriptionKey, Str(DefaultDescription));
      }
      header := h;
      parameters := if f.parameters.Some? then f.parameters.value else Empty();
      resources := if f.resources.Some? then f.resources.value else Empty();
      outputs := if f.outputs.Some? then f.outputs.value else Empty();
    }

    /** `findResources`: the loop over the resources in document order, keeping
        the names of those of type `t`. */
    method FindResources(t: string) returns (l: seq<string>)
      requires Valid()
      ensures l == ResourcesOfType(resources, t)
    {
      l := [];
      var keys := resources.keys;
      for i := 0 to |keys|
        invariant l == OfType(keys[..i], resources.entries, t)
      {
        assert keys[..i + 1][..i] == keys[..i];
        var r := keys[i];
        if HasType(resources.entries[r], t) {
          l := l + [r];
        }
      }
      assert keys[..|keys|] == keys;
    }

    /** `del Parameters[k]` when it is there. */
    method DropParameter(k: string)
      requires Valid()
      modifies this
      ensures Doc() == old(Doc()).(parameters := Remove(old(parameters), k))
      ensures Valid()
    {
      if k in parameters.entries {
        parameters := Remove(parameters, k);
      } else {
        RemoveAbsent(parameters, k);
      }
    }

    /** `request_sg`: checks `-sg` or creates the parameter, and returns the name
        the new resource refers to. */
    method RequestSg(name: string, sg: Option<string>) returns (r: Result<string, Error>)
      requires Valid()
      modifies this
      ensures var spec := Resolve.RequestSg(old(Doc()), name, sg);
        && (spec.Ok? ==> r == Ok(spec.value.1) && Doc() == spec.value.0)
        && (spec.Err? ==> r == Err(spec.error) && Doc() == old(Doc()))
      ensures Valid()
    {
      if Given(sg) {
        if sg.value !in resources.entries {
          return Err(SecurityGroupNotFound);
        }
        if !HasType(resources.entries[sg.value], SecurityGroupType) {
          return Err(NotASecurityGroup);
        }
        DropParameter(SecurityGroupParameter(name));
        return Ok(sg.value);
      }
      parameters := Put(parameters, SecurityGroupParameter(name), ParameterSecurityGroup());
      return Ok(SecurityGroupParameter(name));
    }

    method AddS3(name: string)
      requires Valid()
      modifies this
      ensures Doc() == Add.AddS3(old(Doc()), name)
      ensures Valid()
    {
      resources := Put(resources, name, ResourceS3());
    }

    method AddStatic(name: string)
      requires Valid()
      modifies this
      ensures Doc() == Add.AddStatic(old(Doc()), name)
      ensures Valid()
    {
      resources := Put(resources, name, ResourceStatic());
      resources := Put(resources, name + "bucketPolicy", ResourceStaticBucketPolicy(name));
      outputs := Put(outputs, name, OutputWebsiteURL(name));
    }

    method AddLambda(name: string)
      requires Valid()
      modifies this
      ensures Doc() == Add.AddLambda(old(Doc()), name)
      ensures Valid()
    {
      resources := Put(resources, name, ResourceLambda(name));
      resources := Put(resources, ExecutionRoleName(name), ResourceLambdaExecutionRole(name));
    }

    /** The `LatestAmiId` parameter, the role, the profile and `last`. */
    method AddInstanceBundle(name: string, last: Json)
      requires Valid() && IsResource(last)
      modifies this
      ensures Doc() == PutInstanceBundle(old(Doc()), name, last)
      ensures Valid()
    {
      parameters := Put(parameters, LatestAmiParameter, ParameterLatestAmiId());
      ghost var d1 := Doc();
      resources := Put(resources, RoleName(name), ResourceEc2Role());
      ghost var d2 := Doc();
      resources := Put(resources, ProfileName(name), ResourceEc2InstanceProfile(RoleName(name)));
      ghost var d3 := Doc();
      resources := Put(resources, name, last);
      assert Doc() == PutResource(d3, name, last);
    }

    method AddLaunchTemplate(name: string, sg: Option<string>) returns (failure: Option<Error>)
      requires Valid()
      modifies this
      ensures After(failure, Doc()) == Add.AddLaunchTemplate(old(Doc()), name, sg)
      ensures failure.None? ==> Valid()
    {
      var chosen := RequestSg(name, sg);
      if chosen.Err? {
        return Some(chosen.error);
      }
      AddInstanceBundle(name, LaunchTemplateOf(name, chosen.value));
      return None;
    }

    method AddAutoscaling(name: string, lt: Option<string>, subnet: Option<string>) returns (failure: Option<Error>)
      requires Valid()
      modifies this
      ensures After(failure, Doc()) == Add.AddAutoscaling(old(Doc()), name, lt, subnet)
      ensures failure.None? ==> Valid()
    {
      var tokens := [];
      if Given(subnet) {
        tokens := Split(subnet.value, ',');
        var subnets := FindResources(SubnetType);
        var missing := CheckSubnets(tokens, subnets);
        if missing.Some? {
          return Some(SubnetNotFound(missing.value));
        }
        DropParameter(SubnetsParameter(name));
      } else {
        parameters := Put(parameters, SubnetsParameter(name), ParameterSubnets());
      }
      var templates := FindResources(LaunchTemplateType);
      var chosen := SelectLaunchTemplate(templates, lt);
      if chosen.Err? {
        return Some(chosen.error);
      }
      var zone;
      if Given(subnet) {
        var ids := ZoneIdentifier(tokens);
        zone := JArray(ids);
      } else {
        zone := Ref(SubnetsParameter(name));
      }
      resources := Put(resources, AutoscalingName(name), ResourceAutoscaling(name, chosen.value, zone));
      return None;
    }

    method AddSecurityGroup(name: string)
      requires Valid()
      modifies this
      ensures Doc() == Add.AddSecurityGroup(old(Doc()), name)
      ensures Valid()
    {
      ghost var start := Doc();
      var vpcs := FindResources(VpcType);
      var vpc;
      if |vpcs| == 0 {
        parameters := Put(parameters, VpcParameter, ParameterVpc());
        vpc := VpcParameter;
      } else {
        vpc := vpcs[0];
        DropParameter(VpcParameter);
      }
      assert (Doc(), vpc) == SecurityGroupVpc(start);
      resources := Put(resources, name, ResourceSecurityGroupWeb(vpc));
    }

    method AddEc2(name: string, sg: Option<string>, subnet: Option<string>) returns (failure: Option<Error>)
      requires Valid()
      modifies this
      ensures After(failure, Doc()) == Add.AddEc2(old(Doc()), name, sg, subnet)
      ensures failure.None? ==> Valid()
    {
      var chosenSubnet;
      if Given(subnet) {
        chosenSubnet := subnet.value;
        DropParameter(SubnetParameter(name));
      } else {
        chosenSubnet := SubnetParameter(name);
        parameters := Put(parameters, chosenSubnet, ParameterSubnet());
      }
      var chosen := RequestSg(name, sg);
      if chosen.Err? {
        return Some(chosen.error);
      }
      AddInstanceBundle(name, InstanceOf(name, chosen.value, chosenSubnet));
      return None;
    }

    /** The thirteen assignments of the VPC bundle, in order. */
    method AddVpc(name: string)
      requires Valid()
      modifies this
      ensures Doc() == Add.AddVpc(old(Doc()), name)
      ensures Valid()
    {
      var d := PutResources(Doc(), VpcBundle(name));
      resources := PutAll(resources, VpcBundle(name));
      assert resources == d.resources;
    }

    /** One branch of the `if resource == ...` chain. */
    method AddKind(k: Kind, name: string, sg: Option<string>, lt: Option<string>, subnet: Option<string>) returns (failure: Option<Error>)
      requires Valid()
      modifies this
      ensures After(failure, Doc()) == Add.AddKind(old(Doc()), k, name, sg, lt, subnet)
      ensures failure.None? ==> Valid()
    {
      failure := None;
      match k
      case S3 =>
        AddS3(name);
      case Static =>
        AddStatic(name);
      case Lambda =>
        AddLambda(name);
      case LaunchTemplate =>
        failure := AddLaunchTemplate(name, sg);
      case Autoscaling =>
        failure := AddAutoscaling(name, lt, subnet);
      case SecurityGroup =>
        AddSecurityGroup(name);
      case Ec2 =>
        failure := AddEc2(name, sg, subnet);
      case Vpc =>
        AddVpc(name);
    }

    /** `-add <type> <name>`: the name is sanitised and the type picks the branch;
        an unknown type is fatal. */
    method AddResource(add: seq<string>, sg: Option<string>, lt: Option<string>, subnet: Option<string>) returns (failure: Option<Error>)
      requires Valid() && |add| >= 1
      modifies this
      ensures After(failure, Doc()) == Add.Add(old(Doc()), add, sg, lt, subnet)
      ensures failure.None? ==> Valid()
    {
      if |add| < 2 {
        return Some(Crash);
      }
      var name := Sanitise(add[1]);
      var kind := ParseKind(add[0]);
      if kind.None? {
        return Some(UnknownResourceType(add[0]));
      }
      failure := AddKind(kind.value, name, sg, lt, subnet);
    }

    /** One payload loop: for each resource in document order that has a file,
        the file's lines are copied into it. */
    method CopyFiles(files: map<string, seq<string>>, p: Payload) returns (failure: Option<Error>)
      requires Valid()
      modifies this
      ensures After(failure, resources) == Pass(old(resources), old(resources).keys, files, p)
      ensures header == old(header) && parameters == old(parameters) && outputs == old(outputs)
      ensures failure.None? ==> Valid()
    {
      var keys := resources.keys;
      ghost var start := resources;
      for i := 0 to |keys|
        invariant ResourcesWellFormed(resources) && resources.keys == keys
        invariant Pass(resources, keys[i..], files, p) == Pass(start, keys, files, p)
        invariant header == old(header) && parameters == old(parameters) && outputs == old(outputs)
      {
        var k := keys[i];
        assert keys[i..][1..] == keys[i + 1..];
        if k in files {
          var v := Inlined(resources.entries[k], p, files[k]);
          if v.Err? {
            return Some(v.error);
          }
          resources := Put(resources, k, v.value);
        }
      }
      assert keys[|keys|..] == [];
      return None;
    }

    /** Both payload loops: the Python files, then the shell scripts. */
    method CopyPayloads(py: map<string, seq<string>>, sh: map<string, seq<string>>) returns (failure: Option<Error>)
      requires Valid()
      modifies this
      ensures After(failure, Doc()) == Inline(old(Doc()), py, sh)
      ensures failure.None? ==> Valid()
    {
      failure := CopyFiles(py, PythonCode);
      if failure.Some? {
        return;
      }
      failure := CopyFiles(sh, ShellUserData);
    }

    /** `-link <bucket> <function>`: the environment variable, then the statement. */
    method LinkResources(link: seq<string>) returns (failure: Option<Error>)
      requires Valid() && |link| >= 1
      modifies this
      ensures After(failure, Doc()) == Link.Link(old(Doc()), link)
      ensures failure.None? ==> Valid()
    {
      var src := link[0];
      if src !in resources.entries {
        return Some(Crash);
      }
      if !HasType(resources.entries[src], BucketType) {
        return Some(UnsupportedLink);
      }
      if |link| < 2 {
        return Some(Crash);
      }
      var dst := link[1];
      if dst !in resources.entries {
        return Some(Crash);
      }
      if !HasType(resources.entries[dst], FunctionType) {
        return Some(UnsupportedLink);
      }
      if !IsObjectAt(resources.entries[dst], EnvironmentPath) {
        return Some(Crash);
      }
      resources := Put(resources, dst, Expose(resources.entries[dst], src));
      var role := ExecutionRoleName(dst);
      if role !in resources.entries || !HasStatements(resources.entries[role]) {
        return Some(Crash);
      }
      resources := Put(resources, role, Allow(resources.entries[role], S3AccessStatement(src)));
      return None;
    }
  }

  /** `main` once the options are parsed and the file is read: the template is
      loaded and normalised, then listed, or edited and handed back for writing;
      a fatal error ends the run with nothing to write. */
  method Edit(f: Loaded, args: Args, py: map<string, seq<string>>, sh: map<string, seq<string>>) returns (o: Outcome)
    requires LoadedWellFormed(f) && Parsed(args)
    ensures o == Run(f, args, py, sh)
  {
    var t := new Template.Load(f, args.desc);
    if args.list {
      return Listed;
    }
    if args.add.Some? {
      var failure := t.AddResource(args.add.value, args.sg, args.lt, args.subnet);
      if failure.Some? {
        return Failed(failure.value);
      }
      failure := t.CopyPayloads(py, sh);
      if failure.Some? {
        return Failed(failure.value);
      }
    }
    if args.link.Some? {
      var failure := t.LinkResources(args.link.value);
      if failure.Some? {
        return Failed(failure.value);
      }
    }
    return Saved(t.Doc());
  }
}
