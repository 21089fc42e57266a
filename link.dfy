/** `-link <source> <target>`: the one supported direction, an S3 bucket into a
    Lambda function. The function gets an environment variable naming the bucket
    and its execution role a statement granting access to the bucket's objects. */
module Link {
  import opened Wrappers
  import opened Json
  import opened OrderedDict
  import opened Templates
  import opened Document
  import opened Add

  /** The statement the execution role gains: object access on `bucket`. */
  function S3AccessStatement(bucket: string): Json {
    JObject(map[
      "Effect" := Str("Allow"),
      "Action" := JArray([Str("s3:GetObject"), Str("s3:PutObject"), Str("s3:DeleteObject"), Str("s3:ListBuckets")]),
      "Resource" := Join("", [Str("arn:aws:s3:::"), Ref(bucket), Str("/*")])])
  }

  /** `Properties.Policies[0].PolicyDocument.Statement` exists and is a list:
      the source subscripts it, tests membership in it and appends to it. */
  predicate HasStatements(role: Json) {
    && IsObjectAt(role, PolicyDocumentPath)
    && "Statement" in FieldsAt(role, PolicyDocumentPath)
    && FieldsAt(role, PolicyDocumentPath)["Statement"].JArray?
  }

  function Statements(role: Json): seq<Json>
    requires HasStatements(role)
  {
    FieldsAt(role, PolicyDocumentPath)["Statement"].items
  }

  /** `if not p in x: x.append(p)` on the statement list of `role`. Afterwards `p`
      is granted, no statement is lost, and nothing else in the policy document
      changes; at the top, only `Properties` can differ. */
  function Allow(role: Json, p: Json): (r: Json)
    requires HasStatements(role)
    ensures HasStatements(r) && p in Statements(r)
    ensures p in Statements(role) ==> r == role
    ensures p !in Statements(role) ==> Statements(r) == Statements(role) + [p]
    ensures FieldsAt(r, PolicyDocumentPath) - {"Statement"} == FieldsAt(role, PolicyDocumentPath) - {"Statement"}
    ensures IsResource(role) ==> IsResource(r) && r.fields["Type"] == role.fields["Type"]
    ensures r.JObject? && role.JObject? && (forall k :: k in r.fields <==> k in role.fields)
    ensures forall k :: k in role.fields && k != "Properties" ==> r.fields[k] == role.fields[k]
  {
    var x := Statements(role);
    if p in x then role
    else SetField(role, PolicyDocumentPath, "Statement", JArray(x + [p]))
  }

  /** The function's environment variable `<bucket>` is set to `{"Ref": bucket}`. */
  function Expose(lambda: Json, bucket: string): (r: Json)
    requires IsObjectAt(lambda, EnvironmentPath)
    ensures IsObjectAt(r, EnvironmentPath)
    ensures FieldsAt(r, EnvironmentPath) == FieldsAt(lambda, EnvironmentPath)[bucket := Ref(bucket)]
    ensures IsResource(lambda) ==> IsResource(r) && r.fields["Type"] == lambda.fields["Type"]
    ensures r.JObject? && lambda.JObject? && (forall k :: k in r.fields <==> k in lambda.fields)
    ensures forall k :: k in lambda.fields && k != "Properties" ==> r.fields[k] == lambda.fields[k]
  {
    SetField(lambda, EnvironmentPath, bucket, Ref(bucket))
  }

  predicate Bucket(res: map<string, Json>, k: string) {
    k in res && HasType(res[k], BucketType)
  }

  /** Every check of the rule passes: both resources exist with the right types
      (the bucket is checked first, and a wrong type there is reported before the
      target is looked at), the function has an environment dict, and its role
      has a statement list. */
  predicate Linkable(doc: Document, link: seq<string>)
    requires WellFormed(doc)
  {
    var res := doc.resources.entries;
    && |link| >= 2
    && link[0] in res && HasType(res[link[0]], BucketType)
    && link[1] in res && HasType(res[link[1]], FunctionType)
    && IsObjectAt(res[link[1]], EnvironmentPath)
    && ExecutionRoleName(link[1]) in res && HasStatements(res[ExecutionRoleName(link[1])])
  }

  /** The link rule. A wrong type of either end is the fatal "Unsupported linking
      direction"; a missing resource, a missing second argument, or a function or
      role without the expected nested dicts and list is an uncaught exception. */
  function Link(doc: Document, link: seq<string>): (r: Result<Document, Error>)
    requires WellFormed(doc) && |link| >= 1
    ensures r.Ok? ==> && |link| >= 2 && WellFormed(r.value)
                      && r.value.header == doc.header && r.value.parameters == doc.parameters
                      && r.value.outputs == doc.outputs && r.value.resources.keys == doc.resources.keys
  {
    var res := doc.resources.entries;
    var src := link[0];
    if src !in res then Err(Crash)
    else if !HasType(res[src], BucketType) then Err(UnsupportedLink)
    else if |link| < 2 then Err(Crash)
    else
      var dst := link[1];
      if dst !in res then Err(Crash)
      else if !HasType(res[dst], FunctionType) then Err(UnsupportedLink)
      else if !IsObjectAt(res[dst], EnvironmentPath) then Err(Crash)
      else
        var d := PutResource(doc, dst, Expose(res[dst], src));
        var role := ExecutionRoleName(dst);
        if role !in d.resources.entries || !HasStatements(d.resources.entries[role]) then Err(Crash)
        else
          var granted := Allow(d.resources.entries[role], S3AccessStatement(src));
          Ok(PutResource(d, role, granted))
  }

  /** The role is never the function itself. */
  lemma RoleIsNotFunction(dst: string)
    ensures ExecutionRoleName(dst) != dst
  {
    assert |ExecutionRoleName(dst)| > |dst|;
  }

  /** Which outcome each failed check gives, and that linking succeeds exactly
      when every check passes. */
  lemma LinkOutcome(doc: Document, link: seq<string>)
    requires WellFormed(doc) && |link| >= 1
    ensures var r := Link(doc, link); var res := doc.resources.entries;
      && (r.Ok? <==> Linkable(doc, link))
      && (link[0] !in res ==> r == Err(Crash))
      && (link[0] in res && !HasType(res[link[0]], BucketType) ==> r == Err(UnsupportedLink))
      && (Bucket(res, link[0]) && (|link| < 2 || link[1] !in res) ==> r == Err(Crash))
      && (Bucket(res, link[0]) && |link| >= 2 && link[1] in res && !HasType(res[link[1]], FunctionType)
          ==> r == Err(UnsupportedLink))
      && (r.Err? ==> r.error == Crash || r.error == UnsupportedLink)
  {
    if |link| >= 2 {
      RoleIsNotFunction(link[1]);
    }
  }

  /** What a successful link does: the bucket becomes an environment variable of
      the function, the role grants the bucket's statement (appending it only when
      it is new), every other resource keeps its value, and no resource changes
      its type. */
  lemma LinkEffect(doc: Document, link: seq<string>)
    requires WellFormed(doc) && |link| >= 1 && Linkable(doc, link)
    ensures Link(doc, link).Ok?
    ensures var d := Link(doc, link).value.resources.entries; var res := doc.resources.entries;
      var src := link[0]; var dst := link[1]; var role := ExecutionRoleName(dst); var p := S3AccessStatement(src);
      && IsObjectAt(d[dst], EnvironmentPath) && HasStatements(d[role])
      && FieldsAt(d[dst], EnvironmentPath) == FieldsAt(res[dst], EnvironmentPath)[src := Ref(src)]
      && (p in Statements(res[role]) ==> Statements(d[role]) == Statements(res[role]))
      && (p !in Statements(res[role]) ==> Statements(d[role]) == Statements(res[role]) + [p])
      && (forall k :: k in res && k != dst && k != role ==> d[k] == res[k])
      && (forall k :: k in res ==> d[k].fields["Type"] == res[k].fields["Type"])
  {
    LinkWrites(doc, link);
  }

  /** The two resources a successful link writes, as values of the old ones. */
  lemma LinkWrites(doc: Document, link: seq<string>)
    requires WellFormed(doc) && |link| >= 1 && Linkable(doc, link)
    ensures Link(doc, link).Ok?
    ensures var res := doc.resources.entries; var src := link[0]; var dst := link[1]; var role := ExecutionRoleName(dst);
      Link(doc, link).value.resources.entries
      == res[dst := Expose(res[dst], src)][role := Allow(res[role], S3AccessStatement(src))]
  {
    var res := doc.resources.entries;
    var src := link[0];
    var dst := link[1];
    var role := ExecutionRoleName(dst);
    RoleIsNotFunction(dst);
    var d1 := PutResource(doc, dst, Expose(res[dst], src));
    assert d1.resources.entries[role] == res[role];
  }

  /** Linking twice is linking once: the variable is already set and the
      statement is already in the list, so the second run rewrites nothing. */
  lemma LinkIdempotent(doc: Document, link: seq<string>)
    requires WellFormed(doc) && |link| >= 1 && Link(doc, link).Ok?
    ensures Link(Link(doc, link).value, link) == Link(doc, link)
  {
    var src := link[0];
    var dst := link[1];
    var role := ExecutionRoleName(dst);
    RoleIsNotFunction(dst);
    LinkOutcome(doc, link);
    LinkEffect(doc, link);
    var d := Link(doc, link).value;
    var lambda := d.resources.entries[dst];
    SetFieldUnchanged(lambda, EnvironmentPath, src, Ref(src));
    PutUnchanged(d.resources, dst, lambda);
    PutUnchanged(d.resources, role, d.resources.entries[role]);
  }

  /** Linking a function with no variables yet, whose role has only `statement`. */
  lemma LinkFirst(doc: Document, bucket: string, fn: string, statement: Json)
    requires WellFormed(doc) && Bucket(doc.resources.entries, bucket)
    requires fn in doc.resources.entries && HasType(doc.resources.entries[fn], FunctionType)
    requires Get(doc.resources.entries[fn], EnvironmentPath) == Some(JObject(map[]))
    requires ExecutionRoleName(fn) in doc.resources.entries
    requires HasStatements(doc.resources.entries[ExecutionRoleName(fn)])
    requires Statements(doc.resources.entries[ExecutionRoleName(fn)]) == [statement]
    requires statement != S3AccessStatement(bucket)
    ensures var r := Link(doc, [bucket, fn]);
      && r.Ok?
      && var d := r.value.resources.entries;
      && fn in d && IsObjectAt(d[fn], EnvironmentPath)
      && FieldsAt(d[fn], EnvironmentPath) == map[bucket := Ref(bucket)]
      && ExecutionRoleName(fn) in d && HasStatements(d[ExecutionRoleName(fn)])
      && Statements(d[ExecutionRoleName(fn)]) == [statement, S3AccessStatement(bucket)]
  {
    var link := [bucket, fn];
    assert link[0] == bucket && link[1] == fn;
    LinkEffect(doc, link);
  }

  /** A bucket and a function fresh from `-add s3` and `-add lambda` link: the
      function's only variable is the bucket, and its role allows logging and then
      access to the bucket. */
  lemma LinkFresh(doc: Document, bucket: string, fn: string)
    requires WellFormed(doc)
    requires bucket in doc.resources.entries && HasType(doc.resources.entries[bucket], BucketType)
    requires fn in doc.resources.entries && doc.resources.entries[fn] == ResourceLambda(fn)
    requires ExecutionRoleName(fn) in doc.resources.entries
    requires doc.resources.entries[ExecutionRoleName(fn)] == ResourceLambdaExecutionRole(fn)
    ensures var r := Link(doc, [bucket, fn]);
      && r.Ok?
      && var d := r.value.resources.entries;
      && fn in d && IsObjectAt(d[fn], EnvironmentPath)
      && FieldsAt(d[fn], EnvironmentPath) == map[bucket := Ref(bucket)]
      && ExecutionRoleName(fn) in d && HasStatements(d[ExecutionRoleName(fn)])
      && Statements(d[ExecutionRoleName(fn)]) == [LogsStatement(), S3AccessStatement(bucket)]
  {
    ResourceLambdaWiring(fn);
    ResourceLambdaExecutionRoleWiring(fn);
    assert S3AccessStatement(bucket) != LogsStatement() by {
      assert S3AccessStatement(bucket).fields["Resource"] != LogsStatement().fields["Resource"];
    }
    LinkFirst(doc, bucket, fn, LogsStatement());
  }
}
