/** After an add, the helper copies local source files into the template: the
    lines of `<name>.py` become the inline code of the Lambda function `<name>`,
    and the lines of `<name>.sh` the user data of the launch template or instance
    `<name>`. The files are given as a map from resource name to the file's lines
    (as `readlines` returns them, line ends included). */
module Payload {
  import opened Wrappers
  import opened Json
  import opened OrderedDict
  import opened Templates
  import opened Document

  /** Which of the two file kinds a pass copies. */
  datatype Payload = PythonCode | ShellUserData

  /** The dict, inside a resource of type `t`, that receives the payload of kind `p`. */
  function Target(t: Json, p: Payload): Option<seq<Step>> {
    match p
    case PythonCode =>
      if t == Str(FunctionType) then Some([Key("Properties"), Key("Code")]) else None
    case ShellUserData =>
      if t == Str(LaunchTemplateType) then Some([Key("Properties"), Key("LaunchTemplateData")])
      else if t == Str(InstanceType) then Some([Key("Properties")])
      else None
  }

  function Field(p: Payload): string {
    match p
    case PythonCode => "ZipFile"
    case ShellUserData => "UserData"
  }

  /** The lines joined with no separator; user data is base64-encoded on top. */
  function Contents(p: Payload, lines: seq<string>): Json {
    var joined := Join("", seq(|lines|, i requires 0 <= i < |lines| => Str(lines[i])));
    match p
    case PythonCode => joined
    case ShellUserData => Base64(joined)
  }

  /** One resource with the payload copied in: unchanged when its type takes no payload
      of this kind; an uncaught exception when the target dict is missing. */
  function Inlined(v: Json, p: Payload, lines: seq<string>): (r: Result<Json, Error>)
    requires IsResource(v)
    ensures Target(v.fields["Type"], p).None? ==> r == Ok(v)
    ensures r.Err? <==> Target(v.fields["Type"], p).Some? && !IsObjectAt(v, Target(v.fields["Type"], p).value)
    ensures r.Err? ==> r.error == Crash
    ensures r.Ok? ==> && IsResource(r.value) && r.value.fields["Type"] == v.fields["Type"]
                      && (forall k :: k in r.value.fields <==> k in v.fields)
                      && (forall k :: k in v.fields && k != "Properties" ==> r.value.fields[k] == v.fields[k])
    ensures r.Ok? && Target(v.fields["Type"], p).Some? ==>
              var path := Target(v.fields["Type"], p).value;
              && IsObjectAt(v, path) && IsObjectAt(r.value, path)
              && FieldsAt(r.value, path) == FieldsAt(v, path)[Field(p) := Contents(p, lines)]
  {
    match Target(v.fields["Type"], p)
    case None => Ok(v)
    case Some(path) =>
      if !IsObjectAt(v, path) then Err(Crash)
      else Ok(SetField(v, path, Field(p), Contents(p, lines)))
  }

  /** The loop over the resources, in document order, for one kind of file. */
  function Pass(res: Dict, keys: seq<string>, files: map<string, seq<string>>, p: Payload): (r: Result<Dict, Error>)
    requires ResourcesWellFormed(res) && forall k :: k in keys ==> k in res.entries
    ensures r.Ok? ==> ResourcesWellFormed(r.value) && r.value.keys == res.keys
    ensures r.Ok? ==> forall k :: k in res.entries ==> r.value.entries[k].fields["Type"] == res.entries[k].fields["Type"]
    ensures r.Err? ==> r.error == Crash
    decreases |keys|
  {
    if keys == [] then Ok(res)
    else
      var k := keys[0];
      if k !in files then Pass(res, keys[1..], files, p)
      else
        var v :- Inlined(res.entries[k], p, files[k]);
        Pass(Put(res, k, v), keys[1..], files, p)
  }

  /** Both loops: first the Python files, then the shell scripts. */
  function Inline(doc: Document, py: map<string, seq<string>>, sh: map<string, seq<string>>): (r: Result<Document, Error>)
    requires WellFormed(doc)
    ensures r.Ok? ==> && WellFormed(r.value) && r.value.resources.keys == doc.resources.keys
                      && r.value.header == doc.header && r.value.parameters == doc.parameters
                      && r.value.outputs == doc.outputs
    ensures r.Err? ==> r.error == Crash
  {
    var code :- Pass(doc.resources, doc.resources.keys, py, PythonCode);
    var data :- Pass(code, code.keys, sh, ShellUserData);
    Ok(doc.(resources := data))
  }

  /** Copying the same payload in again changes nothing. */
  lemma InlinedTwice(v: Json, p: Payload, lines: seq<string>)
    requires IsResource(v) && Inlined(v, p, lines).Ok?
    ensures Inlined(Inlined(v, p, lines).value, p, lines) == Inlined(v, p, lines)
  {
    var w := Inlined(v, p, lines).value;
    var t := Target(v.fields["Type"], p);
    if t.Some? {
      SetFieldUnchanged(w, t.value, Field(p), Contents(p, lines));
    }
  }

  /** Each resource named in `keys` that has a file is replaced by its inlined
      value, every other one is left alone; the loop fails exactly when one of
      those resources lacks its target dict. */
  lemma {:induction false} PassEffect(res: Dict, keys: seq<string>, files: map<string, seq<string>>, p: Payload)
    requires ResourcesWellFormed(res) && (forall k :: k in keys ==> k in res.entries) && Distinct(keys)
    ensures var r := Pass(res, keys, files, p);
      && (r.Err? <==> exists k :: k in keys && k in files && Inlined(res.entries[k], p, files[k]).Err?)
      && (r.Ok? ==> forall k :: k in res.entries ==>
            if k in keys && k in files then r.value.entries[k] == Inlined(res.entries[k], p, files[k]).value
            else r.value.entries[k] == res.entries[k])
    decreases |keys|
  {
    if keys != [] {
      var k := keys[0];
      DistinctTail(keys);
      assert forall x :: x in keys <==> x == k || x in keys[1..];
      if k !in files {
        PassEffect(res, keys[1..], files, p);
      } else if Inlined(res.entries[k], p, files[k]).Ok? {
        var v := Inlined(res.entries[k], p, files[k]).value;
        var next := Put(res, k, v);
        PassEffect(next, keys[1..], files, p);
        assert forall x :: x in keys[1..] ==> next.entries[x] == res.entries[x];
      }
    }
  }

  /** Every resource with a file already holds what the loop would copy into it. */
  predicate Settled(res: Dict, files: map<string, seq<string>>, p: Payload)
    requires ResourcesWellFormed(res)
  {
    forall k :: k in res.entries && k in files ==> Inlined(res.entries[k], p, files[k]) == Ok(res.entries[k])
  }

  /** After the loop, every resource is settled. */
  lemma PassSettles(res: Dict, files: map<string, seq<string>>, p: Payload)
    requires ResourcesWellFormed(res) && Pass(res, res.keys, files, p).Ok?
    ensures Settled(Pass(res, res.keys, files, p).value, files, p)
  {
    PassEffect(res, res.keys, files, p);
    forall k | k in res.entries && k in files {
      InlinedTwice(res.entries[k], p, files[k]);
    }
  }

  /** On settled resources the loop rewrites nothing. */
  lemma {:induction false} PassSettled(res: Dict, keys: seq<string>, files: map<string, seq<string>>, p: Payload)
    requires ResourcesWellFormed(res) && (forall k :: k in keys ==> k in res.entries) && Settled(res, files, p)
    ensures Pass(res, keys, files, p) == Ok(res)
    decreases |keys|
  {
    if keys != [] {
      var k := keys[0];
      if k in files {
        PutUnchanged(res, k, res.entries[k]);
      }
      PassSettled(res, keys[1..], files, p);
    }
  }

  /** No resource type takes both kinds of file. */
  lemma TargetsDisjoint(t: Json)
    ensures Target(t, PythonCode).None? || Target(t, ShellUserData).None?
  {
  }

  /** The shell-script loop leaves the functions, so what the Python loop settled stays settled. */
  lemma ShellKeepsCode(res: Dict, py: map<string, seq<string>>, sh: map<string, seq<string>>)
    requires ResourcesWellFormed(res) && Settled(res, py, PythonCode) && Pass(res, res.keys, sh, ShellUserData).Ok?
    ensures Settled(Pass(res, res.keys, sh, ShellUserData).value, py, PythonCode)
  {
    var r := Pass(res, res.keys, sh, ShellUserData).value;
    PassEffect(res, res.keys, sh, ShellUserData);
    forall k | k in r.entries && k in py
      ensures Inlined(r.entries[k], PythonCode, py[k]) == Ok(r.entries[k])
    {
      TargetsDisjoint(res.entries[k].fields["Type"]);
    }
  }

  /** Running the copy again after it succeeded changes nothing. */
  lemma InlineIdempotent(doc: Document, py: map<string, seq<string>>, sh: map<string, seq<string>>)
    requires WellFormed(doc) && Inline(doc, py, sh).Ok?
    ensures Inline(Inline(doc, py, sh).value, py, sh) == Inline(doc, py, sh)
  {
    var code := Pass(doc.resources, doc.resources.keys, py, PythonCode).value;
    var data := Pass(code, code.keys, sh, ShellUserData).value;
    PassSettles(doc.resources, py, PythonCode);
    PassSettles(code, sh, ShellUserData);
    ShellKeepsCode(code, py, sh);
    PassSettled(data, data.keys, py, PythonCode);
    PassSettled(data, data.keys, sh, ShellUserData);
  }

  /** Without files the copy is the identity. */
  lemma InlineNoFiles(doc: Document)
    requires WellFormed(doc)
    ensures Inline(doc, map[], map[]) == Ok(doc)
  {
    PassSettled(doc.resources, doc.resources.keys, map[], PythonCode);
    PassSettled(doc.resources, doc.resources.keys, map[], ShellUserData);
  }

  /** A resource after one loop, when that loop succeeds. */
  function Copied(v: Json, k: string, files: map<string, seq<string>>, p: Payload): (r: Json)
    requires IsResource(v)
    ensures IsResource(r) && r.fields["Type"] == v.fields["Type"]
  {
    if k in files && Inlined(v, p, files[k]).Ok? then Inlined(v, p, files[k]).value else v
  }

  /** The copy fails exactly when some resource with a file lacks the dict its
      payload goes to; otherwise each resource holds its Python code and then its
      shell script, as far as its type takes them, and nothing else changes. */
  lemma InlineEffect(doc: Document, py: map<string, seq<string>>, sh: map<string, seq<string>>)
    requires WellFormed(doc)
    ensures var r := Inline(doc, py, sh); var res := doc.resources.entries;
      && (r.Err? <==> exists k :: k in res && ((k in py && Inlined(res[k], PythonCode, py[k]).Err?)
                                               || (k in sh && Inlined(res[k], ShellUserData, sh[k]).Err?)))
      && (r.Ok? ==> forall k :: k in res ==>
            r.value.resources.entries[k] == Copied(Copied(res[k], k, py, PythonCode), k, sh, ShellUserData))
  {
    var res := doc.resources.entries;
    PassEffect(doc.resources, doc.resources.keys, py, PythonCode);
    var first := Pass(doc.resources, doc.resources.keys, py, PythonCode);
    if first.Ok? {
      var code := first.value;
      PassEffect(code, code.keys, sh, ShellUserData);
      forall k | k in res
        ensures code.entries[k] == Copied(res[k], k, py, PythonCode)
        ensures k in sh ==> (Inlined(code.entries[k], ShellUserData, sh[k]).Err? <==> Inlined(res[k], ShellUserData, sh[k]).Err?)
      {
        TargetsDisjoint(res[k].fields["Type"]);
      }
    }
  }
}
