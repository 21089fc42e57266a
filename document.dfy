/** The in-memory template (`cloudFormation` in cfh.py): its three partitions, the
    normalisation applied right after loading (cfh.py:404-418) and the lookup of
    resources by type (`findResources`, cfh.py:375-380). */
module Document {
  import opened Wrappers
  import opened Json
  import opened OrderedDict
  import opened Templates

  /** Why a run stops with `[FATAL]` and exit status 1, before anything is written. */
  datatype Error =
    | SecurityGroupNotFound            // "A security group was specified that does not exist in the template"
    | NotASecurityGroup                // "A CloudFormation resource was provided that is not a Security Group"
    | SubnetNotFound(subnet: string)   // "Subnet <s> not found"
    | TooManyLaunchTemplates           // "There are too many launch templates - select one with the -lt option"
    | UnknownLaunchTemplate            // "You provided an unknown launch template"
    | NoLaunchTemplates                // "There are no launch templates available."
    | UnknownResourceType(kind: string) // "Unknown resource type - <kind>"
    | UnsupportedLink                  // "Unsupported linking direction"
    | Crash                            // an uncaught KeyError or TypeError: also exit 1, no write

  /** A template after normalisation. `header` holds every top-level entry other
      than the three partitions (the format version, the description, and any
      other section the file had). */
  datatype Document = Document(header: Dict, parameters: Dict, resources: Dict, outputs: Dict)

  /** A template as read from disk (a missing file reads as `{}`): a partition may be absent. */
  datatype Loaded = Loaded(header: Dict, parameters: Option<Dict>, resources: Option<Dict>, outputs: Option<Dict>)

  const FormatVersionKey := "AWSTemplateFormatVersion"
  const DescriptionKey := "Description"
  const DefaultFormatVersion := "2010-09-09"
  const DefaultDescription := "CloudFormation Helper Script"

  /** The file `{}`. */
  const EmptyFile := Loaded(Empty(), None, None, None)

  predicate NoPartitionIn(header: Dict) {
    "Parameters" !in header.entries && "Resources" !in header.entries && "Outputs" !in header.entries
  }

  /** Every resource is a dict with a `Type`. The source reads the `Type` of every
      resource only when listing, after an add and in `findResources`; the model
      assumes it of every template. */
  predicate ResourcesWellFormed(resources: Dict) {
    Valid(resources) && forall k :: k in resources.entries ==> IsResource(resources.entries[k])
  }

  predicate WellFormed(doc: Document) {
    && Valid(doc.header) && NoPartitionIn(doc.header)
    && Valid(doc.parameters) && ResourcesWellFormed(doc.resources) && Valid(doc.outputs)
  }

  predicate LoadedWellFormed(f: Loaded) {
    && Valid(f.header) && NoPartitionIn(f.header)
    && (f.parameters.Some? ==> Valid(f.parameters.value))
    && (f.resources.Some? ==> ResourcesWellFormed(f.resources.value))
    && (f.outputs.Some? ==> Valid(f.outputs.value))
  }

  /** `-desc`: an explicit, non-empty description replaces the old one. */
  function Describe(header: Dict, desc: Option<string>): (h: Dict)
    requires Valid(header)
    ensures Valid(h) && header.keys <= h.keys
    ensures forall k :: k in h.entries <==> k in header.entries || (Given(desc) && k == DescriptionKey)
    ensures forall k :: k in header.entries && k != DescriptionKey ==> h.entries[k] == header.entries[k]
    ensures Given(desc) ==> h.entries[DescriptionKey] == Str(desc.value)
    ensures !Given(desc) ==> h == header
  {
    if Given(desc) then Put(header, DescriptionKey, Str(desc.value)) else header
  }

  /** The top-level entries after `-desc` and the two defaults (cfh.py:405-414). */
  function NormaliseHeader(header: Dict, desc: Option<string>): (h: Dict)
    requires Valid(header)
    ensures Valid(h)
  {
    SetDefault(SetDefault(Describe(header, desc), FormatVersionKey, Str(DefaultFormatVersion)), DescriptionKey, Str(DefaultDescription))
  }

  /** After normalisation both keys exist and the header has no other new key. */
  lemma NormaliseHeaderKeys(header: Dict, desc: Option<string>)
    requires Valid(header)
    ensures var h := NormaliseHeader(header, desc);
      && FormatVersionKey in h.entries && DescriptionKey in h.entries
      && forall k :: k in h.entries <==> k in header.entries || k == FormatVersionKey || k == DescriptionKey
  {
  }

  /** The old keys keep their places and the new ones come after them. */
  lemma NormaliseHeaderOrder(header: Dict, desc: Option<string>)
    requires Valid(header)
    ensures header.keys <= NormaliseHeader(header, desc).keys
  {
    var h1 := Describe(header, desc);
    var h2 := SetDefault(h1, FormatVersionKey, Str(DefaultFormatVersion));
    var h := SetDefault(h2, DescriptionKey, Str(DefaultDescription));
    assert header.keys <= h1.keys && h1.keys <= h2.keys && h2.keys <= h.keys;
  }

  /** Every entry other than the description keeps its value; an absent format
      version becomes 2010-09-09; the description is `-desc` when given, else the
      one already there, else the default. */
  lemma NormaliseHeaderValues(header: Dict, desc: Option<string>)
    requires Valid(header)
    ensures var h := NormaliseHeader(header, desc);
      && (forall k :: k in header.entries && k != DescriptionKey ==> h.entries[k] == header.entries[k])
      && (FormatVersionKey !in header.entries ==> h.entries[FormatVersionKey] == Str(DefaultFormatVersion))
      && (Given(desc) ==> h.entries[DescriptionKey] == Str(desc.value))
      && (!Given(desc) && DescriptionKey in header.entries ==> h.entries[DescriptionKey] == header.entries[DescriptionKey])
      && (!Given(desc) && DescriptionKey !in header.entries ==> h.entries[DescriptionKey] == Str(DefaultDescription))
  {
  }

  /** The quality pass run on every loaded template: the header as above, and a
      missing partition becomes `{}` while a present one is kept as it is. */
  function Normalise(f: Loaded, desc: Option<string>): (d: Document)
    requires LoadedWellFormed(f)
    ensures WellFormed(d)
    ensures d.parameters == (if f.parameters.Some? then f.parameters.value else Empty())
    ensures d.resources == (if f.resources.Some? then f.resources.value else Empty())
    ensures d.outputs == (if f.outputs.Some? then f.outputs.value else Empty())
  {
    Document(NormaliseHeader(f.header, desc), f.parameters.GetOr(Empty()), f.resources.GetOr(Empty()), f.outputs.GetOr(Empty()))
  }

  /** The file the document is written as, read back in: a well-formed template
      loads well formed, and once it has both header defaults, normalising it
      without a description gives back the same template. */
  function Reloaded(d: Document): (f: Loaded)
    ensures WellFormed(d) ==> LoadedWellFormed(f)
    ensures WellFormed(d) && FormatVersionKey in d.header.entries && DescriptionKey in d.header.entries ==>
              Normalise(f, None) == d
  {
    Loaded(d.header, Some(d.parameters), Some(d.resources), Some(d.outputs))
  }

  /** Normalising a normalised template again changes nothing, whether the second run
      passes no description or the same one. */
  lemma NormaliseIdempotent(f: Loaded, desc: Option<string>, again: Option<string>)
    requires LoadedWellFormed(f)
    requires !Given(again) || again == desc
    ensures LoadedWellFormed(Reloaded(Normalise(f, desc)))
    ensures Normalise(Reloaded(Normalise(f, desc)), again) == Normalise(f, desc)
  {
    var d := Normalise(f, desc);
    NormaliseHeaderKeys(f.header, desc);
    if Given(again) {
      NormaliseHeaderValues(f.header, desc);
      PutUnchanged(d.header, DescriptionKey, Str(again.value));
    }
  }

  // ------------------------------------------------------ lookup by type

  /** The keys among `keys` whose entries have type `t`, in the order of `keys`. */
  function OfType(keys: seq<string>, entries: map<string, Json>, t: string): seq<string>
  {
    if keys == [] then []
    else
      var last := keys[|keys| - 1];
      OfType(keys[..|keys| - 1], entries, t) + if last in entries && HasType(entries[last], t) then [last] else []
  }

  /** `findResources(cf, t)`: the names of the resources of type `t`, in document order. */
  function ResourcesOfType(resources: Dict, t: string): seq<string> {
    OfType(resources.keys, resources.entries, t)
  }

  /** The place of `x` in a list of distinct keys. */
  function IndexOf(s: seq<string>, x: string): (i: nat)
    requires x in s
    ensures i < |s| && s[i] == x
    ensures forall j :: 0 <= j < i ==> s[j] != x
  {
    if s[0] == x then 0 else 1 + IndexOf(s[1..], x)
  }

  lemma IndexOfDistinct(s: seq<string>, i: nat)
    requires Distinct(s) && i < |s|
    ensures IndexOf(s, s[i]) == i
  {
  }

  lemma {:induction false} IndexOfPrefix(s: seq<string>, n: nat, x: string)
    requires n <= |s| && x in s[..n]
    ensures IndexOf(s, x) == IndexOf(s[..n], x)
  {
    var i := IndexOf(s[..n], x);
    assert s[i] == x;
    assert forall j :: 0 <= j < i ==> s[j] == s[..n][j];
    var k := IndexOf(s, x);
    assert k <= i;
    assert k < n && s[..n][k] == x;
  }

  lemma {:induction false} OfTypeSpec(keys: seq<string>, entries: map<string, Json>, t: string)
    requires Distinct(keys)
    ensures forall k :: k in OfType(keys, entries, t) <==> k in keys && k in entries && HasType(entries[k], t)
    ensures Distinct(OfType(keys, entries, t))
    ensures forall i, j :: 0 <= i < j < |OfType(keys, entries, t)| ==>
              IndexOf(keys, OfType(keys, entries, t)[i]) < IndexOf(keys, OfType(keys, entries, t)[j])
    decreases |keys|
  {
    if keys != [] {
      var n := |keys| - 1;
      var init := keys[..n];
      var last := keys[n];
      assert keys == init + [last];
      assert Distinct(init);
      OfTypeSpec(init, entries, t);
      var r0 := OfType(init, entries, t);
      var r := OfType(keys, entries, t);
      assert last !in init;
      forall i | 0 <= i < |r0| ensures IndexOf(keys, r0[i]) == IndexOf(init, r0[i]) {
        IndexOfPrefix(keys, n, r0[i]);
      }
      if last in entries && HasType(entries[last], t) {
        assert r == r0 + [last];
        IndexOfDistinct(keys, n);
        forall i, j | 0 <= i < j < |r| ensures r[i] != r[j] {
          if j == |r0| { assert r[i] == r0[i] && r0[i] in init; }
          else { assert r[i] == r0[i] && r[j] == r0[j]; }
        }
        forall i, j | 0 <= i < j < |r| ensures IndexOf(keys, r[i]) < IndexOf(keys, r[j]) {
          if j == |r0| { assert r[i] == r0[i]; }
          else { assert r[i] == r0[i] && r[j] == r0[j]; }
        }
      } else {
        assert r == r0;
      }
    }
  }

  /** The lookup returns exactly the resources of type `t`, each once, in document order. */
  lemma ResourcesOfTypeSpec(resources: Dict, t: string)
    requires Valid(resources)
    ensures forall k :: k in ResourcesOfType(resources, t) <==> k in resources.entries && HasType(resources.entries[k], t)
    ensures Distinct(ResourcesOfType(resources, t))
    ensures forall i, j :: 0 <= i < j < |ResourcesOfType(resources, t)| ==>
              IndexOf(resources.keys, ResourcesOfType(resources, t)[i]) < IndexOf(resources.keys, ResourcesOfType(resources, t)[j])
  {
    OfTypeSpec(resources.keys, resources.entries, t);
  }

  /** The first name returned is the first resource of type `t` in document order. */
  lemma FirstOfType(resources: Dict, t: string)
    requires Valid(resources) && ResourcesOfType(resources, t) != []
    ensures var first := ResourcesOfType(resources, t)[0];
            && first in resources.entries && HasType(resources.entries[first], t)
            && forall j :: 0 <= j < IndexOf(resources.keys, first) ==> !HasType(resources.entries[resources.keys[j]], t)
  {
    ResourcesOfTypeSpec(resources, t);
    forall j | 0 <= j < IndexOf(resources.keys, ResourcesOfType(resources, t)[0])
      ensures !HasType(resources.entries[resources.keys[j]], t)
    {
      IndexOfDistinct(resources.keys, j);
    }
  }

  /** Overwriting an existing resource with a value that is of type `t` exactly when
      the old one was leaves the lookup unchanged. */
  lemma {:induction false} OfTypePut(keys: seq<string>, entries: map<string, Json>, k: string, v: Json, t: string)
    requires k in keys
    requires Distinct(keys)
    requires k in entries && HasType(entries[k], t) == HasType(v, t)
    ensures OfType(keys, entries[k := v], t) == OfType(keys, entries, t)
    decreases |keys|
  {
    if keys != [] {
      var n := |keys| - 1;
      if keys[n] == k {
        assert k !in keys[..n];
        OfTypeAbsent(keys[..n], entries, k, v, t);
      } else {
        assert k in keys[..n];
        assert Distinct(keys[..n]);
        OfTypePut(keys[..n], entries, k, v, t);
      }
    }
  }

  /** Storing under a name outside `keys` does not change the lookup over `keys`. */
  lemma {:induction false} OfTypeAbsent(keys: seq<string>, entries: map<string, Json>, k: string, v: Json, t: string)
    requires k !in keys
    ensures OfType(keys, entries[k := v], t) == OfType(keys, entries, t)
    decreases |keys|
  {
    if keys != [] {
      var n := |keys| - 1;
      assert k !in keys[..n];
      OfTypeAbsent(keys[..n], entries, k, v, t);
    }
  }
}
