/** One run of the helper: load, normalise, then either list, or add (with the
    payload files copied in afterwards) and link, and write. A fatal error at any
    step ends the run before the write. */
module Command {
  import opened Wrappers
  import opened Json
  import opened OrderedDict
  import opened Templates
  import opened Document
  import opened Add
  import opened Link
  import opened Payload

  /** The options after parsing. `-add` and `-link` take one or more words. */
  datatype Args = Args(
    add: Option<seq<string>>,
    list: bool,
    link: Option<seq<string>>,
    desc: Option<string>,
    sg: Option<string>,
    lt: Option<string>,
    subnet: Option<string>)

  /** The option parser demands at least one word after `-add` and after `-link`. */
  predicate Parsed(args: Args) {
    && (args.add.Some? ==> |args.add.value| >= 1)
    && (args.link.Some? ==> |args.link.value| >= 1)
  }

  /** How a run ends: the listing (exit 0, nothing written), the document written
      back to the template file, or a fatal error (exit 1, nothing written). */
  datatype Outcome = Listed | Saved(doc: Document) | Failed(error: Error)

  /** `-add`, then the payload files, when `-add` is given. */
  function AddStep(doc: Document, args: Args, py: map<string, seq<string>>, sh: map<string, seq<string>>): (r: Result<Document, Error>)
    requires WellFormed(doc) && Parsed(args)
    ensures args.add.None? ==> r == Ok(doc)
    ensures r.Ok? ==> WellFormed(r.value) && r.value.header == doc.header
  {
    if args.add.None? then Ok(doc)
    else
      var added :- Add.Add(doc, args.add.value, args.sg, args.lt, args.subnet);
      Inline(added, py, sh)
  }

  /** `-link`, when given. */
  function LinkStep(doc: Document, args: Args): (r: Result<Document, Error>)
    requires WellFormed(doc) && Parsed(args)
    ensures args.link.None? ==> r == Ok(doc)
    ensures r.Ok? ==> WellFormed(r.value) && r.value.header == doc.header
  {
    if args.link.None? then Ok(doc) else Link.Link(doc, args.link.value)
  }

  /** The whole run on the template `f` as loaded (a missing file loads as `{}`);
      `py` and `sh` are the payload files present in the working directory. */
  function Run(f: Loaded, args: Args, py: map<string, seq<string>>, sh: map<string, seq<string>>): (o: Outcome)
    requires LoadedWellFormed(f) && Parsed(args)
    ensures o.Saved? ==> WellFormed(o.doc) && o.doc.header == NormaliseHeader(f.header, args.desc)
  {
    var doc := Normalise(f, args.desc);
    if args.list then Listed
    else
      match AddStep(doc, args, py, sh)
      case Err(e) => Failed(e)
      case Ok(added) =>
        match LinkStep(added, args)
        case Err(e) => Failed(e)
        case Ok(linked) => Saved(linked)
  }

  /** With neither `-add`, `-link` nor `-list` the run only normalises. */
  lemma RunOnlyNormalises(f: Loaded, args: Args, py: map<string, seq<string>>, sh: map<string, seq<string>>)
    requires LoadedWellFormed(f) && Parsed(args)
    requires args.add.None? && args.link.None? && !args.list
    ensures Run(f, args, py, sh) == Saved(Normalise(f, args.desc))
  {
  }

  /** `-list` wins over everything else and writes nothing. */
  lemma RunLists(f: Loaded, args: Args, py: map<string, seq<string>>, sh: map<string, seq<string>>)
    requires LoadedWellFormed(f) && Parsed(args) && args.list
    ensures Run(f, args, py, sh) == Listed
  {
  }

  /** An unknown type after `-add` is fatal and nothing is written. */
  lemma RunUnknownType(f: Loaded, args: Args, py: map<string, seq<string>>, sh: map<string, seq<string>>)
    requires LoadedWellFormed(f) && Parsed(args) && !args.list
    requires args.add.Some? && |args.add.value| >= 2 && ParseKind(args.add.value[0]).None?
    ensures Run(f, args, py, sh) == Failed(UnknownResourceType(args.add.value[0]))
  {
  }

  /** A wrong link direction is fatal and nothing is written. */
  lemma RunUnsupportedLink(f: Loaded, args: Args, py: map<string, seq<string>>, sh: map<string, seq<string>>)
    requires LoadedWellFormed(f) && Parsed(args) && !args.list && args.add.None? && args.link.Some?
    requires var res := Normalise(f, args.desc).resources.entries; var link := args.link.value;
      link[0] in res && !HasType(res[link[0]], BucketType)
    ensures Run(f, args, py, sh) == Failed(UnsupportedLink)
  {
    LinkOutcome(Normalise(f, args.desc), args.link.value);
  }

  /** A written document, read back in, normalises to itself when no description
      is given or the one given is the one it already has. */
  lemma NormaliseSaved(d: Document, again: Option<string>)
    requires WellFormed(d) && FormatVersionKey in d.header.entries && DescriptionKey in d.header.entries
    requires Given(again) ==> d.header.entries[DescriptionKey] == Str(again.value)
    ensures Normalise(Reloaded(d), again) == d
  {
    if Given(again) {
      PutUnchanged(d.header, DescriptionKey, Str(again.value));
    }
  }

  /** Running the same `-link` command line again (with the same `-desc`, if any)
      on the file a link run wrote writes the same file. */
  lemma RunLinkTwice(f: Loaded, args: Args, py: map<string, seq<string>>, sh: map<string, seq<string>>)
    requires LoadedWellFormed(f) && Parsed(args) && !args.list && args.add.None?
    requires Run(f, args, py, sh).Saved?
    ensures LoadedWellFormed(Reloaded(Run(f, args, py, sh).doc))
    ensures Run(Reloaded(Run(f, args, py, sh).doc), args, py, sh) == Run(f, args, py, sh)
  {
    var doc := Normalise(f, args.desc);
    var d := Run(f, args, py, sh).doc;
    NormaliseHeaderKeys(f.header, args.desc);
    NormaliseHeaderValues(f.header, args.desc);
    NormaliseSaved(d, args.desc);
    if args.link.Some? {
      LinkIdempotent(doc, args.link.value);
    }
  }
}
