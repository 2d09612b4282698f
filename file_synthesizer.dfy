/**
 * `FileSynthesizer.Synthesize`: one credential record per usable credential
 * file of the auth directory, and for a Gemini credential covering several
 * projects the split primary followed by its virtual credentials.
 *
 * Directory listing, file reading and JSON decoding happen before this
 * model starts: each entry arrives with its name, its kind, its joined path,
 * the outcome of `filepath.Rel` and the decoded JSON object, if any.
 */
module FileSynthesizer {
  import opened Wrappers
  import opened Text
  import opened Numbers
  import opened Json
  import opened MetadataInt
  import opened AuthModel
  import opened GeminiVirtual

  /**
   * One directory entry, already read. `contents` is `None` when the file
   * could not be read, was empty or did not decode into a JSON object.
   */
  datatype Entry = Entry(
    name: string,
    isDir: bool,
    fullPath: string,
    relPath: Option<string>,
    contents: Option<Metadata>)

  /** A non-nil `*SynthesisContext`: the auth directory and the clock reading. */
  datatype SynthesisContext = SynthesisContext(authDir: string, now: Time)

  // ---------------------------------------------------------------------
  // One credential file
  // ---------------------------------------------------------------------

  /** The provider: the lower-cased `type`, with "gemini" renamed "gemini-cli". */
  function ProviderFor(fileType: string): string
  {
    var provider := ToLower(fileType);
    if provider == "gemini" then "gemini-cli" else provider
  }

  /** The label: the email when there is one, else the provider. */
  function LabelFor(metadata: Metadata, provider: string): string
  {
    var email := StringAt(metadata, "email");
    if email != "" then email else provider
  }

  /** The id: the path relative to the auth directory, or the full path when that fails or is empty. */
  function IDFor(e: Entry): string
  {
    if e.relPath.Some? && e.relPath.value != "" then e.relPath.value else e.fullPath
  }

  /**
   * The routing prefix: `prefix` trimmed of white space and then of
   * slashes; kept only when something is left and it holds no further slash.
   */
  function CleanPrefix(raw: string): string
  {
    var trimmed := TrimChar(TrimSpace(raw), '/');
    if trimmed != "" && '/' !in trimmed then trimmed else ""
  }

  /** `priority`: present only when the metadata holds it and it reads as an integer. */
  function PriorityOf(metadata: Metadata): Option<Int64>
  {
    if "priority" in metadata && ReadMetadataIntValue(metadata["priority"]).1
    then Some(ReadMetadataIntValue(metadata["priority"]).0)
    else None
  }

  /** `weight`: the value read from the metadata, 1 when it is missing or unreadable. */
  function WeightOf(metadata: Metadata): Int64
  {
    if "weight" in metadata && ReadMetadataIntValue(metadata["weight"]).1
    then ReadMetadataIntValue(metadata["weight"]).0
    else 1
  }

  /** `attrs` with the priority, when valid, and the weight written in decimal. */
  function WithPriorityAndWeight(attrs: map<string, string>, metadata: Metadata): map<string, string>
  {
    var priority := PriorityOf(metadata);
    var attrs := if priority.Some? then attrs["priority" := Itoa(priority.value)] else attrs;
    attrs["weight" := Itoa(WeightOf(metadata))]
  }

  /** The `Auth` literal for a usable file of type `fileType`: attributes `source` and `path` only. */
  function LiteralRecord(id: string, fullPath: string, metadata: Metadata, fileType: string, now: Time): AuthRecord
  {
    var provider := ProviderFor(fileType);
    var disabled := BoolAt(metadata, "disabled");
    AuthRecord(
      id := id,
      provider := provider,
      displayLabel := LabelFor(metadata, provider),
      prefix := CleanPrefix(StringAt(metadata, "prefix")),
      status := if disabled then Disabled else Active,
      disabled := disabled,
      attributes := map["source" := fullPath, "path" := fullPath],
      proxyURL := StringAt(metadata, "proxy_url"),
      metadata := metadata,
      createdAt := now,
      updatedAt := now,
      runtime := NoRuntime)
  }

  /** The record built for a usable file of type `fileType`: the literal with priority and weight added. */
  function FileRecord(id: string, fullPath: string, metadata: Metadata, fileType: string, now: Time): AuthRecord
  {
    var r := LiteralRecord(id, fullPath, metadata, fileType, now);
    r.(attributes := WithPriorityAndWeight(r.attributes, metadata))
  }

  /**
   * The credential for one entry, or `None` when the entry is skipped: a
   * directory, a name not ending in ".json" in any case, an unreadable or
   * undecodable file, or no string `type`.
   */
  function FileAuth(e: Entry, now: Time): Option<AuthRecord>
  {
    if e.isDir || !HasSuffix(ToLower(e.name), ".json") || e.contents.None? then None
    else
      var fileType := StringAt(e.contents.value, "type");
      if fileType == "" then None else Some(FileRecord(IDFor(e), e.fullPath, e.contents.value, fileType, now))
  }

  /**
   * What a file credential contributes to the output: itself, or for a
   * "gemini-cli" credential with several projects the split primary
   * followed by its virtual credentials.
   */
  function Emitted(a: AuthRecord): seq<AuthRecord>
  {
    if a.provider == "gemini-cli" then
      var split := SplitOutcome(a, Some(a.metadata));
      [split.0] + split.1
    else [a]
  }

  /** What one entry contributes to the output: nothing when it is skipped. */
  function EntryAuths(e: Entry, now: Time): seq<AuthRecord>
  {
    match FileAuth(e, now)
    case None => []
    case Some(a) => Emitted(a)
  }

  /** `f` applied to every element, in order. */
  function MapSeq<A, B>(f: A -> B, xs: seq<A>): (ys: seq<B>)
    ensures |ys| == |xs|
  {
    seq(|xs|, i requires 0 <= i < |xs| => f(xs[i]))
  }

  /** What each entry contributes, entry by entry. */
  function Contributions(entries: seq<Entry>, now: Time): seq<seq<AuthRecord>>
  {
    MapSeq(e => EntryAuths(e, now), entries)
  }

  /** The parts one after the other. */
  function Concat<T>(parts: seq<seq<T>>): seq<T>
  {
    if parts == [] then [] else Concat(parts[..|parts| - 1]) + parts[|parts| - 1]
  }

  /** The contributions of the entries, in directory order. */
  function AllEntries(entries: seq<Entry>, now: Time): seq<AuthRecord>
  {
    Concat(Contributions(entries, now))
  }

  /**
   * What `Synthesize` returns: nothing without a context, without an auth
   * directory or when the directory cannot be listed (`listing` is `None`).
   */
  function SynthesizeSpec(ctx: Option<SynthesisContext>, listing: Option<seq<Entry>>): seq<AuthRecord>
  {
    if ctx.None? || ctx.value.authDir == "" || listing.None? then []
    else AllEntries(listing.value, ctx.value.now)
  }

  // ---------------------------------------------------------------------
  // Properties
  // ---------------------------------------------------------------------

  /**
   * The provider is in lower case, never "gemini", empty only for an empty
   * type, and depends on the type only through its lower case; it is
   * "gemini-cli" exactly for the types "gemini" and "gemini-cli" in any case.
   */
  lemma ProviderFacts(fileType: string)
    ensures ToLower(ProviderFor(fileType)) == ProviderFor(fileType)
    ensures ProviderFor(fileType) != "gemini"
    ensures ProviderFor(fileType) == "" <==> fileType == ""
    ensures ProviderFor(ToLower(fileType)) == ProviderFor(fileType)
    ensures ProviderFor(fileType) == "gemini-cli" <==> ToLower(fileType) == "gemini" || ToLower(fileType) == "gemini-cli"
  {
    ToLowerIdempotent(fileType);
    ToLowerUnchanged("gemini-cli");
  }

  /** Whether an entry is used depends on its name only through the name's lower case. */
  lemma NameCaseIgnored(e: Entry, now: Time)
    ensures FileAuth(e.(name := ToLower(e.name)), now).Some? == FileAuth(e, now).Some?
  {
    ToLowerIdempotent(e.name);
  }

  /** A kept prefix holds no slash; one already free of slashes and outer white space is kept as it is. */
  lemma CleanPrefixFacts(raw: string)
    ensures CleanPrefix(raw) == "" || '/' !in CleanPrefix(raw)
    ensures raw != "" && Trimmed(raw) && '/' !in raw ==> CleanPrefix(raw) == raw
  {
    if raw != "" && Trimmed(raw) && '/' !in raw {
      TrimSpaceFacts(raw);
      assert raw[0] in raw && raw[|raw| - 1] in raw;
      assert TrimLeftChar(raw, '/') == raw;
      assert TrimRightChar(raw, '/') == raw;
    }
  }

  /**
   * The priority and weight attributes: `priority` is written exactly when
   * the metadata holds a readable integer under that key, and reads back as
   * that integer; `weight` is always written, reads back as the integer
   * under that key when it is readable and is "1" otherwise; every other
   * attribute is left alone.
   */
  lemma PriorityAndWeight(attrs: map<string, string>, metadata: Metadata)
    ensures var r := WithPriorityAndWeight(attrs, metadata);
      && r.Keys == attrs.Keys + {"weight"} + (if PriorityOf(metadata).Some? then {"priority"} else {})
      && (forall k :: k in attrs && k != "priority" && k != "weight" ==> r[k] == attrs[k])
      && ("priority" in metadata && ReadMetadataIntValue(metadata["priority"]).1 ==>
            ParseInt(r["priority"]) == Some(ReadMetadataIntValue(metadata["priority"]).0))
      && ("weight" in metadata && ReadMetadataIntValue(metadata["weight"]).1 ==>
            ParseInt(r["weight"]) == Some(ReadMetadataIntValue(metadata["weight"]).0))
      && (!("weight" in metadata && ReadMetadataIntValue(metadata["weight"]).1) ==> r["weight"] == "1")
  {
    var priority := PriorityOf(metadata);
    if priority.Some? {
      ParseIntItoa(priority.value);
    }
    ParseIntItoa(WeightOf(metadata));
    assert Itoa(1) == "1";
  }

  /** An entry is used exactly when it is a file named "*.json" in any case, decoded, with a string `type`. */
  lemma FileAuthUsed(e: Entry, now: Time)
    ensures FileAuth(e, now).Some? <==>
      !e.isDir && HasSuffix(ToLower(e.name), ".json") && e.contents.Some? && StringAt(e.contents.value, "type") != ""
    ensures FileAuth(e, now).Some? ==>
      FileAuth(e, now).value == FileRecord(IDFor(e), e.fullPath, e.contents.value, StringAt(e.contents.value, "type"), now)
  {
  }

  /**
   * The credential of a used file: keyed by `id`, with a lower-case
   * provider, a non-empty label (the email, else the provider), a prefix
   * free of slashes, the status following `disabled`, its full path as
   * `source` and `path`, the decoded metadata as it is, and both
   * timestamps at `now`.
   */
  lemma FileRecordFields(id: string, fullPath: string, m: Metadata, fileType: string, now: Time)
    requires fileType != ""
    ensures var a := FileRecord(id, fullPath, m, fileType, now);
      && a.id == id && a.metadata == m
      && a.provider == ProviderFor(fileType) && a.provider != ""
      && ToLower(a.provider) == a.provider && a.provider != "gemini"
      && a.displayLabel != ""
      && (StringAt(m, "email") != "" ==> a.displayLabel == StringAt(m, "email"))
      && (StringAt(m, "email") == "" ==> a.displayLabel == a.provider)
      && (a.prefix == "" || '/' !in a.prefix)
      && (a.disabled <==> "disabled" in m && m["disabled"] == Bool(true))
      && (a.status == Disabled <==> a.disabled) && (a.status == Active <==> !a.disabled)
      && "source" in a.attributes && a.attributes["source"] == fullPath
      && "path" in a.attributes && a.attributes["path"] == fullPath
      && a.attributes == WithPriorityAndWeight(map["source" := fullPath, "path" := fullPath], m)
      && a.proxyURL == StringAt(m, "proxy_url")
      && a.createdAt == now && a.updatedAt == now && a.runtime == NoRuntime
  {
    ProviderFacts(fileType);
    CleanPrefixFacts(StringAt(m, "prefix"));
    PriorityAndWeight(map["source" := fullPath, "path" := fullPath], m);
  }

  /** A credential other than a "gemini-cli" one naming two or more projects is emitted alone and unchanged. */
  lemma EmittedAlone(a: AuthRecord)
    requires a.provider != "gemini-cli" || |ProjectIDs(a.metadata)| < 2
    ensures Emitted(a) == [a]
  {
  }

  /**
   * A "gemini-cli" credential naming two or more projects is emitted as its
   * split primary, disabled and listing its projects, followed by one
   * active virtual credential per listed project, in the listed order,
   * each pointing back at the primary.
   */
  lemma EmittedGroup(a: AuthRecord)
    requires a.provider == "gemini-cli" && |ProjectIDs(a.metadata)| >= 2
    ensures var out := Emitted(a);
      && |out| >= 1 && out[0].id == a.id && out[0].disabled && out[0].status == Disabled
      && "virtual_children" in out[0].attributes
      && var children := Split(out[0].attributes["virtual_children"], ',');
      && children == ProjectIDs(a.metadata)
      && |out| == |children| + 1
      && forall k :: 0 <= k < |children| ==>
           && !out[k + 1].disabled
           && "gemini_virtual_parent" in out[k + 1].attributes
           && out[k + 1].attributes["gemini_virtual_parent"] == a.id
           && "gemini_virtual_project" in out[k + 1].attributes
           && out[k + 1].attributes["gemini_virtual_project"] == children[k]
  {
    var m := a.metadata;
    var projects := ProjectIDs(m);
    var q := SplitPrimary(a, m, projects);
    var virtuals := VirtualsFor(q, m, projects);
    assert Emitted(a) == [q] + virtuals;
    SplitPrimaryFields(a, m, projects);
    SplitPrimaryChildren(a, m);
    forall k | 0 <= k < |projects|
      ensures && !virtuals[k].disabled
              && "gemini_virtual_parent" in virtuals[k].attributes
              && virtuals[k].attributes["gemini_virtual_parent"] == a.id
              && "gemini_virtual_project" in virtuals[k].attributes
              && virtuals[k].attributes["gemini_virtual_project"] == projects[k]
    {
      VirtualFields(q, m, projects[k]);
    }
  }

  /** Concatenating two lists of parts concatenates their concatenations. */
  lemma {:induction false} ConcatAppend<T>(xs: seq<seq<T>>, ys: seq<seq<T>>)
    ensures Concat(xs + ys) == Concat(xs) + Concat(ys)
    decreases |ys|
  {
    if ys == [] {
      assert xs + ys == xs;
    } else {
      var n := |ys| - 1;
      assert (xs + ys)[..|xs + ys| - 1] == xs + ys[..n];
      ConcatAppend(xs, ys[..n]);
    }
  }

  /** Mapping distributes over concatenation. */
  lemma MapSeqAppend<A, B>(f: A -> B, xs: seq<A>, ys: seq<A>)
    ensures MapSeq(f, xs + ys) == MapSeq(f, xs) + MapSeq(f, ys)
  {
    var whole := MapSeq(f, xs + ys);
    var parts := MapSeq(f, xs) + MapSeq(f, ys);
    forall k | 0 <= k < |whole| ensures whole[k] == parts[k] {
      if k >= |xs| {
        assert (xs + ys)[k] == ys[k - |xs|];
      }
    }
  }

  /** The output for a listing is the outputs for its parts, one after the other. */
  lemma AllEntriesAppend(xs: seq<Entry>, ys: seq<Entry>, now: Time)
    ensures AllEntries(xs + ys, now) == AllEntries(xs, now) + AllEntries(ys, now)
  {
    var f := e => EntryAuths(e, now);
    MapSeqAppend(f, xs, ys);
    ConcatAppend(MapSeq(f, xs), MapSeq(f, ys));
  }

  /** One more entry appends its own contribution. */
  lemma AllEntriesSnoc(entries: seq<Entry>, i: nat, now: Time)
    requires i < |entries|
    ensures AllEntries(entries[..i + 1], now) == AllEntries(entries[..i], now) + EntryAuths(entries[i], now)
  {
    var f := e => EntryAuths(e, now);
    assert entries[..i + 1] == entries[..i] + [entries[i]];
    MapSeqAppend(f, entries[..i], [entries[i]]);
    ConcatAppend(MapSeq(f, entries[..i]), MapSeq(f, [entries[i]]));
    assert MapSeq(f, [entries[i]]) == [EntryAuths(entries[i], now)];
    assert Concat([EntryAuths(entries[i], now)]) == EntryAuths(entries[i], now) by {
      assert [EntryAuths(entries[i], now)][..0] == [];
    }
  }

  // ---------------------------------------------------------------------
  // In place
  // ---------------------------------------------------------------------

  /**
   * The `Auth` literal of the directory loop, before the `priority` and
   * `weight` attributes are added.
   */
  method NewFileAuth(e: Entry, metadata: Metadata, fileType: string, now: Time) returns (a: Auth)
    ensures fresh(a)
    ensures a.Record() == LiteralRecord(IDFor(e), e.fullPath, metadata, fileType, now)
  {
    var provider := ToLower(fileType);
    if provider == "gemini" {
      provider := "gemini-cli";
    }
    var displayLabel := provider;
    var email := StringAt(metadata, "email");
    if email != "" {
      displayLabel := email;
    }
    var id := e.fullPath;
    if e.relPath.Some? && e.relPath.value != "" {
      id := e.relPath.value;
    }
    var proxyURL := StringAt(metadata, "proxy_url");
    var prefix := "";
    if "prefix" in metadata && metadata["prefix"].Str? {
      var trimmed := TrimSpace(metadata["prefix"].s);
      trimmed := TrimChar(trimmed, '/');
      if trimmed != "" && '/' !in trimmed {
        prefix := trimmed;
      }
    }
    var disabled := BoolAt(metadata, "disabled");
    var status := Active;
    if disabled {
      status := Disabled;
    }
    assert id == IDFor(e);
    assert provider == ProviderFor(fileType);
    assert displayLabel == LabelFor(metadata, provider);
    assert prefix == CleanPrefix(StringAt(metadata, "prefix"));
    assert status == (if disabled then Disabled else Active);
    a := new Auth(AuthRecord(
      id := id,
      provider := provider,
      displayLabel := displayLabel,
      prefix := prefix,
      status := status,
      disabled := disabled,
      attributes := map["source" := e.fullPath, "path" := e.fullPath],
      proxyURL := proxyURL,
      metadata := metadata,
      createdAt := now,
      updatedAt := now,
      runtime := NoRuntime));
  }

  /** The `priority` and `weight` attributes written onto a new file credential. */
  method SetPriorityAndWeight(a: Auth, metadata: Metadata)
    modifies a
    ensures a.Record() == old(a.Record()).(attributes := WithPriorityAndWeight(old(a.attributes), metadata))
  {
    if "priority" in metadata {
      var (priority, ok) := ReadMetadataIntValue(metadata["priority"]);
      if ok {
        a.attributes := a.attributes["priority" := Itoa(priority)];
      }
    }
    var weight: Int64 := 1;
    if "weight" in metadata {
      var (v, ok) := ReadMetadataIntValue(metadata["weight"]);
      if ok {
        weight := v;
      }
    }
    a.attributes := a.attributes["weight" := Itoa(weight)];
  }

  /**
   * The end of the loop body: a "gemini-cli" credential is split when it
   * covers several projects; the credential and its virtuals are emitted.
   */
  method Emit(a: Auth, now: Time) returns (auths: seq<Auth>)
    modifies a
    ensures Records(auths) == Emitted(old(a.Record()))
    ensures forall v :: v in auths ==> v == a || fresh(v)
  {
    ghost var before := a.Record();
    if a.provider == "gemini-cli" {
      var virtuals := SynthesizeGeminiVirtualAuths(a, Some(a.metadata), now);
      ghost var split := SplitOutcome(before, Some(before.metadata));
      assert a.Record() == split.0 && Records(virtuals) == split.1;
      RecordsOne(a);
      if |virtuals| > 0 {
        RecordsAppend([a], virtuals);
        auths := [a] + virtuals;
        assert Records(auths) == [split.0] + split.1;
        return;
      }
      assert a.Record() == before;
    }
    RecordsOne(a);
    auths := [a];
  }

  /** One iteration of the directory loop: what entry `e` appends to the output. */
  method EntryStep(e: Entry, now: Time) returns (auths: seq<Auth>)
    ensures Records(auths) == EntryAuths(e, now)
    ensures forall a :: a in auths ==> fresh(a)
  {
    if e.isDir || !HasSuffix(ToLower(e.name), ".json") || e.contents.None? {
      return [];
    }
    var metadata := e.contents.value;
    var fileType := StringAt(metadata, "type");
    if fileType == "" {
      return [];
    }
    ghost var r := FileRecord(IDFor(e), e.fullPath, metadata, fileType, now);
    assert EntryAuths(e, now) == Emitted(r);
    var a := NewFileAuth(e, metadata, fileType, now);
    SetPriorityAndWeight(a, metadata);
    assert a.Record() == r;
    auths := Emit(a, now);
  }

  /** `Synthesize`: the credentials of all usable entries, in directory order. */
  method Synthesize(ctx: Option<SynthesisContext>, listing: Option<seq<Entry>>) returns (out: seq<Auth>)
    ensures Records(out) == SynthesizeSpec(ctx, listing)
    ensures forall a :: a in out ==> fresh(a)
  {
    out := [];
    if ctx.None? || ctx.value.authDir == "" || listing.None? {
      return;
    }
    var entries := listing.value;
    var now := ctx.value.now;
    for i := 0 to |entries|
      invariant Records(out) == AllEntries(entries[..i], now)
      invariant forall a :: a in out ==> fresh(a)
    {
      var step := EntryStep(entries[i], now);
      AllEntriesSnoc(entries, i, now);
      RecordsAppend(out, step);
      out := out + step;
    }
    assert entries[..|entries|] == entries;
  }
}
