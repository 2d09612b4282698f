/**
 * Splitting one Gemini credential that covers several Google Cloud projects
 * into a disabled primary and one virtual credential per project
 * (`SynthesizeGeminiVirtualAuths`, `splitGeminiProjectIDs`,
 * `buildGeminiVirtualID`).
 */
module GeminiVirtual {
  import opened Wrappers
  import opened Text
  import opened Json
  import opened AuthModel

  // ---------------------------------------------------------------------
  // Project list
  // ---------------------------------------------------------------------

  /** Every piece trimmed of white space. */
  function TrimAll(parts: seq<string>): (ts: seq<string>)
    ensures |ts| == |parts|
  {
    if parts == [] then [] else TrimAll(parts[..|parts| - 1]) + [TrimSpace(parts[|parts| - 1])]
  }

  /** Piece `i` of `TrimAll(parts)` is piece `i` of `parts`, trimmed. */
  lemma {:induction false} TrimAllAt(parts: seq<string>, i: nat)
    requires i < |parts|
    ensures TrimAll(parts)[i] == TrimSpace(parts[i])
    decreases |parts|
  {
    var n := |parts| - 1;
    if i < n {
      TrimAllAt(parts[..n], i);
    }
  }

  /**
   * The non-empty ids of `ids` with repeats dropped, each kept at its first
   * occurrence.
   */
  function FirstSeen(ids: seq<string>): seq<string>
  {
    if ids == [] then []
    else
      var earlier := FirstSeen(ids[..|ids| - 1]);
      var id := ids[|ids| - 1];
      if id == "" || id in earlier then earlier else earlier + [id]
  }

  /**
   * `FirstSeen(ids)` holds exactly the non-empty ids of `ids`, each once.
   */
  lemma {:induction false} FirstSeenFacts(ids: seq<string>)
    ensures forall x :: x in FirstSeen(ids) <==> x != "" && x in ids
    ensures forall i, j :: 0 <= i < j < |FirstSeen(ids)| ==> FirstSeen(ids)[i] != FirstSeen(ids)[j]
    decreases |ids|
  {
    if ids != [] {
      var n := |ids| - 1;
      FirstSeenFacts(ids[..n]);
      assert ids == ids[..n] + [ids[n]];
    }
  }

  /** Index of the first occurrence of `x` in `ids`. */
  function FirstIndex(ids: seq<string>, x: string): (k: nat)
    requires x in ids
    ensures k < |ids| && ids[k] == x && x !in ids[..k]
  {
    if ids[0] == x then 0 else 1 + FirstIndex(ids[1..], x)
  }

  lemma {:induction false} FirstIndexOfPrefix(ids: seq<string>, n: nat, x: string)
    requires n <= |ids| && x in ids[..n]
    ensures FirstIndex(ids, x) == FirstIndex(ids[..n], x)
    decreases n
  {
    if ids[0] != x {
      assert ids[1..][..n - 1] == ids[..n][1..];
      FirstIndexOfPrefix(ids[1..], n - 1, x);
    }
  }

  /** Every entry of `r` occurs in `ids`, and `r` lists them in the order of their first occurrences there. */
  predicate InFirstOccurrenceOrder(ids: seq<string>, r: seq<string>)
  {
    && (forall x :: x in r ==> x in ids)
    && (forall i, j :: 0 <= i < j < |r| ==> FirstIndex(ids, r[i]) < FirstIndex(ids, r[j]))
  }

  /** An order by first occurrence in a prefix of `ids` is one in `ids`, and it ends before the prefix does. */
  lemma OrderInPrefix(ids: seq<string>, n: nat, r: seq<string>)
    requires n <= |ids| && InFirstOccurrenceOrder(ids[..n], r)
    ensures InFirstOccurrenceOrder(ids, r)
    ensures forall x :: x in r ==> FirstIndex(ids, x) < n
  {
    forall x | x in r ensures x in ids && FirstIndex(ids, x) == FirstIndex(ids[..n], x) {
      FirstIndexOfPrefix(ids, n, x);
    }
    forall i, j | 0 <= i < j < |r| ensures FirstIndex(ids, r[i]) < FirstIndex(ids, r[j]) {
      assert r[i] in r && r[j] in r;
    }
  }

  /** An id first occurring after all of `r` may be appended to it. */
  lemma OrderAppend(ids: seq<string>, r: seq<string>, id: string)
    requires InFirstOccurrenceOrder(ids, r) && id in ids
    requires forall x :: x in r ==> FirstIndex(ids, x) < FirstIndex(ids, id)
    ensures InFirstOccurrenceOrder(ids, r + [id])
  {
    var r' := r + [id];
    forall i, j | 0 <= i < j < |r'| ensures FirstIndex(ids, r'[i]) < FirstIndex(ids, r'[j]) {
      assert r'[i] == r[i] && r[i] in r;
      if j < |r| {
        assert r'[j] == r[j];
      }
    }
  }

  /** `FirstSeen` lists the ids in the order of their first occurrences. */
  lemma {:induction false} FirstSeenOrder(ids: seq<string>)
    ensures InFirstOccurrenceOrder(ids, FirstSeen(ids))
    decreases |ids|
  {
    if ids != [] {
      var n := |ids| - 1;
      var front := ids[..n];
      var earlier := FirstSeen(front);
      var id := ids[n];
      FirstSeenOrder(front);
      OrderInPrefix(ids, n, earlier);
      assert ids == front + [id];
      if id != "" && id !in earlier {
        FirstSeenFacts(front);
        assert forall t :: 0 <= t < n ==> ids[t] != id by {
          forall t | 0 <= t < n ensures ids[t] != id {
            assert ids[t] == front[t];
          }
        }
        assert FirstIndex(ids, id) == n;
        OrderAppend(ids, earlier, id);
      }
    }
  }

  /**
   * What `splitGeminiProjectIDs` returns: the comma-separated `project_id`
   * string, each piece trimmed, empty pieces and repeats dropped, in the
   * order pieces first appear; nothing for a missing or blank `project_id`.
   */
  function ProjectIDs(metadata: Metadata): (projects: seq<string>)
    ensures AllSpace(StringAt(metadata, "project_id")) ==> projects == []
  {
    TrimSpaceFacts(StringAt(metadata, "project_id"));
    var trimmed := TrimSpace(StringAt(metadata, "project_id"));
    if trimmed == "" then [] else FirstSeen(TrimAll(Split(trimmed, ',')))
  }

  /** The comma-separated pieces of a non-blank `project_id`, trimmed. */
  function ProjectPieces(metadata: Metadata): seq<string>
  {
    TrimAll(Split(TrimSpace(StringAt(metadata, "project_id")), ','))
  }

  /** No empty entry, no repeat, no white space at either end of an entry, no comma inside one. */
  predicate WellFormedProjects(projects: seq<string>)
  {
    && (forall i :: 0 <= i < |projects| ==> projects[i] != "" && Trimmed(projects[i]) && ',' !in projects[i])
    && (forall i, j :: 0 <= i < j < |projects| ==> projects[i] != projects[j])
  }

  /** Every project list `splitGeminiProjectIDs` returns is well formed. */
  lemma {:induction false} ProjectIDsWellFormed(metadata: Metadata)
    ensures WellFormedProjects(ProjectIDs(metadata))
  {
    var trimmed := TrimSpace(StringAt(metadata, "project_id"));
    if trimmed != "" {
      var parts := Split(trimmed, ',');
      var pieces := TrimAll(parts);
      var projects := FirstSeen(pieces);
      assert projects == ProjectIDs(metadata);
      SplitFacts(trimmed, ',');
      FirstSeenFacts(pieces);
      forall i | 0 <= i < |projects| ensures projects[i] != "" && Trimmed(projects[i]) && ',' !in projects[i] {
        assert projects[i] in projects;
        var k :| 0 <= k < |pieces| && pieces[k] == projects[i];
        TrimAllAt(parts, k);
        TrimSpaceFacts(parts[k]);
        TrimSpaceKeepsAbsent(parts[k], ',');
      }
    }
  }

  /**
   * A non-blank `project_id` yields exactly its non-empty trimmed pieces, in
   * the order of their first occurrence.
   */
  lemma {:induction false} ProjectIDsFromPieces(metadata: Metadata)
    requires !AllSpace(StringAt(metadata, "project_id"))
    ensures forall x :: x in ProjectIDs(metadata) <==> x != "" && x in ProjectPieces(metadata)
    ensures InFirstOccurrenceOrder(ProjectPieces(metadata), ProjectIDs(metadata))
  {
    var pieces := ProjectPieces(metadata);
    TrimSpaceFacts(StringAt(metadata, "project_id"));
    assert ProjectIDs(metadata) == FirstSeen(pieces);
    FirstSeenFacts(pieces);
    FirstSeenOrder(pieces);
  }

  /** `splitGeminiProjectIDs`: one pass over the pieces with a set of ids already seen. */
  method SplitGeminiProjectIDs(metadata: Metadata) returns (result: seq<string>)
    ensures result == ProjectIDs(metadata)
  {
    var raw := StringAt(metadata, "project_id");
    var trimmed := TrimSpace(raw);
    if trimmed == "" {
      return [];
    }
    var parts := Split(trimmed, ',');
    result := [];
    var seen: set<string> := {};
    for i := 0 to |parts|
      invariant result == FirstSeen(TrimAll(parts[..i]))
      invariant forall x :: x in seen <==> x in result
    {
      var id := TrimSpace(parts[i]);
      ghost var pieces := TrimAll(parts[..i + 1]);
      assert parts[..i + 1][..i] == parts[..i];
      assert pieces[..i] == TrimAll(parts[..i]) && pieces[i] == id;
      if id == "" {
        continue;
      }
      if id in seen {
        continue;
      }
      seen := seen + {id};
      result := result + [id];
    }
    assert parts[..|parts|] == parts;
  }

  // ---------------------------------------------------------------------
  // Virtual credential ids
  // ---------------------------------------------------------------------

  /** The code points the id replacer rewrites: slash, backslash and space. */
  predicate Unsafe(c: char)
  {
    c == '/' || c == '\\' || c == ' '
  }

  /** `strings.NewReplacer("/", "_", "\\", "_", " ", "_").Replace(s)`. */
  function Sanitize(s: string): (r: string)
    ensures |r| == |s|
    ensures forall i :: 0 <= i < |s| ==> r[i] == (if Unsafe(s[i]) then '_' else s[i])
  {
    if s == [] then [] else [if Unsafe(s[0]) then '_' else s[0]] + Sanitize(s[1..])
  }

  /** The project part of a virtual id before sanitising: trimmed, "project" when blank. */
  function ProjectSegment(projectID: string): string
  {
    var project := TrimSpace(projectID);
    if project == "" then "project" else project
  }

  /**
   * `buildGeminiVirtualID`: the base id, "::", then the trimmed project id
   * (or "project" when blank) with slash, backslash and space replaced by
   * an underscore.
   */
  function BuildGeminiVirtualID(baseID: string, projectID: string): string
  {
    baseID + "::" + Sanitize(ProjectSegment(projectID))
  }

  /**
   * A virtual id starts with the base id and "::", and the rest is never
   * empty and free of slash, backslash and space.
   */
  lemma VirtualIDShape(baseID: string, projectID: string)
    ensures var id := BuildGeminiVirtualID(baseID, projectID);
      && |id| > |baseID| + 2
      && id[..|baseID|] == baseID && id[|baseID|..|baseID| + 2] == "::"
      && forall i :: |baseID| + 2 <= i < |id| ==> !Unsafe(id[i])
  {
    var id := BuildGeminiVirtualID(baseID, projectID);
    var suffix := Sanitize(ProjectSegment(projectID));
    assert id == baseID + "::" + suffix;
    forall i | |baseID| + 2 <= i < |id| ensures !Unsafe(id[i]) {
      assert id[i] == suffix[i - |baseID| - 2];
    }
  }

  /** A trimmed project id free of the three rewritten code points is used as it is. */
  lemma VirtualIDOfSafeProject(baseID: string, projectID: string)
    requires projectID != "" && Trimmed(projectID)
    requires forall c :: c in projectID ==> !Unsafe(c)
    ensures BuildGeminiVirtualID(baseID, projectID) == baseID + "::" + projectID
  {
    assert Sanitize(projectID) == projectID;
  }

  /**
   * Two projects of one credential get the same virtual id exactly when
   * their trimmed, sanitised segments agree, so the id is not injective in
   * the project id ("p 1" and "p_1" collide).
   */
  lemma VirtualIDCollision(baseID: string, p: string, q: string)
    ensures BuildGeminiVirtualID(baseID, p) == BuildGeminiVirtualID(baseID, q)
        <==> Sanitize(ProjectSegment(p)) == Sanitize(ProjectSegment(q))
  {
    var a := BuildGeminiVirtualID(baseID, p);
    var b := BuildGeminiVirtualID(baseID, q);
    if a == b {
      assert a[|baseID| + 2..] == Sanitize(ProjectSegment(p));
      assert b[|baseID| + 2..] == Sanitize(ProjectSegment(q));
    }
  }

  lemma VirtualIDExampleCollision()
    ensures BuildGeminiVirtualID("auth.json", "p 1") == BuildGeminiVirtualID("auth.json", "p_1")
  {
    assert Trimmed("p 1") && Trimmed("p_1");
    assert Sanitize("p 1") == "p_1" == Sanitize("p_1");
  }

  // ---------------------------------------------------------------------
  // The split, as values
  // ---------------------------------------------------------------------

  /** The primary after the split: disabled, tagged, holding the shared handle. */
  function SplitPrimary(p: AuthRecord, metadata: Metadata, projects: seq<string>): AuthRecord
  {
    p.(disabled := true,
       status := Disabled,
       runtime := SharedCredential(p.id, StringAt(metadata, "email"), metadata, projects),
       attributes := p.attributes["gemini_virtual_primary" := "true"]["virtual_children" := Join(projects, ',')])
  }

  function ProviderOrDefault(p: AuthRecord): string
  {
    if p.provider == "" then "gemini-cli" else p.provider
  }

  function LabelOrDefault(p: AuthRecord): string
  {
    if p.displayLabel == "" then ProviderOrDefault(p) else p.displayLabel
  }

  /** The attributes of the virtual credential for `projectID`. */
  function VirtualAttributes(p: AuthRecord, projectID: string): map<string, string>
  {
    var attrs := map["runtime_only" := "true", "gemini_virtual_parent" := p.id, "gemini_virtual_project" := projectID];
    var source := Attr(p.attributes, "source");
    var attrs := if source != "" then attrs["source" := source] else attrs;
    var path := Attr(p.attributes, "path");
    if path != "" then attrs["path" := path] else attrs
  }

  /**
   * Copy an override into `into` under its underscore key: the underscore
   * spelling wins, the hyphen spelling is the fallback.
   */
  function CopyOverride(metadata: Metadata, underscore: string, hyphen: string, into: Metadata): Metadata
  {
    if underscore in metadata then into[underscore := metadata[underscore]]
    else if hyphen in metadata then into[underscore := metadata[hyphen]]
    else into
  }

  /** The metadata of the virtual credential for `projectID`. */
  function VirtualMetadata(p: AuthRecord, metadata: Metadata, projectID: string): Metadata
  {
    var m := map["email" := Str(StringAt(metadata, "email")), "project_id" := Str(projectID),
                 "virtual" := Bool(true), "virtual_parent_id" := Str(p.id), "type" := Get(metadata, "type")];
    var m := CopyOverride(metadata, "disable_cooling", "disable-cooling", m);
    var m := CopyOverride(metadata, "request_retry", "request-retry", m);
    var proxy := TrimSpace(p.proxyURL);
    if proxy != "" then m["proxy_url" := Str(proxy)] else m
  }

  /** The virtual credential for `projectID`, built from the already split primary `p`. */
  function VirtualRecord(p: AuthRecord, metadata: Metadata, projectID: string): AuthRecord
  {
    AuthRecord(
      id := BuildGeminiVirtualID(p.id, projectID),
      provider := ProviderOrDefault(p),
      displayLabel := LabelOrDefault(p) + " [" + projectID + "]",
      prefix := p.prefix,
      status := Active,
      disabled := false,
      attributes := VirtualAttributes(p, projectID),
      proxyURL := p.proxyURL,
      metadata := VirtualMetadata(p, metadata, projectID),
      createdAt := p.createdAt,
      updatedAt := p.updatedAt,
      runtime := VirtualCredential(projectID, p.runtime))
  }

  /** One virtual credential per project, in project order. */
  function VirtualsFor(primary: AuthRecord, metadata: Metadata, projects: seq<string>): (vs: seq<AuthRecord>)
    ensures |vs| == |projects|
  {
    seq(|projects|, i requires 0 <= i < |projects| => VirtualRecord(primary, metadata, projects[i]))
  }

  /** The virtuals for the first `i + 1` projects extend those for the first `i` by one. */
  lemma VirtualsForPrefix(primary: AuthRecord, metadata: Metadata, projects: seq<string>, i: nat)
    requires i < |projects|
    ensures VirtualsFor(primary, metadata, projects[..i + 1])
         == VirtualsFor(primary, metadata, projects[..i]) + [VirtualRecord(primary, metadata, projects[i])]
  {
    var longer := VirtualsFor(primary, metadata, projects[..i + 1]);
    var shorter := VirtualsFor(primary, metadata, projects[..i]);
    forall k | 0 <= k < i + 1 ensures longer[k] == (shorter + [VirtualRecord(primary, metadata, projects[i])])[k] {
      if k < i {
        assert projects[..i + 1][k] == projects[..i][k];
      }
    }
  }

  /**
   * `SynthesizeGeminiVirtualAuths` as values: the primary afterwards and the
   * virtual credentials returned. Without metadata or without two distinct
   * projects nothing is split and the primary is left as it was.
   */
  function SplitOutcome(p: AuthRecord, metadata: Option<Metadata>): (r: (AuthRecord, seq<AuthRecord>))
    ensures r.1 == [] <==> metadata.None? || |ProjectIDs(metadata.value)| < 2
    ensures r.1 == [] ==> r.0 == p
    ensures r.1 != [] ==> |r.1| == |ProjectIDs(metadata.value)|
  {
    if metadata.None? then (p, [])
    else
      var projects := ProjectIDs(metadata.value);
      if |projects| <= 1 then (p, [])
      else
        var primary := SplitPrimary(p, metadata.value, projects);
        (primary, VirtualsFor(primary, metadata.value, projects))
  }

  /**
   * A split primary is disabled, tagged as a virtual primary, lists its
   * projects joined by commas and holds the shared credential; every other
   * field and every other attribute is as before.
   */
  lemma SplitPrimaryFields(p: AuthRecord, metadata: Metadata, projects: seq<string>)
    ensures var q := SplitPrimary(p, metadata, projects);
      && q.disabled && q.status == Disabled
      && q.attributes["gemini_virtual_primary"] == "true"
      && q.attributes["virtual_children"] == Join(projects, ',')
      && q.runtime == SharedCredential(p.id, StringAt(metadata, "email"), metadata, projects)
      && q.attributes.Keys == p.attributes.Keys + {"gemini_virtual_primary", "virtual_children"}
      && (forall k :: k in p.attributes && k != "gemini_virtual_primary" && k != "virtual_children" ==>
            q.attributes[k] == p.attributes[k])
      && q.(disabled := p.disabled, status := p.status, runtime := p.runtime, attributes := p.attributes) == p
  {
  }

  /** The projects listed on a split primary split back into the project list. */
  lemma {:induction false} SplitPrimaryChildren(p: AuthRecord, metadata: Metadata)
    requires |ProjectIDs(metadata)| >= 2
    ensures var projects := ProjectIDs(metadata);
      Split(SplitPrimary(p, metadata, projects).attributes["virtual_children"], ',') == projects
  {
    ProjectIDsWellFormed(metadata);
    SplitJoin(ProjectIDs(metadata), ',');
  }

  lemma VirtualAttributesKeys(q: AuthRecord, project: string)
    ensures var a := VirtualAttributes(q, project);
      && "gemini_virtual_parent" in a && a["gemini_virtual_parent"] == q.id
      && "gemini_virtual_project" in a && a["gemini_virtual_project"] == project
      && "runtime_only" in a && a["runtime_only"] == "true"
  {
  }

  lemma VirtualMetadataKeys(q: AuthRecord, metadata: Metadata, project: string)
    ensures var m := VirtualMetadata(q, metadata, project);
      && "project_id" in m && m["project_id"] == Str(project)
      && "virtual_parent_id" in m && m["virtual_parent_id"] == Str(q.id)
  {
  }

  /**
   * The virtual credential for a project of the split primary `q`: its id
   * is derived from the primary's id and the project, it is active, points
   * back at the primary, and copies provider (defaulting to "gemini-cli"),
   * label (with the project in brackets), proxy URL, prefix and timestamps.
   */
  lemma VirtualFields(q: AuthRecord, metadata: Metadata, project: string)
    ensures var v := VirtualRecord(q, metadata, project);
      && v.id == BuildGeminiVirtualID(q.id, project)
      && v.status == Active && !v.disabled
      && "gemini_virtual_parent" in v.attributes && v.attributes["gemini_virtual_parent"] == q.id
      && "gemini_virtual_project" in v.attributes && v.attributes["gemini_virtual_project"] == project
      && "runtime_only" in v.attributes && v.attributes["runtime_only"] == "true"
      && v.provider == (if q.provider == "" then "gemini-cli" else q.provider)
      && v.displayLabel == (if q.displayLabel == "" then v.provider else q.displayLabel) + " [" + project + "]"
      && v.proxyURL == q.proxyURL && v.prefix == q.prefix
      && v.createdAt == q.createdAt && v.updatedAt == q.updatedAt
      && v.runtime == VirtualCredential(project, q.runtime)
      && "project_id" in v.metadata && v.metadata["project_id"] == Str(project)
      && "virtual_parent_id" in v.metadata && v.metadata["virtual_parent_id"] == Str(q.id)
  {
    var v := VirtualRecord(q, metadata, project);
    assert v.attributes == VirtualAttributes(q, project);
    assert v.metadata == VirtualMetadata(q, metadata, project);
    VirtualAttributesKeys(q, project);
    VirtualMetadataKeys(q, metadata, project);
  }

  /**
   * The override keys of a virtual credential: `disable_cooling` and
   * `request_retry` come from the underscore key when present, else from
   * the hyphen key, and are absent when neither is present; `proxy_url` is
   * set exactly when the primary's proxy URL is not blank.
   */
  lemma VirtualOverrides(q: AuthRecord, metadata: Metadata, project: string)
    ensures var m := VirtualMetadata(q, metadata, project);
      && ("disable_cooling" in m <==> "disable_cooling" in metadata || "disable-cooling" in metadata)
      && ("disable_cooling" in metadata ==> m["disable_cooling"] == metadata["disable_cooling"])
      && ("disable_cooling" !in metadata && "disable-cooling" in metadata ==> m["disable_cooling"] == metadata["disable-cooling"])
      && ("request_retry" in m <==> "request_retry" in metadata || "request-retry" in metadata)
      && ("request_retry" in metadata ==> m["request_retry"] == metadata["request_retry"])
      && ("request_retry" !in metadata && "request-retry" in metadata ==> m["request_retry"] == metadata["request-retry"])
      && ("proxy_url" in m <==> !AllSpace(q.proxyURL))
      && ("proxy_url" in m ==> m["proxy_url"] == Str(TrimSpace(q.proxyURL)))
  {
    TrimSpaceFacts(q.proxyURL);
  }

  // ---------------------------------------------------------------------
  // The split, in place
  // ---------------------------------------------------------------------

  /** The changes `SynthesizeGeminiVirtualAuths` makes to the primary before building the virtuals. */
  method SplitInPlace(primary: Auth, metadata: Metadata, projects: seq<string>)
    modifies primary
    ensures primary.Record() == SplitPrimary(old(primary.Record()), metadata, projects)
  {
    var email := StringAt(metadata, "email");
    var shared := SharedCredential(primary.id, email, metadata, projects);
    primary.disabled := true;
    primary.status := Disabled;
    primary.runtime := shared;
    primary.attributes := primary.attributes["gemini_virtual_primary" := "true"];
    primary.attributes := primary.attributes["virtual_children" := Join(projects, ',')];
  }

  /**
   * One iteration of the loop in `SynthesizeGeminiVirtualAuths`: the virtual
   * credential for `projectID`, from the fields of the split primary `p`
   * (which the loop only reads) and the values read from it before the loop.
   */
  method NewVirtual(p: AuthRecord, metadata: Metadata, projectID: string, email: string,
                    source: string, authPath: string, originalProvider: string, baseLabel: string)
    returns (virtual: Auth)
    requires email == StringAt(metadata, "email")
    requires source == Attr(p.attributes, "source") && authPath == Attr(p.attributes, "path")
    requires originalProvider == ProviderOrDefault(p)
    requires baseLabel == LabelOrDefault(p)
    ensures fresh(virtual) && virtual.Record() == VirtualRecord(p, metadata, projectID)
  {
    var attrs := map["runtime_only" := "true", "gemini_virtual_parent" := p.id, "gemini_virtual_project" := projectID];
    if source != "" {
      attrs := attrs["source" := source];
    }
    if authPath != "" {
      attrs := attrs["path" := authPath];
    }
    var metadataCopy := map["email" := Str(email), "project_id" := Str(projectID), "virtual" := Bool(true),
                            "virtual_parent_id" := Str(p.id), "type" := Get(metadata, "type")];
    if "disable_cooling" in metadata {
      metadataCopy := metadataCopy["disable_cooling" := metadata["disable_cooling"]];
    } else if "disable-cooling" in metadata {
      metadataCopy := metadataCopy["disable_cooling" := metadata["disable-cooling"]];
    }
    if "request_retry" in metadata {
      metadataCopy := metadataCopy["request_retry" := metadata["request_retry"]];
    } else if "request-retry" in metadata {
      metadataCopy := metadataCopy["request_retry" := metadata["request-retry"]];
    }
    var proxy := TrimSpace(p.proxyURL);
    if proxy != "" {
      metadataCopy := metadataCopy["proxy_url" := Str(proxy)];
    }
    assert attrs == VirtualAttributes(p, projectID);
    assert metadataCopy == VirtualMetadata(p, metadata, projectID);
    virtual := new Auth(AuthRecord(
      id := BuildGeminiVirtualID(p.id, projectID),
      provider := originalProvider,
      displayLabel := baseLabel + " [" + projectID + "]",
      prefix := p.prefix,
      status := Active,
      disabled := false,
      attributes := attrs,
      proxyURL := p.proxyURL,
      metadata := metadataCopy,
      createdAt := p.createdAt,
      updatedAt := p.updatedAt,
      runtime := VirtualCredential(projectID, p.runtime)));
  }

  /** The loop of `SynthesizeGeminiVirtualAuths`: one new virtual credential per project, in order. */
  method NewVirtuals(p: AuthRecord, metadata: Metadata, projects: seq<string>, email: string,
                     source: string, authPath: string, originalProvider: string, baseLabel: string)
    returns (virtuals: seq<Auth>)
    requires email == StringAt(metadata, "email")
    requires source == Attr(p.attributes, "source") && authPath == Attr(p.attributes, "path")
    requires originalProvider == ProviderOrDefault(p)
    requires baseLabel == LabelOrDefault(p)
    ensures Records(virtuals) == VirtualsFor(p, metadata, projects)
    ensures fresh(set v | v in virtuals)
  {
    virtuals := [];
    for i := 0 to |projects|
      invariant Records(virtuals) == VirtualsFor(p, metadata, projects[..i])
      invariant fresh(set v | v in virtuals)
    {
      var virtual := NewVirtual(p, metadata, projects[i], email, source, authPath, originalProvider, baseLabel);
      VirtualsForPrefix(p, metadata, projects, i);
      RecordsSnoc(virtuals, virtual);
      virtuals := virtuals + [virtual];
    }
    assert projects[..|projects|] == projects;
  }

  /**
   * `SynthesizeGeminiVirtualAuths`: splits `primary` in place and returns
   * the new virtual credentials; a nil primary gives nothing.
   */
  method SynthesizeGeminiVirtualAuths(primary: Auth?, metadata: Option<Metadata>, now: Time)
    returns (virtuals: seq<Auth>)
    modifies primary
    ensures primary == null ==> virtuals == []
    ensures primary != null ==>
      (primary.Record(), Records(virtuals)) == SplitOutcome(old(primary.Record()), metadata)
    ensures forall v :: v in virtuals ==> fresh(v)
  {
    if primary == null || metadata.None? {
      return [];
    }
    var m := metadata.value;
    var projects := SplitGeminiProjectIDs(m);
    if |projects| <= 1 {
      return [];
    }
    SplitInPlace(primary, m, projects);
    ghost var split := primary.Record();
    var email := StringAt(m, "email");
    var source := Attr(primary.attributes, "source");
    var authPath := Attr(primary.attributes, "path");
    var originalProvider := primary.provider;
    if originalProvider == "" {
      originalProvider := "gemini-cli";
    }
    var baseLabel := primary.displayLabel;
    if baseLabel == "" {
      baseLabel := originalProvider;
    }
    virtuals := NewVirtuals(primary.Record(), m, projects, email, source, authPath, originalProvider, baseLabel);
    assert SplitOutcome(old(primary.Record()), metadata) == (split, VirtualsFor(split, m, projects));
  }
}
