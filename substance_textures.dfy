/** The Substance Painter textures creator: the export presets offered to
    the artist, the instance it keeps in the project's metadata under
    "textures", and the fixed option tables of its attribute definitions.
    The shelves, the file system, resource URLs and the project are
    inputs. */
module SubstanceTextures {
  import opened Common

  /** A resource shelf: its name and its folder. */
  datatype Shelf = Shelf(name: string, path: string)

  /** The host calls `get_export_presets` makes: `os.path.normpath`,
      `os.path.exists`, `os.listdir` and `ResourceID(context, name).url()`. */
  datatype ShelfHost = ShelfHost(
    normPath: string -> string,
    pathExists: string -> bool,
    listDir: string -> seq<string>,
    resourceUrl: (string, string) -> string)

  /** One entry of the preset dictionary: resource URL to template name. */
  datatype Preset = Preset(url: string, templateName: string)

  const PresetSuffix := ".spexp"

  /** The first half of `os.path.splitext` on POSIX: the name up to its
      last `.`, unless that dot is in a directory part or only dots come
      before it in the last component. */
  function TemplateName(fname: string): string {
    var sepIndex := LastIndex(fname, '/');
    var dotIndex := LastIndex(fname, '.');
    if dotIndex > sepIndex && exists k :: sepIndex < k < dotIndex && fname[k] != '.'
    then fname[..dotIndex]
    else fname
  }

  /** For a preset file name, the template name is the name without
      `.spexp`, except for names such as `.spexp` whose only other
      characters are dots, which are kept whole. */
  lemma TemplateNameOfPresetFile(fname: string)
    requires EndsWith(fname, PresetSuffix) && '/' !in fname
    ensures (exists k :: 0 <= k < |fname| - |PresetSuffix| && fname[k] != '.') ==>
      TemplateName(fname) + PresetSuffix == fname
    ensures (forall k :: 0 <= k < |fname| - |PresetSuffix| ==> fname[k] == '.') ==>
      TemplateName(fname) == fname
  {
    var p := |fname| - |PresetSuffix|;
    assert fname[p] == '.';
    forall k | p < k < |fname| ensures fname[k] != '.' {
      assert fname[k] == PresetSuffix[k - p];
    }
    assert LastIndex(fname, '.') == p;
    assert LastIndex(fname, '/') == -1;
    assert fname[..p] + PresetSuffix == fname;
  }

  function PresetsPath(shelf: Shelf, host: ShelfHost): string {
    PathJoin(host.normPath(shelf.path), "export-presets")
  }

  /** The dictionary entry a preset file of a shelf contributes. */
  function PresetFor(shelf: Shelf, fname: string, host: ShelfHost): Preset {
    Preset(host.resourceUrl(shelf.name, TemplateName(fname)), TemplateName(fname))
  }

  /** The entries the files of one shelf contribute, in listing order. */
  function ShelfPresets(shelf: Shelf, files: seq<string>, host: ShelfHost): seq<Preset> {
    if files == [] then []
    else
      var fname := files[|files| - 1];
      ShelfPresets(shelf, files[..|files| - 1], host) +
        (if EndsWith(fname, PresetSuffix) then [PresetFor(shelf, fname, host)] else [])
  }

  /** The entries assigned into the dictionary, in assignment order; a
      shelf without an `export-presets` folder contributes none. */
  function Candidates(shelves: seq<Shelf>, host: ShelfHost): seq<Preset> {
    if shelves == [] then []
    else
      var shelf := shelves[|shelves| - 1];
      var dir := PresetsPath(shelf, host);
      Candidates(shelves[..|shelves| - 1], host) +
        (if host.pathExists(dir) then ShelfPresets(shelf, host.listDir(dir), host) else [])
  }

  /** `p` comes from a `.spexp` file in the existing presets folder of
      `shelf`. */
  predicate IsPresetOf(shelf: Shelf, host: ShelfHost, p: Preset) {
    var dir := PresetsPath(shelf, host);
    host.pathExists(dir) &&
    exists fname :: fname in host.listDir(dir) && EndsWith(fname, PresetSuffix) && p == PresetFor(shelf, fname, host)
  }

  lemma {:induction false} ShelfPresetsMembership(shelf: Shelf, files: seq<string>, host: ShelfHost, p: Preset)
    ensures p in ShelfPresets(shelf, files, host) <==>
      exists fname :: fname in files && EndsWith(fname, PresetSuffix) && p == PresetFor(shelf, fname, host)
    decreases |files|
  {
    if files != [] {
      var init := files[..|files| - 1];
      ShelfPresetsMembership(shelf, init, host, p);
      assert files == init + [files[|files| - 1]];
    }
  }

  /** Only `.spexp` files of shelves that have an `export-presets` folder
      are offered, and all of them are. */
  lemma {:induction false} CandidatesMembership(shelves: seq<Shelf>, host: ShelfHost, p: Preset)
    ensures p in Candidates(shelves, host) <==> exists i :: 0 <= i < |shelves| && IsPresetOf(shelves[i], host, p)
    decreases |shelves|
  {
    if shelves != [] {
      var init := shelves[..|shelves| - 1];
      var shelf := shelves[|shelves| - 1];
      CandidatesMembership(init, host, p);
      var dir := PresetsPath(shelf, host);
      var own := if host.pathExists(dir) then ShelfPresets(shelf, host.listDir(dir), host) else [];
      assert Candidates(shelves, host) == Candidates(init, host) + own;
      assert p in own <==> IsPresetOf(shelf, host, p) by {
        ShelfPresetsMembership(shelf, host.listDir(dir), host, p);
      }
      assert forall i :: 0 <= i < |init| ==> shelves[i] == init[i];
    }
  }

  /** `preset_resources[url] = name`: a new key goes to the end, an existing
      key keeps its place and takes the new value. */
  function Assign(entries: seq<Preset>, p: Preset): seq<Preset> {
    if entries == [] then [p]
    else if entries[0].url == p.url then [p] + entries[1..]
    else [entries[0]] + Assign(entries[1..], p)
  }

  /** The dictionary after assigning the candidates one after another. */
  function Collected(candidates: seq<Preset>): seq<Preset> {
    if candidates == [] then []
    else Assign(Collected(candidates[..|candidates| - 1]), candidates[|candidates| - 1])
  }

  /** A dictionary has each key once. */
  predicate UniqueUrls(entries: seq<Preset>) {
    forall i, j :: 0 <= i < j < |entries| ==> entries[i].url != entries[j].url
  }

  function Urls(entries: seq<Preset>): set<string> {
    set p | p in entries :: p.url
  }

  /** Assigning replaces the entry with the same URL, or adds one. */
  lemma {:induction false} AssignMembership(entries: seq<Preset>, p: Preset)
    requires UniqueUrls(entries)
    ensures forall q :: q in Assign(entries, p) <==> q == p || (q in entries && q.url != p.url)
    decreases |entries|
  {
    if entries != [] {
      var rest := entries[1..];
      assert entries == [entries[0]] + rest;
      RestUnique(entries);
      if entries[0].url == p.url {
        forall k | 0 <= k < |rest| ensures rest[k].url != p.url {
          assert entries[k + 1] == rest[k];
        }
      } else {
        AssignMembership(rest, p);
      }
    }
  }

  lemma RestUnique(entries: seq<Preset>)
    requires entries != [] && UniqueUrls(entries)
    ensures UniqueUrls(entries[1..])
  {
    var rest := entries[1..];
    forall i, j | 0 <= i < j < |rest| ensures rest[i].url != rest[j].url {
      assert rest[i] == entries[i + 1] && rest[j] == entries[j + 1];
    }
  }

  lemma {:induction false} AssignUnique(entries: seq<Preset>, p: Preset)
    requires UniqueUrls(entries)
    ensures UniqueUrls(Assign(entries, p))
    decreases |entries|
  {
    if entries != [] {
      var head, rest := entries[0], entries[1..];
      assert entries == [head] + rest;
      RestUnique(entries);
      forall k | 0 <= k < |rest| ensures rest[k].url != head.url {
        assert entries[k + 1] == rest[k];
      }
      if head.url == p.url {
        assert Assign(entries, p) == [p] + rest;
        ConsUnique(p, rest);
      } else {
        assert Assign(entries, p) == [head] + Assign(rest, p);
        AssignUnique(rest, p);
        AssignMembership(rest, p);
        ConsUnique(head, Assign(rest, p));
      }
    }
  }

  /** An entry in front of a list that lacks its URL keeps URLs unique. */
  lemma ConsUnique(head: Preset, tail: seq<Preset>)
    requires UniqueUrls(tail)
    requires forall q :: q in tail ==> q.url != head.url
    ensures UniqueUrls([head] + tail)
  {
    var r := [head] + tail;
    forall i, j | 0 <= i < j < |r| ensures r[i].url != r[j].url {
      assert r[j] == tail[j - 1];
      if i > 0 {
        assert r[i] == tail[i - 1];
      }
    }
  }

  lemma AssignUrls(entries: seq<Preset>, p: Preset)
    requires UniqueUrls(entries)
    ensures Urls(Assign(entries, p)) == Urls(entries) + {p.url}
  {
    AssignMembership(entries, p);
    var r := Assign(entries, p);
    forall u | u in Urls(entries) + {p.url} ensures u in Urls(r) {
      if u != p.url {
        var q :| q in entries && q.url == u;
        assert q in r;
      } else {
        assert p in r;
      }
    }
  }

  /** The candidate at `j` is `q`, and no later candidate has its URL. */
  predicate LastAssigned(candidates: seq<Preset>, j: int, q: Preset) {
    0 <= j < |candidates| && candidates[j] == q &&
    forall k :: j < k < |candidates| ==> candidates[k].url != q.url
  }

  /** The dictionary has each URL once, holds exactly the URLs of the
      candidates, and maps each to the template name assigned last. */
  lemma CollectedSpec(candidates: seq<Preset>)
    ensures UniqueUrls(Collected(candidates))
    ensures Urls(Collected(candidates)) == Urls(candidates)
    ensures forall q :: q in Collected(candidates) ==> exists j :: LastAssigned(candidates, j, q)
  {
    CollectedUnique(candidates);
    CollectedUrls(candidates);
    CollectedLastAssigned(candidates);
  }

  lemma {:induction false} CollectedUnique(candidates: seq<Preset>)
    ensures UniqueUrls(Collected(candidates))
    decreases |candidates|
  {
    if candidates != [] {
      var init := candidates[..|candidates| - 1];
      CollectedUnique(init);
      AssignUnique(Collected(init), candidates[|candidates| - 1]);
    }
  }

  lemma {:induction false} CollectedUrls(candidates: seq<Preset>)
    ensures Urls(Collected(candidates)) == Urls(candidates)
    decreases |candidates|
  {
    if candidates != [] {
      var init := candidates[..|candidates| - 1];
      var last := candidates[|candidates| - 1];
      CollectedUrls(init);
      CollectedUnique(init);
      AssignUrls(Collected(init), last);
      assert candidates == init + [last];
      assert Urls(candidates) == Urls(init) + {last.url};
    }
  }

  lemma {:induction false} CollectedLastAssigned(candidates: seq<Preset>)
    ensures forall q :: q in Collected(candidates) ==> exists j :: LastAssigned(candidates, j, q)
    decreases |candidates|
  {
    if candidates != [] {
      var init := candidates[..|candidates| - 1];
      var last := candidates[|candidates| - 1];
      assert candidates == init + [last];
      assert Collected(candidates) == Assign(Collected(init), last);
      CollectedLastAssigned(init);
      CollectedUnique(init);
      AssignMembership(Collected(init), last);
      forall q | q in Collected(candidates) ensures exists j :: LastAssigned(candidates, j, q) {
        if q == last {
          assert LastAssigned(candidates, |candidates| - 1, q);
        } else {
          assert q in Collected(init) && q.url != last.url;
          var j :| LastAssigned(init, j, q);
          LastAssignedExtend(init, last, j, q);
        }
      }
    }
  }

  /** A later candidate with another URL leaves an assignment the last. */
  lemma LastAssignedExtend(init: seq<Preset>, last: Preset, j: int, q: Preset)
    requires LastAssigned(init, j, q) && q.url != last.url
    ensures LastAssigned(init + [last], j, q)
  {
    var all := init + [last];
    forall k | j < k < |all| ensures all[k].url != q.url {
      if k < |init| {
        assert all[k] == init[k];
      }
    }
  }

  predicate StrLt(a: string, b: string) {
    StrLe(a, b) && a != b
  }

  /** Ordered by template name. */
  predicate SortedByName(entries: seq<Preset>) {
    forall i, j :: 0 <= i < j < |entries| ==> StrLe(entries[i].templateName, entries[j].templateName)
  }

  /** Inserts `p` before the first entry with a greater name. */
  function Insert(p: Preset, sorted: seq<Preset>): seq<Preset> {
    if sorted == [] then [p]
    else if StrLt(p.templateName, sorted[0].templateName) then [p] + sorted
    else [sorted[0]] + Insert(p, sorted[1..])
  }

  /** `sorted(items, key=template name)`. */
  function SortByName(entries: seq<Preset>): seq<Preset> {
    if entries == [] then []
    else Insert(entries[|entries| - 1], SortByName(entries[..|entries| - 1]))
  }

  lemma {:induction false} InsertPermutes(p: Preset, sorted: seq<Preset>)
    ensures multiset(Insert(p, sorted)) == multiset(sorted) + multiset{p}
    decreases |sorted|
  {
    if sorted != [] && !StrLt(p.templateName, sorted[0].templateName) {
      InsertPermutes(p, sorted[1..]);
      assert sorted == [sorted[0]] + sorted[1..];
    }
  }

  lemma {:induction false} InsertMembership(p: Preset, sorted: seq<Preset>)
    ensures forall q :: q in Insert(p, sorted) <==> q == p || q in sorted
    decreases |sorted|
  {
    if sorted != [] && !StrLt(p.templateName, sorted[0].templateName) {
      InsertMembership(p, sorted[1..]);
      assert sorted == [sorted[0]] + sorted[1..];
    }
  }

  /** Everything after the first entry of an ordered list has a name at
      least as large. */
  lemma HeadBound(sorted: seq<Preset>, q: Preset)
    requires SortedByName(sorted) && sorted != [] && q in sorted[1..]
    ensures StrLe(sorted[0].templateName, q.templateName)
  {
    var k :| 0 <= k < |sorted[1..]| && sorted[1..][k] == q;
    assert sorted[k + 1] == q;
  }

  lemma {:induction false} InsertSorted(p: Preset, sorted: seq<Preset>)
    requires SortedByName(sorted)
    ensures SortedByName(Insert(p, sorted))
    decreases |sorted|
  {
    if sorted != [] {
      var head, rest := sorted[0], sorted[1..];
      var r := Insert(p, sorted);
      if StrLt(p.templateName, head.templateName) {
        assert r == [p] + sorted;
        forall i, j | 0 <= i < j < |r| ensures StrLe(r[i].templateName, r[j].templateName) {
          if i == 0 && j > 1 {
            StrLeTransitive(p.templateName, head.templateName, r[j].templateName);
          }
        }
      } else {
        StrLeTotal(p.templateName, head.templateName);
        assert SortedByName(rest);
        InsertSorted(p, rest);
        InsertMembership(p, rest);
        var tail := Insert(p, rest);
        assert r == [head] + tail;
        forall j | 0 <= j < |tail| ensures StrLe(head.templateName, tail[j].templateName) {
          assert tail[j] in tail;
          if tail[j] != p {
            HeadBound(sorted, tail[j]);
          }
        }
        forall i, j | 0 <= i < j < |r| ensures StrLe(r[i].templateName, r[j].templateName) {
          if i == 0 {
            assert r[j] == tail[j - 1];
          } else {
            assert r[i] == tail[i - 1] && r[j] == tail[j - 1];
          }
        }
      }
    }
  }

  lemma {:induction false} SortByNameSorted(entries: seq<Preset>)
    ensures SortedByName(SortByName(entries))
    decreases |entries|
  {
    if entries != [] {
      SortByNameSorted(entries[..|entries| - 1]);
      InsertSorted(entries[|entries| - 1], SortByName(entries[..|entries| - 1]));
    }
  }

  lemma {:induction false} SortByNamePermutes(entries: seq<Preset>)
    ensures multiset(SortByName(entries)) == multiset(entries)
    decreases |entries|
  {
    if entries != [] {
      var init, last := entries[..|entries| - 1], entries[|entries| - 1];
      var sorted := SortByName(init);
      SortByNamePermutes(init);
      InsertPermutes(last, sorted);
      SnocPermutes(entries, sorted, Insert(last, sorted));
    }
  }

  /** Adding the last element of a sequence to a permutation of the rest
      gives a permutation of the whole. */
  lemma SnocPermutes<T>(whole: seq<T>, permuted: seq<T>, extended: seq<T>)
    requires whole != []
    requires multiset(permuted) == multiset(whole[..|whole| - 1])
    requires multiset(extended) == multiset(permuted) + multiset{whole[|whole| - 1]}
    ensures multiset(extended) == multiset(whole)
  {
    assert whole == whole[..|whole| - 1] + [whole[|whole| - 1]];
  }

  /** The sort orders by template name and keeps every entry. */
  lemma SortByNameSpec(entries: seq<Preset>)
    ensures SortedByName(SortByName(entries))
    ensures multiset(SortByName(entries)) == multiset(entries)
  {
    SortByNameSorted(entries);
    SortByNamePermutes(entries);
  }

  /** What `get_export_presets` returns, in dictionary order. */
  function ExportPresets(shelves: seq<Shelf>, host: ShelfHost): seq<Preset> {
    SortByName(Collected(Candidates(shelves, host)))
  }

  /** In a dictionary an entry occurs once. */
  lemma {:induction false} CountAtMostOne(entries: seq<Preset>, p: Preset)
    requires UniqueUrls(entries)
    ensures multiset(entries)[p] <= 1
    decreases |entries|
  {
    if entries != [] {
      var rest := entries[1..];
      assert entries == [entries[0]] + rest;
      RestUnique(entries);
      CountAtMostOne(rest, p);
      if entries[0] == p {
        forall k | 0 <= k < |rest| ensures rest[k] != p {
          assert entries[k + 1] == rest[k];
        }
        assert multiset(rest)[p] == 0;
      }
    }
  }

  lemma {:induction false} DistinctFromCounts(s: seq<Preset>)
    requires forall x :: multiset(s)[x] <= 1
    ensures forall i, j :: 0 <= i < j < |s| ==> s[i] != s[j]
    decreases |s|
  {
    if s != [] {
      var t := s[1..];
      assert s == [s[0]] + t;
      assert multiset(s) == multiset{s[0]} + multiset(t);
      forall x ensures multiset(t)[x] <= 1 {
        assert multiset(s)[x] == multiset{s[0]}[x] + multiset(t)[x];
      }
      DistinctFromCounts(t);
      assert multiset(s)[s[0]] == 1 + multiset(t)[s[0]];
      assert s[0] !in multiset(t);
      forall i, j | 0 <= i < j < |s| ensures s[i] != s[j] {
        assert s[j] == t[j - 1];
        if i > 0 {
          assert s[i] == t[i - 1];
        }
      }
    }
  }

  /** A reordering of a dictionary is a dictionary with the same entries. */
  lemma PermutedDictionary(a: seq<Preset>, b: seq<Preset>)
    requires UniqueUrls(a) && multiset(a) == multiset(b)
    ensures UniqueUrls(b)
    ensures forall q :: q in b <==> q in a
  {
    forall x ensures multiset(b)[x] <= 1 {
      CountAtMostOne(a, x);
    }
    DistinctFromCounts(b);
    forall q ensures q in b <==> q in a {
      assert q in b <==> q in multiset(b);
      assert q in a <==> q in multiset(a);
    }
    forall i, j | 0 <= i < j < |b| ensures b[i].url != b[j].url {
      assert b[i] in a && b[j] in a;
      var ka :| 0 <= ka < |a| && a[ka] == b[i];
      var kb :| 0 <= kb < |a| && a[kb] == b[j];
      assert ka != kb;
    }
  }

  /** The offered presets are ordered by template name, have each URL
      once, cover exactly the URLs of the `.spexp` files of the shelves'
      presets folders, and each comes from such a file, being the last
      one assigned to its URL. */
  lemma ExportPresetsSpec(shelves: seq<Shelf>, host: ShelfHost)
    ensures var presets := ExportPresets(shelves, host);
      && SortedByName(presets)
      && UniqueUrls(presets)
      && Urls(presets) == Urls(Candidates(shelves, host))
      && (forall p :: p in presets ==> exists j :: LastAssigned(Candidates(shelves, host), j, p))
      && (forall p :: p in presets ==> exists i :: 0 <= i < |shelves| && IsPresetOf(shelves[i], host, p))
  {
    var candidates := Candidates(shelves, host);
    var collected := Collected(candidates);
    CollectedSpec(candidates);
    SortByNameSpec(collected);
    var presets := SortByName(collected);
    PermutedDictionary(collected, presets);
    assert Urls(presets) == Urls(collected);
    forall p | p in presets ensures exists i :: 0 <= i < |shelves| && IsPresetOf(shelves[i], host, p) {
      var j :| LastAssigned(candidates, j, p);
      CandidatesMembership(shelves, host, p);
    }
  }

  /** The inner loop of `get_export_presets`: the preset files of one
      shelf assigned into the dictionary in listing order. */
  method AddShelfPresets(presetResources: seq<Preset>, shelf: Shelf, files: seq<string>, host: ShelfHost, ghost before: seq<Preset>)
    returns (updated: seq<Preset>)
    requires presetResources == Collected(before)
    ensures updated == Collected(before + ShelfPresets(shelf, files, host))
  {
    updated := presetResources;
    assert before + ShelfPresets(shelf, files[..0], host) == before;
    for j := 0 to |files|
      invariant updated == Collected(before + ShelfPresets(shelf, files[..j], host))
    {
      var fname := files[j];
      ghost var prev := ShelfPresets(shelf, files[..j], host);
      assert files[..j + 1][..j] == files[..j];
      if EndsWith(fname, PresetSuffix) {
        var templateName := TemplateName(fname);
        var resourceUrl := host.resourceUrl(shelf.name, templateName);
        assert ShelfPresets(shelf, files[..j + 1], host) == prev + [Preset(resourceUrl, templateName)];
        CollectedSnoc(before, prev, Preset(resourceUrl, templateName));
        updated := Assign(updated, Preset(resourceUrl, templateName));
      } else {
        assert ShelfPresets(shelf, files[..j + 1], host) == prev + [];
        assert prev + [] == prev;
      }
    }
    assert files[..|files|] == files;
  }

  /** Assigning one more candidate is one more dictionary assignment. */
  lemma CollectedSnoc(before: seq<Preset>, prev: seq<Preset>, p: Preset)
    ensures Collected(before + (prev + [p])) == Assign(Collected(before + prev), p)
  {
    var all := before + (prev + [p]);
    assert all[..|all| - 1] == before + prev;
    assert all[|all| - 1] == p;
  }

  /** `get_export_presets`. */
  method GetExportPresets(shelves: seq<Shelf>, host: ShelfHost) returns (presets: seq<Preset>)
    ensures presets == ExportPresets(shelves, host)
  {
    var presetResources: seq<Preset> := [];
    for i := 0 to |shelves|
      invariant presetResources == Collected(Candidates(shelves[..i], host))
    {
      var shelf := shelves[i];
      ghost var before := Candidates(shelves[..i], host);
      assert shelves[..i + 1][..i] == shelves[..i];
      var presetsPath := PathJoin(host.normPath(shelf.path), "export-presets");
      assert presetsPath == PresetsPath(shelf, host);
      if !host.pathExists(presetsPath) {
        assert Candidates(shelves[..i + 1], host) == before + [];
        assert before + [] == before;
        continue;
      }
      var files := host.listDir(presetsPath);
      assert Candidates(shelves[..i + 1], host) == before + ShelfPresets(shelf, files, host);
      presetResources := AddShelfPresets(presetResources, shelf, files, host, before);
    }
    assert shelves[..|shelves|] == shelves;
    presets := SortByName(presetResources);
  }

  /** Instance data, key by key. */
  type Data = map<string, string>

  /** An instance of the creator: its family, its subset name and its
      data (`data_to_store` is taken to be the data itself). */
  datatype CreatedInstance = CreatedInstance(family: string, subsetName: string, data: Data)

  const Identifier := "io.openpype.creators.substancepainter.textures"
  const Family := "textures"
  const DefaultVariant := "Main"

  /** The project metadata key the instance is kept under. */
  const MetadataKey := "textures"

  /** `get_project_metadata("textures") or {}`. */
  function StoredOrEmpty(metadata: map<string, Data>): Data {
    if MetadataKey in metadata then metadata[MetadataKey] else map[]
  }

  /** The stored data after `data.update(...)` with each instance's data
      in turn. */
  function MergeAll(base: Data, updates: seq<CreatedInstance>): Data {
    if updates == [] then base
    else MergeAll(base, updates[..|updates| - 1]) + updates[|updates| - 1].data
  }

  /** The index of the last update that carries `key`, or -1. */
  function LastWriter(updates: seq<CreatedInstance>, key: string): (i: int)
    ensures -1 <= i < |updates|
    ensures i >= 0 ==> key in updates[i].data && forall k :: i < k < |updates| ==> key !in updates[k].data
    ensures i == -1 ==> forall k :: 0 <= k < |updates| ==> key !in updates[k].data
  {
    if updates == [] then -1
    else if key in updates[|updates| - 1].data then |updates| - 1
    else LastWriter(updates[..|updates| - 1], key)
  }

  /** A shallow merge: a key survives from the stored data unless an
      instance carries it, and then takes the value of the last instance
      that does. */
  lemma {:induction false} MergeAllSpec(base: Data, updates: seq<CreatedInstance>)
    ensures forall key :: key in MergeAll(base, updates) <==> key in base || LastWriter(updates, key) >= 0
    ensures forall key :: key in MergeAll(base, updates) ==>
      MergeAll(base, updates)[key] ==
        if LastWriter(updates, key) >= 0 then updates[LastWriter(updates, key)].data[key] else base[key]
    decreases |updates|
  {
    if updates != [] {
      MergeAllSpec(base, updates[..|updates| - 1]);
    }
  }

  /** Storing the same instances a second time changes nothing. */
  lemma MergeAllIdempotent(base: Data, updates: seq<CreatedInstance>)
    ensures MergeAll(MergeAll(base, updates), updates) == MergeAll(base, updates)
  {
    var once := MergeAll(base, updates);
    var twice := MergeAll(once, updates);
    MergeAllSpec(base, updates);
    MergeAllSpec(once, updates);
    assert twice.Keys == once.Keys;
    forall key | key in twice ensures twice[key] == once[key] {
      var w := LastWriter(updates, key);
      if w >= 0 {
        assert twice[key] == updates[w].data[key] == once[key];
      }
    }
  }

  /** The open project and its metadata. */
  class Project {
    var isOpen: bool
    var metadata: map<string, Data>

    constructor (isOpen: bool, metadata: map<string, Data>)
      ensures this.isOpen == isOpen && this.metadata == metadata
    {
      this.isOpen := isOpen;
      this.metadata := metadata;
    }
  }

  /** The create context's instances. */
  class CreateContext {
    var instances: seq<CreatedInstance>

    constructor (instances: seq<CreatedInstance>)
      ensures this.instances == instances
    {
      this.instances := instances;
    }
  }

  /** The context's instances once each of `removed` is detached. */
  function Detached(instances: seq<CreatedInstance>, removed: seq<CreatedInstance>): seq<CreatedInstance> {
    if removed == [] then instances
    else Without(Detached(instances, removed[..|removed| - 1]), removed[|removed| - 1])
  }

  /** The list without the given instance. */
  function Without(instances: seq<CreatedInstance>, gone: CreatedInstance): seq<CreatedInstance> {
    if instances == [] then []
    else (if instances[0] == gone then [] else [instances[0]]) + Without(instances[1..], gone)
  }

  lemma {:induction false} WithoutMembership(instances: seq<CreatedInstance>, gone: CreatedInstance)
    ensures forall x :: x in Without(instances, gone) <==> x in instances && x != gone
    decreases |instances|
  {
    if instances != [] {
      WithoutMembership(instances[1..], gone);
      assert instances == [instances[0]] + instances[1..];
    }
  }

  /** Detaching removes exactly the given instances from the context. */
  lemma {:induction false} DetachedMembership(instances: seq<CreatedInstance>, removed: seq<CreatedInstance>)
    ensures forall x :: x in Detached(instances, removed) <==> x in instances && x !in removed
    decreases |removed|
  {
    if removed != [] {
      var init := removed[..|removed| - 1];
      DetachedMembership(instances, init);
      WithoutMembership(Detached(instances, init), removed[|removed| - 1]);
      assert removed == init + [removed[|removed| - 1]];
    }
  }

  /** The attribute definitions' item keys: None, an integer or a string. */
  datatype ItemKey = NoKey | IntKey(n: int) | StrKey(s: string)

  datatype EnumItem = EnumItem(key: ItemKey, caption: string)

  datatype AttrDef =
    | EnumDef(key: string, items: seq<EnumItem>, caption: string)
    | NumberDef(key: string, minimum: int, maximum: int, decimals: nat, default: int, caption: string)
    | UILabelDef(caption: string)

  const FileFormatItems: seq<EnumItem> := [EnumItem(NoKey, "Based on output template")]

  /** Export sizes: the key is the base-two logarithm of the size. */
  const SizeItems: seq<EnumItem> := [
    EnumItem(NoKey, "Based on each Texture Set's size"),
    EnumItem(IntKey(7), "128"),
    EnumItem(IntKey(8), "256"),
    EnumItem(IntKey(9), "512"),
    EnumItem(IntKey(10), "1024"),
    EnumItem(IntKey(11), "2048"),
    EnumItem(IntKey(12), "4096")]

  const PaddingItems: seq<EnumItem> := [
    EnumItem(StrKey("passthrough"), "No padding (passthrough)"),
    EnumItem(StrKey("infinite"), "Dilation infinite"),
    EnumItem(StrKey("transparent"), "Dilation + transparent"),
    EnumItem(StrKey("color"), "Dilation + default background color"),
    EnumItem(StrKey("diffusion"), "Dilation + diffusion")]

  const DilationDistance := NumberDef("exportDilationDistance", 0, 256, 0, 16, "Dilation Distance")

  /** One item per preset: its URL as key, its template name as caption. */
  function PresetItems(presets: seq<Preset>): seq<EnumItem> {
    seq(|presets|, k requires 0 <= k < |presets| => EnumItem(StrKey(presets[k].url), presets[k].templateName))
  }

  /** `get_instance_attr_defs` for the given presets. */
  function InstanceAttrDefs(presets: seq<Preset>): seq<AttrDef> {
    [ EnumDef("exportPresetUrl", PresetItems(presets), "Output Template"),
      EnumDef("exportFileFormat", FileFormatItems, "File type"),
      EnumDef("exportSize", SizeItems, "Size"),
      EnumDef("exportPadding", PaddingItems, "Padding"),
      DilationDistance,
      UILabelDef("Note: Dilation Distance is only used with 'Dilation + <xxx>' padding options") ]
  }

  /** The item offering export size 2^k: key k, labelled with 2^k in decimal. */
  function SizeOption(k: nat): EnumItem {
    EnumItem(IntKey(k), NatToString(Pow2(k)))
  }

  /** After the item that keeps each texture set's own size, the sizes are
      2^7 to 2^12 in increasing order, each keyed by its exponent. */
  lemma SizeItemsArePowersOfTwo()
    ensures SizeItems[0].key == NoKey
    ensures SizeItems[1..] == [SizeOption(7), SizeOption(8), SizeOption(9), SizeOption(10), SizeOption(11), SizeOption(12)]
  {
    SmallSizesSpelled();
    LargeSizesSpelled();
  }

  /** The labels of sizes 7 to 9 spell 2^7 to 2^9. */
  lemma SmallSizesSpelled()
    ensures SizeItems[1] == SizeOption(7)
    ensures SizeItems[2] == SizeOption(8)
    ensures SizeItems[3] == SizeOption(9)
  {
    assert Pow2(7) == 128 && Pow2(8) == 256 && Pow2(9) == 512;
    assert NatToString(128) == "128";
    assert NatToString(256) == "256";
    assert NatToString(512) == "512";
  }

  /** The labels of sizes 10 to 12 spell 2^10 to 2^12. */
  lemma LargeSizesSpelled()
    ensures SizeItems[4] == SizeOption(10)
    ensures SizeItems[5] == SizeOption(11)
    ensures SizeItems[6] == SizeOption(12)
  {
    assert Pow2(10) == 1024 && Pow2(11) == 2048 && Pow2(12) == 4096;
    assert NatToString(1024) == "1024";
    assert NatToString(2048) == "2048";
    assert NatToString(4096) == "4096";
  }

  /** The presets are offered in order with their URL as key, and the
      dilation distance is a whole number from 0 to 256 defaulting to 16. */
  lemma AttrDefsShape(presets: seq<Preset>)
    ensures var defs := InstanceAttrDefs(presets);
      && |defs| == 6
      && defs[0].EnumDef? && |defs[0].items| == |presets|
      && (forall k :: 0 <= k < |presets| ==> defs[0].items[k].key == StrKey(presets[k].url) && defs[0].items[k].caption == presets[k].templateName)
      && defs[4].NumberDef? && defs[4].key == "exportDilationDistance"
      && defs[4].decimals == 0 && defs[4].minimum <= defs[4].default <= defs[4].maximum
      && defs[4].minimum == 0 && defs[4].maximum == 256 && defs[4].default == 16
  {
  }

  /** `CreateTextures`: the creator, its project and its create context. */
  class TexturesCreator {
    const project: Project
    const createContext: CreateContext

    constructor (project: Project, createContext: CreateContext)
      ensures this.project == project && this.createContext == createContext
    {
      this.project := project;
      this.createContext := createContext;
    }

    /** `CreateTextures.create`: nothing when no project is open, otherwise
        a new instance in the context whose data is stored as the
        project's "textures" metadata. */
    method Create(subsetName: string, instanceData: Data)
      modifies createContext, project`metadata
      ensures !project.isOpen ==>
        createContext.instances == old(createContext.instances) && project.metadata == old(project.metadata)
      ensures project.isOpen ==>
        && createContext.instances == old(createContext.instances) + [CreatedInstance(Family, subsetName, instanceData)]
        && project.metadata == old(project.metadata)[MetadataKey := instanceData]
    {
      if !project.isOpen {
        return;
      }
      var instance := CreatedInstance(Family, subsetName, instanceData);
      createContext.instances := createContext.instances + [instance];
      project.metadata := project.metadata[MetadataKey := instance.data];
    }

    /** `CreateTextures.collect_instances`: an instance is made from the
        stored metadata exactly when it is present and not empty;
        `fromExisting` stands for `CreatedInstance.from_existing`. */
    method CollectInstances(fromExisting: Data -> CreatedInstance)
      modifies createContext
      ensures var stored := StoredOrEmpty(project.metadata);
        createContext.instances == old(createContext.instances) + (if stored != map[] then [fromExisting(stored)] else [])
    {
      var workfile := StoredOrEmpty(project.metadata);
      if workfile != map[] {
        createContext.instances := createContext.instances + [fromExisting(workfile)];
      }
    }

    /** `CreateTextures.update_instances`: each instance's data is merged
        into the stored metadata (or into an empty one) and stored back. */
    method UpdateInstances(updateList: seq<CreatedInstance>)
      modifies project`metadata
      ensures updateList == [] ==> project.metadata == old(project.metadata)
      ensures updateList != [] ==>
        project.metadata == old(project.metadata)[MetadataKey := MergeAll(StoredOrEmpty(old(project.metadata)), updateList)]
    {
      ghost var base := StoredOrEmpty(project.metadata);
      for i := 0 to |updateList|
        invariant i == 0 ==> project.metadata == old(project.metadata)
        invariant i > 0 ==> project.metadata == old(project.metadata)[MetadataKey := MergeAll(base, updateList[..i])]
      {
        var instance := updateList[i];
        var data := StoredOrEmpty(project.metadata);
        assert updateList[..i + 1][..i] == updateList[..i];
        data := data + instance.data;
        project.metadata := project.metadata[MetadataKey := data];
      }
      assert updateList[..|updateList|] == updateList;
    }

    /** `CreateTextures.remove_instances`: the instances are detached from
        the context; the project's metadata is not touched. */
    method RemoveInstances(instances: seq<CreatedInstance>)
      modifies createContext
      ensures createContext.instances == Detached(old(createContext.instances), instances)
      ensures project.metadata == old(project.metadata)
    {
      for i := 0 to |instances|
        invariant createContext.instances == Detached(old(createContext.instances), instances[..i])
      {
        assert instances[..i + 1][..i] == instances[..i];
        createContext.instances := Without(createContext.instances, instances[i]);
      }
      assert instances[..|instances|] == instances;
    }

    /** `CreateTextures.get_instance_attr_defs`. */
    method GetInstanceAttrDefs(shelves: seq<Shelf>, host: ShelfHost) returns (defs: seq<AttrDef>)
      ensures defs == InstanceAttrDefs(ExportPresets(shelves, host))
    {
      var presets := GetExportPresets(shelves, host);
      defs := InstanceAttrDefs(presets);
    }

    /** `CreateTextures.get_pre_create_attr_defs`: the same definitions. */
    method GetPreCreateAttrDefs(shelves: seq<Shelf>, host: ShelfHost) returns (defs: seq<AttrDef>)
      ensures defs == InstanceAttrDefs(ExportPresets(shelves, host))
    {
      defs := GetInstanceAttrDefs(shelves, host);
    }
  }

  /** After `create`, storing the same instance again through
      `update_instances` leaves the metadata as it is. */
  lemma UpdateAfterCreateIsStable(metadata: map<string, Data>, instance: CreatedInstance)
    ensures var stored := metadata[MetadataKey := instance.data];
      stored[MetadataKey := MergeAll(StoredOrEmpty(stored), [instance])] == stored
  {
    var stored := metadata[MetadataKey := instance.data];
    assert [instance][..0] == [];
    assert MergeAll(instance.data, [instance]) == instance.data + instance.data;
    assert instance.data + instance.data == instance.data;
  }
}
