/** The base Maya reference loader: picking the reference node among a
    container's members, the representation-to-file-type table and the
    membership bookkeeping of `update`, and the namespace and
    containerise decisions of `load`. Maya's scene is seen through
    parameters: which names are reference nodes, which nodes a load
    returned. */
module MayaReferenceLoader {
  import opened Common

  const SharedReferenceNode := "sharedReferenceNode"
  const PlaceHolderList := ".placeHolderList"

  datatype LoaderError =
    | NoReferenceNode
    | UnsupportedRepresentation(name: string)
    | PathDoesNotExist(path: string)
    | EmptyAssetName

  /** `cmds.sets(node, query=True, nodesOnly=True)`: the members that are
      nodes. Attribute and component entries, such as
      `refRN.placeHolderList[1]`, hold a `.` in their name and are left
      out. */
  function NodesOnly(members: seq<string>): seq<string> {
    if members == [] then []
    else
      var last := members[|members| - 1];
      NodesOnly(members[..|members| - 1]) + (if '.' in last then [] else [last])
  }

  lemma {:induction false} NodesOnlyMembership(members: seq<string>)
    ensures forall x :: x in NodesOnly(members) <==> x in members && '.' !in x
    decreases |members|
  {
    if members != [] {
      var init := members[..|members| - 1];
      NodesOnlyMembership(init);
      assert members == init + [members[|members| - 1]];
    }
  }

  /** `cmds.ls(members, exactType="reference", objectsOnly=True)`: the
      members Maya reports as reference nodes, in order. */
  function ReferenceCandidates(members: seq<string>, isReference: string -> bool): seq<string> {
    if members == [] then []
    else
      var last := members[|members| - 1];
      ReferenceCandidates(members[..|members| - 1], isReference) + (if isReference(last) then [last] else [])
  }

  lemma {:induction false} ReferenceCandidatesMembership(members: seq<string>, isReference: string -> bool)
    ensures forall x :: x in ReferenceCandidates(members, isReference) <==> x in members && isReference(x)
    decreases |members|
  {
    if members != [] {
      var init := members[..|members| - 1];
      ReferenceCandidatesMembership(init, isReference);
      assert members == init + [members[|members| - 1]];
    }
  }

  /** The `references` list of `_get_reference_node`: every candidate once,
      where it first occurs, leaving out `sharedReferenceNode`. */
  function UniqueReferences(candidates: seq<string>): seq<string> {
    if candidates == [] then []
    else
      var references := UniqueReferences(candidates[..|candidates| - 1]);
      var ref := candidates[|candidates| - 1];
      if ref in references || ref == SharedReferenceNode then references else references + [ref]
  }

  predicate NoDuplicates(s: seq<string>) {
    forall i, j :: 0 <= i < j < |s| ==> s[i] != s[j]
  }

  /** The collected references are exactly the candidates other than
      `sharedReferenceNode`, none twice, and the first of them is the first
      candidate that is not `sharedReferenceNode`. */
  lemma {:induction false} UniqueReferencesSpec(candidates: seq<string>)
    ensures var refs := UniqueReferences(candidates);
      && (forall x :: x in refs <==> x in candidates && x != SharedReferenceNode)
      && NoDuplicates(refs)
      && (refs != [] ==> exists k :: 0 <= k < |candidates| && candidates[k] == refs[0] &&
                                     forall j :: 0 <= j < k ==> candidates[j] == SharedReferenceNode)
    decreases |candidates|
  {
    if candidates != [] {
      var init := candidates[..|candidates| - 1];
      var last := candidates[|candidates| - 1];
      UniqueReferencesSpec(init);
      assert candidates == init + [last];
      var before := UniqueReferences(init);
      if before == [] && UniqueReferences(candidates) != [] {
        forall j | 0 <= j < |candidates| - 1 ensures candidates[j] == SharedReferenceNode {
          assert init[j] in init;
        }
      }
      if before != [] {
        var k :| 0 <= k < |init| && init[k] == before[0] && forall j :: 0 <= j < k ==> init[j] == SharedReferenceNode;
        assert candidates[k] == before[0];
      }
    }
  }

  /** A sequence without duplicates has as many distinct elements as
      entries. */
  lemma {:induction false} DistinctCount(s: seq<string>)
    requires NoDuplicates(s)
    ensures |set x | x in s| == |s|
    decreases |s|
  {
    if s != [] {
      var init := s[..|s| - 1];
      DistinctCount(init);
      assert s == init + [s[|s| - 1]];
      assert (set x | x in s) == (set x | x in init) + {s[|s| - 1]};
      assert s[|s| - 1] !in init;
    }
  }

  /** `ReferenceLoader._get_reference_node`; `warned` tells whether the
      several-references warning was logged. */
  method GetReferenceNode(members: seq<string>, isReference: string -> bool)
    returns (node: Result<string, LoaderError>, warned: bool)
    ensures var refs := UniqueReferences(ReferenceCandidates(members, isReference));
      && (refs == [] ==> node == Err(NoReferenceNode) && !warned)
      && (refs != [] ==> node == Ok(refs[0]) && (warned <==> |refs| > 1))
    ensures node.Ok? ==> node.value != SharedReferenceNode && node.value in members && isReference(node.value)
  {
    var candidates := ReferenceCandidates(members, isReference);
    var matched: set<string> := {};
    var references: seq<string> := [];
    for k := 0 to |candidates|
      invariant references == UniqueReferences(candidates[..k])
      invariant matched == set x | x in references
    {
      var ref := candidates[k];
      assert candidates[..k + 1][..k] == candidates[..k];
      if ref in matched {
        continue;
      }
      if ref == SharedReferenceNode {
        continue;
      }
      references := references + [ref];
      matched := matched + {ref};
    }
    assert candidates[..|candidates|] == candidates;
    if references == [] {
      return Err(NoReferenceNode), false;
    }
    UniqueReferencesSpec(candidates);
    DistinctCount(references);
    warned := |set x | x in references| > 1;
    node := Ok(references[0]);
    ReferenceCandidatesMembership(members, isReference);
    assert references[0] in references;
  }

  /** The representation-name to Maya file-type table of `update`. */
  const FileTypes: map<string, string> := map["ma" := "mayaAscii", "mb" := "mayaBinary", "abc" := "Alembic"]

  function FileType(representationName: string): Option<string> {
    if representationName in FileTypes then Some(FileTypes[representationName]) else None
  }

  /** Exactly `ma`, `mb` and `abc` have a file type. */
  lemma FileTypeTable(name: string)
    ensures FileType(name).Some? <==> name == "ma" || name == "mb" || name == "abc"
    ensures FileType("ma") == Some("mayaAscii")
    ensures FileType("mb") == Some("mayaBinary")
    ensures FileType("abc") == Some("Alembic")
  {
  }

  /** `cmds.sets(content, forceElement=node)`: the loaded nodes join the
      container's members, each once. */
  function AddMembers(members: seq<string>, content: seq<string>): seq<string> {
    if content == [] then members
    else
      var added := AddMembers(members, content[..|content| - 1]);
      var node := content[|content| - 1];
      if node in added then added else added + [node]
  }

  /** A member naming a stale `.placeHolderList` attribute entry. */
  predicate IsPlaceholder(member: string) {
    Contains(member, PlaceHolderList)
  }

  /** The members left after removing every placeholder entry. */
  function WithoutPlaceholders(members: seq<string>): seq<string> {
    if members == [] then []
    else
      var last := members[|members| - 1];
      WithoutPlaceholders(members[..|members| - 1]) + (if IsPlaceholder(last) then [] else [last])
  }

  /** After pruning no member is a placeholder, every other member is
      still there, and the kept members are in their former order. */
  lemma {:induction false} PruneKeepsOthers(members: seq<string>)
    ensures var kept := WithoutPlaceholders(members);
      && (forall x :: x in kept <==> x in members && !IsPlaceholder(x))
      && |kept| <= |members|
      && (forall k :: 0 <= k < |members| && !IsPlaceholder(members[k]) ==> exists j :: 0 <= j < |kept| && kept[j] == members[k])
    decreases |members|
  {
    if members != [] {
      var init := members[..|members| - 1];
      PruneKeepsOthers(init);
      assert members == init + [members[|members| - 1]];
      var kept := WithoutPlaceholders(members);
      forall k | 0 <= k < |members| && !IsPlaceholder(members[k])
        ensures exists j :: 0 <= j < |kept| && kept[j] == members[k]
      {
        if k < |members| - 1 {
          assert init[k] == members[k];
          var j :| 0 <= j < |WithoutPlaceholders(init)| && WithoutPlaceholders(init)[j] == init[k];
          assert kept[j] == members[k];
        } else {
          assert kept[|kept| - 1] == members[k];
        }
      }
    }
  }

  /** Loaded nodes are all members after the update, together with the
      earlier members. */
  lemma {:induction false} AddMembersContains(members: seq<string>, content: seq<string>)
    ensures forall x :: x in AddMembers(members, content) <==> x in members || x in content
    decreases |content|
  {
    if content != [] {
      var init := content[..|content| - 1];
      AddMembersContains(members, init);
      assert content == init + [content[|content| - 1]];
    }
  }

  /** A container set in the scene: its members as `cmds.sets` lists them
      and its `representation` attribute. */
  class Container {
    var members: seq<string>
    var representation: string

    constructor (members: seq<string>, representation: string)
      ensures this.members == members && this.representation == representation
    {
      this.members := members;
      this.representation := representation;
    }
  }

  /** The `cmds.file(path, loadReference=..., type=...)` call `update`
      makes. */
  datatype ReferenceLoad = ReferenceLoad(referenceNode: string, path: string, fileType: string)

  /** What `update` does, or the assertion it fails: the reference node,
      looked for among the node members only, first, then the file type,
      then the path. */
  function UpdatePlan(members: seq<string>, isReference: string -> bool, representationName: string, path: string, pathExists: bool)
    : Result<ReferenceLoad, LoaderError>
  {
    var refs := UniqueReferences(ReferenceCandidates(NodesOnly(members), isReference));
    if refs == [] then Err(NoReferenceNode)
    else match FileType(representationName)
      case None => Err(UnsupportedRepresentation(representationName))
      case Some(fileType) =>
        if !pathExists then Err(PathDoesNotExist(path)) else Ok(ReferenceLoad(refs[0], path, fileType))
  }

  /** `ReferenceLoader.update`. `path` is the representation's file,
      `pathExists` whether it exists, and `content` the nodes Maya returns
      from reloading the reference. */
  method Update(container: Container, representationName: string, representationId: string,
                path: string, pathExists: bool, isReference: string -> bool, content: seq<string>)
    returns (result: Result<ReferenceLoad, LoaderError>)
    modifies container
    ensures result == UpdatePlan(old(container.members), isReference, representationName, path, pathExists)
    ensures result.Err? ==> container.members == old(container.members) && container.representation == old(container.representation)
    ensures result.Ok? ==>
      && container.members == WithoutPlaceholders(AddMembers(old(container.members), content))
      && container.representation == representationId
  {
    var nodes := NodesOnly(container.members);
    var referenceNode, _ := GetReferenceNode(nodes, isReference);
    if referenceNode.Err? {
      return Err(referenceNode.error);
    }
    var fileType := FileType(representationName);
    if fileType.None? {
      return Err(UnsupportedRepresentation(representationName));
    }
    if !pathExists {
      return Err(PathDoesNotExist(path));
    }
    container.members := AddMembers(container.members, content);
    container.members := WithoutPlaceholders(container.members);
    container.representation := representationId;
    return Ok(ReferenceLoad(referenceNode.value, path, fileType.value));
  }

  /** The node `update` reloads is a reference node among the container's
      members, is a node rather than an attribute entry, and is never
      `sharedReferenceNode`. */
  lemma UpdatePicksReferenceNode(members: seq<string>, isReference: string -> bool, representationName: string,
                                 path: string, pathExists: bool)
    ensures var r := UpdatePlan(members, isReference, representationName, path, pathExists);
      r.Ok? ==>
        && r.value.referenceNode in members
        && '.' !in r.value.referenceNode
        && isReference(r.value.referenceNode)
        && r.value.referenceNode != SharedReferenceNode
  {
    var candidates := ReferenceCandidates(NodesOnly(members), isReference);
    var refs := UniqueReferences(candidates);
    if refs != [] {
      UniqueReferencesSpec(candidates);
      ReferenceCandidatesMembership(NodesOnly(members), isReference);
      NodesOnlyMembership(members);
      assert refs[0] in refs;
    }
  }

  /** A `.placeHolderList` entry is never taken for the reference node,
      even where the reference oracle would accept it. */
  lemma ExamplePlaceholderNotPicked()
    ensures UpdatePlan(["refRN.placeHolderList[1]", "refRN"], _ => true, "ma", "/p/a.ma", true)
      == Ok(ReferenceLoad("refRN", "/p/a.ma", "mayaAscii"))
  {
    var members := ["refRN.placeHolderList[1]", "refRN"];
    assert '.' in members[0];
    assert '.' !in members[1];
    assert members[..1][..0] == [];
    assert NodesOnly(members[..1]) == [];
    assert NodesOnly(members) == ["refRN"];
    var only: seq<string> := ["refRN"];
    assert only[..0] == [];
    assert ReferenceCandidates(only, _ => true) == ["refRN"];
    assert UniqueReferences(["refRN"]) == ["refRN"];
  }

  /** The arguments `load` passes to `unique_namespace`. */
  datatype NamespaceRequest = NamespaceRequest(base: string, prefix: string, suffix: string)

  function NamespaceRequestFor(assetName: string): NamespaceRequest
    requires assetName != ""
  {
    NamespaceRequest(assetName + "_", if IsDigit(assetName[0]) then "_" else "", "_")
  }

  /** The `containerise` call `load` ends with. */
  datatype Containerise = Containerise(name: string, namespace: string, nodes: seq<string>, loader: string)

  /** `ReferenceLoader.load` once the subclass has referenced the file:
      `namespace` is the requested one ("" for none), `uniqueNamespace`
      stands for Maya's `unique_namespace`, and `loadedNodes` for the nodes
      the subclass left in the loader. */
  function Load(name: string, namespace: string, assetName: string, uniqueNamespace: NamespaceRequest -> string,
                loadedNodes: seq<string>, loader: string): Result<Option<Containerise>, LoaderError>
  {
    if namespace == "" && assetName == "" then Err(EmptyAssetName)
    else
      var chosen := if namespace != "" then namespace else uniqueNamespace(NamespaceRequestFor(assetName));
      if loadedNodes == [] then Ok(None) else Ok(Some(Containerise(name, chosen, loadedNodes, loader)))
  }

  /** The generated namespace is asked for with a leading `_` exactly when
      the asset name starts with a digit, and a given namespace is used as
      it is. */
  lemma LoadNamespace(name: string, namespace: string, assetName: string, uniqueNamespace: NamespaceRequest -> string,
                      loadedNodes: seq<string>, loader: string)
    requires loadedNodes != [] && (namespace != "" || assetName != "")
    ensures var r := Load(name, namespace, assetName, uniqueNamespace, loadedNodes, loader);
      && r.Ok? && r.value.Some?
      && (namespace != "" ==> r.value.value.namespace == namespace)
      && (namespace == "" ==>
            exists request :: r.value.value.namespace == uniqueNamespace(request) &&
              request.base == assetName + "_" && request.suffix == "_" &&
              (request.prefix == "_" <==> IsDigit(assetName[0])) && (request.prefix == "" <==> !IsDigit(assetName[0])))
  {
    if namespace == "" {
      var request := NamespaceRequestFor(assetName);
      assert Load(name, namespace, assetName, uniqueNamespace, loadedNodes, loader).value.value.namespace == uniqueNamespace(request);
    }
  }

  /** Nothing is containerised when the subclass loaded no nodes. */
  lemma LoadNothingLoaded(name: string, namespace: string, assetName: string, uniqueNamespace: NamespaceRequest -> string, loader: string)
    requires namespace != "" || assetName != ""
    ensures Load(name, namespace, assetName, uniqueNamespace, [], loader) == Ok(None)
  {
  }
}
