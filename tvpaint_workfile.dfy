/** The TVPaint workfile creator: keeps a single "workfile" instance per
    document, creating it from the current folder and task, or pointing the
    existing one at them when the context has moved. */
module TVPaintWorkfile {
  import opened Common

  /** An instance's data, key by key (`folderPath`, `task`, `variant`,
      `productName`, and whatever else the framework keeps). */
  type Data = map<string, string>

  /** A created instance: the identifier of the creator that made it, its
      product type and its data. */
  datatype Instance = Instance(creatorIdentifier: string, productType: string, data: Data)

  /** The creator's `identifier` and `product_type`. */
  const Identifier := "workfile"
  const ProductType := "workfile"

  /** What the create context reports as current. */
  datatype Context = Context(hostName: string, projectName: string, folderPath: string, taskName: string)

  /** `get_product_name(project, asset_doc, task, variant, host[, instance])`,
      whose rules the model does not see; the folder stands for its
      document. */
  type ProductNamer = (string, string, string, string, string, Option<Instance>) -> string

  /** The `KeyError` raised when the existing workfile instance lacks a
      key that `create` reads from it. */
  datatype CreateError = MissingKey(key: string)

  /** An instance carries every key `create` may read from it. */
  predicate WellFormed(instance: Instance) {
    "folderPath" in instance.data && "task" in instance.data && "variant" in instance.data
  }

  /** The instance already names the current folder and task. */
  predicate IsCurrent(instance: Instance, current: Context) {
    "folderPath" in instance.data && "task" in instance.data &&
    instance.data["folderPath"] == current.folderPath && instance.data["task"] == current.taskName
  }

  /** The instance names another folder, or the current folder with another
      task: the cases in which `create` retargets it. */
  predicate HasMoved(instance: Instance, current: Context) {
    "folderPath" in instance.data &&
    (instance.data["folderPath"] != current.folderPath ||
     ("task" in instance.data && instance.data["task"] != current.taskName))
  }

  /** `index` is where the first instance made by creator `id` stands, or
      None when no instance was made by it. */
  predicate IsFirstMatch(instances: seq<Instance>, id: string, index: Option<nat>) {
    match index
    case None => forall k :: 0 <= k < |instances| ==> instances[k].creatorIdentifier != id
    case Some(i) =>
      i < |instances| && instances[i].creatorIdentifier == id &&
      forall k :: 0 <= k < i ==> instances[k].creatorIdentifier != id
  }

  function FirstMatch(instances: seq<Instance>, id: string): (index: Option<nat>)
    ensures IsFirstMatch(instances, id, index)
  {
    if instances == [] then None
    else if instances[0].creatorIdentifier == id then Some(0)
    else match FirstMatch(instances[1..], id)
      case None => None
      case Some(i) => Some(i + 1)
  }

  /** There is only one first match. */
  lemma FirstMatchUnique(instances: seq<Instance>, id: string, a: Option<nat>, b: Option<nat>)
    requires IsFirstMatch(instances, id, a) && IsFirstMatch(instances, id, b)
    ensures a == b
  {
    if a.Some? && b.Some? {
      assert !(a.value < b.value) && !(b.value < a.value);
    }
  }

  /** The instance `create` makes when none exists. */
  function NewWorkfile(current: Context, variant: string, namer: ProductNamer): Instance {
    var productName := namer(current.projectName, current.folderPath, current.taskName, variant, current.hostName, None);
    Instance(Identifier, ProductType,
      map["folderPath" := current.folderPath, "task" := current.taskName, "variant" := variant, "productName" := productName])
  }

  /** The existing instance moved to the current folder and task, with its
      product name recomputed from its own variant. */
  function Retargeted(existing: Instance, current: Context, namer: ProductNamer): Instance
    requires "variant" in existing.data
  {
    var productName := namer(current.projectName, current.folderPath, current.taskName, existing.data["variant"], current.hostName, Some(existing));
    existing.(data := existing.data["folderPath" := current.folderPath]["task" := current.taskName]["productName" := productName])
  }

  /** The state `create` works on: the create context's instances and the
      instance list the host keeps in the document. */
  datatype Store = Store(instances: seq<Instance>, stored: seq<Instance>)

  /** The state after `create`, or the key it misses. `folderPath` is read
      first; `task` only when the folder is unchanged, since the `or`
      stops at a changed folder; `variant` only when retargeting. */
  function CreateResult(s: Store, current: Context, defaultVariant: string, namer: ProductNamer): Result<Store, CreateError> {
    match FirstMatch(s.instances, Identifier)
    case None =>
      var created := NewWorkfile(current, defaultVariant, namer);
      Ok(Store(s.instances + [created], s.stored + [created]))
    case Some(i) =>
      var existing := s.instances[i];
      if "folderPath" !in existing.data then Err(MissingKey("folderPath"))
      else if existing.data["folderPath"] == current.folderPath && "task" !in existing.data then Err(MissingKey("task"))
      else if existing.data["folderPath"] == current.folderPath && existing.data["task"] == current.taskName then Ok(s)
      else if "variant" !in existing.data then Err(MissingKey("variant"))
      else Ok(Store(s.instances[i := Retargeted(existing, current, namer)], s.stored))
  }

  /** The document's instance list (`list_instances` / `write_instances`). */
  class Host {
    var stored: seq<Instance>

    constructor (stored: seq<Instance>)
      ensures this.stored == stored
    {
      this.stored := stored;
    }
  }

  /** The create context: its instances and what it reports as current. */
  class CreateContext {
    var instances: seq<Instance>
    var current: Context

    constructor (instances: seq<Instance>, current: Context)
      ensures this.instances == instances && this.current == current
    {
      this.instances := instances;
      this.current := current;
    }
  }

  /** The scan at the top of `create`: the first instance whose creator
      identifier is `id`. */
  method FindExisting(instances: seq<Instance>, id: string) returns (index: Option<nat>)
    ensures IsFirstMatch(instances, id, index)
  {
    var k := 0;
    while k < |instances|
      invariant 0 <= k <= |instances|
      invariant forall j :: 0 <= j < k ==> instances[j].creatorIdentifier != id
    {
      if instances[k].creatorIdentifier == id {
        return Some(k);
      }
      k := k + 1;
    }
    return None;
  }

  class WorkfileCreator {
    var defaultVariant: string
    const createContext: CreateContext
    const host: Host

    constructor (createContext: CreateContext, host: Host, defaultVariant: string)
      ensures this.createContext == createContext && this.host == host
      ensures this.defaultVariant == defaultVariant
    {
      this.createContext := createContext;
      this.host := host;
      this.defaultVariant := defaultVariant;
    }

    /** `TVPaintWorkfileCreator.create`; `error` is the `KeyError` it
        raises, if any. */
    method Create(namer: ProductNamer) returns (error: Option<CreateError>)
      modifies createContext`instances, host
      ensures var r := CreateResult(Store(old(createContext.instances), old(host.stored)), createContext.current, defaultVariant, namer);
        && (r.Ok? ==> error == None && Store(createContext.instances, host.stored) == r.value)
        && (r.Err? ==>
              && error == Some(r.error)
              && createContext.instances == old(createContext.instances)
              && host.stored == old(host.stored))
    {
      var existing := FindExisting(createContext.instances, Identifier);
      FirstMatchUnique(createContext.instances, Identifier, existing, FirstMatch(createContext.instances, Identifier));
      var current := createContext.current;

      var existingFolderPath := "";
      if existing.Some? {
        var data := createContext.instances[existing.value].data;
        if "folderPath" !in data {
          return Some(MissingKey("folderPath"));
        }
        existingFolderPath := data["folderPath"];
      }

      if existing.None? {
        var newInstance := NewWorkfile(current, defaultVariant, namer);
        var instancesData := host.stored;
        instancesData := instancesData + [newInstance];
        host.stored := instancesData;
        createContext.instances := createContext.instances + [newInstance];
        return None;
      }

      var i := existing.value;
      var instance := createContext.instances[i];
      var moved := existingFolderPath != current.folderPath;
      if !moved {
        if "task" !in instance.data {
          return Some(MissingKey("task"));
        }
        moved := instance.data["task"] != current.taskName;
      }
      if moved {
        if "variant" !in instance.data {
          return Some(MissingKey("variant"));
        }
        createContext.instances := createContext.instances[i := Retargeted(instance, current, namer)];
      }
      return None;
    }
  }

  /** With no workfile instance, exactly one is appended, to the context and
      to the document, carrying the current folder and task and the default
      variant; everything before it stays as it was. */
  lemma CreateWhenAbsent(s: Store, current: Context, defaultVariant: string, namer: ProductNamer)
    requires forall k :: 0 <= k < |s.instances| ==> s.instances[k].creatorIdentifier != Identifier
    ensures var r := CreateResult(s, current, defaultVariant, namer);
      && r.Ok?
      && |r.value.instances| == |s.instances| + 1 && r.value.instances[..|s.instances|] == s.instances
      && |r.value.stored| == |s.stored| + 1 && r.value.stored[..|s.stored|] == s.stored
      && r.value.stored[|s.stored|] == r.value.instances[|s.instances|]
      && var created := r.value.instances[|s.instances|];
         created.creatorIdentifier == Identifier && WellFormed(created) &&
         created.data["folderPath"] == current.folderPath &&
         created.data["task"] == current.taskName &&
         created.data["variant"] == defaultVariant
  {
    FirstMatchUnique(s.instances, Identifier, None, FirstMatch(s.instances, Identifier));
  }

  /** When the folder or task has changed, `create` needs the existing
      instance's `variant`. With it, only that instance's `folderPath`,
      `task` and `productName` change; every other key, every other
      instance and the document's list stay as they were. */
  lemma CreateWhenMoved(s: Store, current: Context, defaultVariant: string, namer: ProductNamer, i: nat)
    requires IsFirstMatch(s.instances, Identifier, Some(i))
    requires HasMoved(s.instances[i], current)
    ensures var r := CreateResult(s, current, defaultVariant, namer);
      && ("variant" !in s.instances[i].data ==> r == Err(MissingKey("variant")))
      && ("variant" in s.instances[i].data ==>
           && r.Ok?
           && r.value.stored == s.stored
           && |r.value.instances| == |s.instances|
           && (forall k :: 0 <= k < |s.instances| && k != i ==> r.value.instances[k] == s.instances[k])
           && var before, after := s.instances[i], r.value.instances[i];
              after.creatorIdentifier == before.creatorIdentifier && after.productType == before.productType &&
              IsCurrent(after, current) &&
              "productName" in after.data &&
              after.data.Keys == before.data.Keys + {"task", "productName"} &&
              forall key :: key in before.data && key !in {"folderPath", "task", "productName"} ==> after.data[key] == before.data[key])
  {
    FirstMatchUnique(s.instances, Identifier, Some(i), FirstMatch(s.instances, Identifier));
  }

  /** When the existing instance already names the current folder and task,
      `create` changes nothing, whether or not it has a `variant`. */
  lemma CreateWhenCurrent(s: Store, current: Context, defaultVariant: string, namer: ProductNamer, i: nat)
    requires IsFirstMatch(s.instances, Identifier, Some(i))
    requires IsCurrent(s.instances[i], current)
    ensures CreateResult(s, current, defaultVariant, namer) == Ok(s)
  {
    FirstMatchUnique(s.instances, Identifier, Some(i), FirstMatch(s.instances, Identifier));
  }

  /** A missing `folderPath` on the existing instance always stops
      `create`; a missing `task` stops it only when the folder is
      unchanged. */
  lemma CreateReadsKeysInOrder(s: Store, current: Context, defaultVariant: string, namer: ProductNamer, i: nat)
    requires IsFirstMatch(s.instances, Identifier, Some(i))
    ensures var existing, r := s.instances[i], CreateResult(s, current, defaultVariant, namer);
      && ("folderPath" !in existing.data ==> r == Err(MissingKey("folderPath")))
      && ("folderPath" in existing.data && existing.data["folderPath"] == current.folderPath && "task" !in existing.data ==>
            r == Err(MissingKey("task")))
  {
    FirstMatchUnique(s.instances, Identifier, Some(i), FirstMatch(s.instances, Identifier));
  }

  /** Only the first workfile instance is read: when it carries its keys,
      `create` succeeds whatever the other instances hold; and an error
      always names a key that the first workfile instance lacks. */
  lemma CreateFailsOnlyOnFirstMatch(s: Store, current: Context, defaultVariant: string, namer: ProductNamer)
    ensures var r := CreateResult(s, current, defaultVariant, namer);
      && (forall i: nat :: IsFirstMatch(s.instances, Identifier, Some(i)) && WellFormed(s.instances[i]) ==> r.Ok?)
      && (r.Err? ==>
            exists i: nat ::
              && IsFirstMatch(s.instances, Identifier, Some(i))
              && r.error.key !in s.instances[i].data
              && (r.error.key == "folderPath" || r.error.key == "task" || r.error.key == "variant"))
  {
    var first := FirstMatch(s.instances, Identifier);
    forall i: nat | IsFirstMatch(s.instances, Identifier, Some(i))
      ensures first == Some(i)
    {
      FirstMatchUnique(s.instances, Identifier, Some(i), first);
    }
    if first.Some? {
      assert IsFirstMatch(s.instances, Identifier, Some(first.value));
    }
  }

  /** Worked case: a second workfile instance without any key does not
      matter when the first already names the current folder and task. */
  lemma ExampleLaterInstanceIgnored(namer: ProductNamer)
    ensures var first := Instance(Identifier, ProductType, map["folderPath" := "/a", "task" := "t", "variant" := "Main"]);
      var later := Instance(Identifier, ProductType, map["folderPath" := "/b"]);
      var s := Store([first, later], []);
      CreateResult(s, Context("tvpaint", "project", "/a", "t"), "Main", namer) == Ok(s)
  {
    var first := Instance(Identifier, ProductType, map["folderPath" := "/a", "task" := "t", "variant" := "Main"]);
    var later := Instance(Identifier, ProductType, map["folderPath" := "/b"]);
    var s := Store([first, later], []);
    CreateWhenCurrent(s, Context("tvpaint", "project", "/a", "t"), "Main", namer, 0);
  }

  /** Only the creating branch writes the document's instance list, and it
      adds one entry at most to the context. */
  lemma CreateWritesOnlyWhenCreating(s: Store, current: Context, defaultVariant: string, namer: ProductNamer)
    ensures var r := CreateResult(s, current, defaultVariant, namer);
      r.Ok? ==>
        && (r.value.stored != s.stored ==> forall k :: 0 <= k < |s.instances| ==> s.instances[k].creatorIdentifier != Identifier)
        && |s.instances| <= |r.value.instances| <= |s.instances| + 1
  {
    if FirstMatch(s.instances, Identifier).None? {
      FirstMatchUnique(s.instances, Identifier, None, FirstMatch(s.instances, Identifier));
    }
  }

  /** After a successful `create`, the first workfile instance names the
      current folder and task. */
  lemma CreateEstablishesCurrent(s: Store, current: Context, defaultVariant: string, namer: ProductNamer)
    ensures var r := CreateResult(s, current, defaultVariant, namer);
      r.Ok? ==>
        var first := FirstMatch(r.value.instances, Identifier);
        first.Some? && IsCurrent(r.value.instances[first.value], current)
  {
    var r := CreateResult(s, current, defaultVariant, namer);
    if r.Ok? {
      match FirstMatch(s.instances, Identifier)
      case None =>
        FirstMatchUnique(r.value.instances, Identifier, Some(|s.instances|), FirstMatch(r.value.instances, Identifier));
      case Some(i) =>
        FirstMatchUnique(r.value.instances, Identifier, Some(i), FirstMatch(r.value.instances, Identifier));
    }
  }

  /** Calling `create` a second time in the same context changes nothing. */
  lemma CreateIdempotent(s: Store, current: Context, defaultVariant: string, namer: ProductNamer)
    ensures var r := CreateResult(s, current, defaultVariant, namer);
      r.Ok? ==> CreateResult(r.value, current, defaultVariant, namer) == r
  {
    CreateEstablishesCurrent(s, current, defaultVariant, namer);
    var r := CreateResult(s, current, defaultVariant, namer);
    if r.Ok? {
      CreateWhenCurrent(r.value, current, defaultVariant, namer, FirstMatch(r.value.instances, Identifier).value);
    }
  }
}
